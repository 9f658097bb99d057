/** The order in which successive claims drain a queue, and what concurrent claims return. */
module ClaimOrder {
  import opened Domain
  import opened Protocol

  function EligibleJobs(db: Db, q: QueueId): set<JobId> {
    set j | j in db.jobs && Eligible(db, q, j)
  }

  /** js are the jobs that successive claims by the workers ws return. */
  predicate Drains(db: Db, q: QueueId, ws: seq<WorkerId>, js: seq<JobId>)
    requires |ws| == |js|
    decreases |js|
  {
    js == [] ||
    (Claimable(db, q, {}, js[0]) && Drains(ClaimDb(db, ws[0], js[0]), q, ws[1..], js[1..]))
  }

  lemma {:induction false} ClaimShrinks(db: Db, q: QueueId, w: WorkerId, j: JobId)
    requires Eligible(db, q, j)
    ensures EligibleJobs(ClaimDb(db, w, j), q) == EligibleJobs(db, q) - {j}
  {
  }

  /** The order of the claim query is priority by name, and then age. */
  lemma {:induction false} BeforeIsAhead(a: Job, b: Job)
    ensures Before(a, b) <==> Ahead(a, b)
  {
  }

  lemma {:induction false} NoneAhead(db: Db, q: QueueId, locked: set<JobId>, j: JobId)
    requires Claimable(db, q, locked, j)
    ensures forall k | k in EligibleJobs(db, q) && k !in locked :: !Ahead(db.jobs[k], db.jobs[j])
  {
    hide Before, Ahead;
    forall k | k in EligibleJobs(db, q) && k !in locked ensures !Ahead(db.jobs[k], db.jobs[j]) {
      BeforeIsAhead(db.jobs[k], db.jobs[j]);
    }
  }

  /** Claims with no arrivals in between return distinct eligible jobs, in order of priority
      weight and then age, and every job passed over comes no earlier than those returned. */
  lemma {:induction false} ClaimsAreSorted(db: Db, q: QueueId, ws: seq<WorkerId>, js: seq<JobId>)
    requires |ws| == |js| && Drains(db, q, ws, js)
    ensures forall i | 0 <= i < |js| :: js[i] in EligibleJobs(db, q)
    ensures forall i, k | 0 <= i < k < |js| ::
              js[i] != js[k] && Eligible(db, q, js[i]) && Eligible(db, q, js[k])
              && !Ahead(db.jobs[js[k]], db.jobs[js[i]])
    ensures forall i, j | 0 <= i < |js| && j in EligibleJobs(db, q) && j !in js :: !Ahead(db.jobs[j], db.jobs[js[i]])
    decreases |js|
  {
    hide Before, Ahead;
    if js != [] {
      NoneAhead(db, q, {}, js[0]);
      var next := ClaimDb(db, ws[0], js[0]);
      ClaimShrinks(db, q, ws[0], js[0]);
      ClaimsAreSorted(next, q, ws[1..], js[1..]);
      assert forall i | 0 < i < |js| :: js[i] == js[1..][i - 1];
      assert forall j | j in EligibleJobs(next, q) :: next.jobs[j] == db.jobs[j];
    }
  }

  lemma {:induction false} MembersSplit(js: seq<JobId>)
    requires js != []
    ensures (set j | j in js) == {js[0]} + (set j | j in js[1..])
  {
    assert js == [js[0]] + js[1..];
  }

  /** As many claims as there are eligible jobs return all of them. */
  lemma {:induction false} ClaimsDrainTheQueue(db: Db, q: QueueId, ws: seq<WorkerId>, js: seq<JobId>)
    requires |ws| == |js| == |EligibleJobs(db, q)| && Drains(db, q, ws, js)
    ensures (set j | j in js) == EligibleJobs(db, q)
    decreases |js|
  {
    hide ClaimDb, Before;
    if js != [] {
      assert js[0] in EligibleJobs(db, q);
      hide EligibleJobs, Eligible;
      ClaimShrinks(db, q, ws[0], js[0]);
      ClaimsDrainTheQueue(ClaimDb(db, ws[0], js[0]), q, ws[1..], js[1..]);
      MembersSplit(js);
      assert EligibleJobs(db, q) == {js[0]} + (EligibleJobs(db, q) - {js[0]});
    }
  }

  lemma {:induction false} SomeBest(db: Db, s: set<JobId>) returns (j: JobId)
    requires s != {} && forall k | k in s :: k in db.jobs
    ensures j in s && forall k | k in s :: !Before(db.jobs[k], db.jobs[j])
    decreases |s|
  {
    j :| j in s;
    if s != {j} {
      var best := SomeBest(db, s - {j});
      if !Before(db.jobs[j], db.jobs[best]) {
        j := best;
      }
    }
  }

  /** A claim returns a job iff there is an eligible one that no other transaction locks. */
  lemma {:induction false} ClaimPossibleIff(db: Db, q: QueueId, locked: set<JobId>)
    ensures (exists j :: Claimable(db, q, locked, j)) <==> EligibleJobs(db, q) - locked != {}
  {
    if EligibleJobs(db, q) - locked != {} {
      var j := SomeBest(db, EligibleJobs(db, q) - locked);
      assert Claimable(db, q, locked, j);
    } else {
      assert forall j :: Claimable(db, q, locked, j) ==> j in EligibleJobs(db, q) - locked;
    }
  }

  /** Whatever workers claim, as long as jobs are left each of them gets one: draining sequences exist. */
  lemma {:induction false} DrainingExists(db: Db, q: QueueId, ws: seq<WorkerId>) returns (js: seq<JobId>)
    requires |ws| <= |EligibleJobs(db, q)|
    ensures |js| == |ws| && Drains(db, q, ws, js)
    decreases |ws|
  {
    js := [];
    if ws != [] {
      ClaimPossibleIff(db, q, {});
      var j :| Claimable(db, q, {}, j);
      ClaimShrinks(db, q, ws[0], j);
      var rest := DrainingExists(ClaimDb(db, ws[0], j), q, ws[1..]);
      js := [j] + rest;
    }
  }

  /** Claims that overlap: each transaction keeps its row locked, so the next one skips it. */
  predicate Overlapping(db: Db, q: QueueId, locked: set<JobId>, js: seq<JobId>)
    decreases |js|
  {
    js == [] || (Claimable(db, q, locked, js[0]) && Overlapping(db, q, locked + {js[0]}, js[1..]))
  }

  /** Concurrent claims return distinct jobs, each the best among those not locked by others. */
  lemma {:induction false} ConcurrentClaimsAreDistinct(db: Db, q: QueueId, locked: set<JobId>, js: seq<JobId>)
    requires Overlapping(db, q, locked, js)
    ensures forall i | 0 <= i < |js| :: js[i] in EligibleJobs(db, q) && js[i] !in locked
    ensures forall i, k | 0 <= i < k < |js| :: js[i] != js[k]
    ensures forall i, j | 0 <= i < |js| && j in EligibleJobs(db, q) && j !in locked && j !in js[..i] ::
              !Ahead(db.jobs[j], db.jobs[js[i]])
    decreases |js|
  {
    hide Before, Ahead;
    if js != [] {
      NoneAhead(db, q, locked, js[0]);
      ConcurrentClaimsAreDistinct(db, q, locked + {js[0]}, js[1..]);
      assert forall i | 0 < i < |js| :: js[i] == js[1..][i - 1];
      forall i, j | 0 <= i < |js| && j in EligibleJobs(db, q) && j !in locked && j !in js[..i]
        ensures !Ahead(db.jobs[j], db.jobs[js[i]])
      {
        if i > 0 {
          assert js[..i] == [js[0]] + js[1..][..i - 1];
        }
      }
    }
  }
}
