/** Workflow dependencies: after a job completes, its pending dependents whose dependencies are
    all completed are released. The count and the update of each dependent are separate
    statements, so calls for different completions interleave. */
module Workflow {
  import opened Domain

  /** (dependent, dependency) rows of job_dependencies. */
  type Edges = set<(JobId, JobId)>

  predicate Satisfied(deps: Edges, status: map<JobId, JobStatus>, d: JobId) {
    forall e | e in deps && e.0 == d && e.1 in status :: status[e.1] == Completed
  }

  // ---------------------------------------------------------------- one call

  class WorkflowStore {
    const deps: Edges
    var status: map<JobId, JobStatus>

    /** The release loop, run without interference: exactly the pending dependents of the
        completed job whose dependencies are all completed become queued. `dependents` is the
        result of the first query, in any order. */
    method OnJobCompleted(completed: JobId, dependents: seq<JobId>)
      requires forall d :: d in dependents <==> (d, completed) in deps
      modifies this
      ensures status.Keys == old(status).Keys
      ensures forall d | d in status ::
        status[d] == if old(status)[d] == Pending && (d, completed) in deps && Satisfied(deps, old(status), d)
                     then Queued else old(status)[d]
    {
      hide Satisfied;
      for i := 0 to |dependents|
        invariant status.Keys == old(status).Keys
        invariant forall d | d in status ::
          status[d] == if old(status)[d] == Pending && d in dependents[..i] && Satisfied(deps, old(status), d)
                       then Queued else old(status)[d]
      {
        var job := dependents[i];
        var unsatisfied := |set e | e in deps && e.0 == job && e.1 in status && status[e.1] != Completed|;
        ReleasesDoNotComplete(deps, old(status), status, job);
        if unsatisfied == 0 {
          if job in status && status[job] == Pending {
            status := status[job := Queued];
          }
        }
      }
    }
  }

  lemma {:induction false} ReleasesDoNotComplete(
    deps: Edges, before: map<JobId, JobStatus>, after: map<JobId, JobStatus>, d: JobId)
    requires before.Keys == after.Keys
    requires forall j | j in before :: before[j] == Completed <==> after[j] == Completed
    ensures Satisfied(deps, before, d) <==> Satisfied(deps, after, d)
    ensures Satisfied(deps, after, d)
       <==> |set e | e in deps && e.0 == d && e.1 in after && after[e.1] != Completed| == 0
  {
    var open := set e | e in deps && e.0 == d && e.1 in after && after[e.1] != Completed;
    if |open| == 0 {
      assert open == {};
      forall e | e in deps && e.0 == d && e.1 in after ensures after[e.1] == Completed {
        assert e !in open;
      }
    } else {
      var e :| e in open;
      assert after[e.1] != Completed;
    }
  }

  // ---------------------------------------------------------------- interleaved calls

  type CallId = nat

  /** todo - dependents still to be looked at; releasing - the first of them was counted
      satisfied and its update is due. */
  datatype Call = Call(todo: seq<JobId>, releasing: bool)

  /** uncalled - completions that are committed and whose call has not begun;
      cancelled - jobs that were cancelled, which is for good. */
  datatype World = World(
    deps: Edges, status: map<JobId, JobStatus>, uncalled: set<JobId>, calls: map<CallId, Call>, cancelled: set<JobId>)

  datatype Move =
    | Progress(id: JobId, to: JobStatus)
    | Complete(id: JobId)
    | Cancel(id: JobId)
    | Begin(call: CallId, id: JobId, dependents: seq<JobId>)
    | Count(call: CallId)
    | Release(call: CallId)
    | Finish(call: CallId)

  predicate Released(w: World, j: JobId) {
    j in w.status && w.status[j] != Pending && w.status[j] != Completed && j !in w.cancelled
  }

  predicate CanMove(w: World, m: Move) {
    match m
    case Progress(j, to) => Released(w, j) && to != Pending && to != Completed
    case Complete(j) => Released(w, j)
    case Cancel(j) => j in w.status && (w.status[j] == Pending || w.status[j] == Queued || w.status[j] == Scheduled)
    case Begin(c, j, list) =>
      && c !in w.calls && j in w.uncalled && (forall e | e in w.deps && e.1 == j :: e.0 in list)
      && forall d | d in list :: (d, j) in w.deps
    case Count(c) => c in w.calls && w.calls[c].todo != [] && !w.calls[c].releasing
    case Release(c) => c in w.calls && w.calls[c].todo != [] && w.calls[c].releasing
    case Finish(c) => c in w.calls && w.calls[c].todo == []
  }

  function MoveOf(w: World, m: Move): (r: World)
    ensures r.status.Keys == w.status.Keys && r.deps == w.deps
  {
    if !CanMove(w, m) then w else
    match m
    case Progress(j, to) => w.(status := w.status[j := to])
    case Complete(j) => w.(status := w.status[j := Completed], uncalled := w.uncalled + {j})
    case Cancel(j) => w.(status := w.status[j := Failed], cancelled := w.cancelled + {j})
    case Begin(c, j, list) => w.(uncalled := w.uncalled - {j}, calls := w.calls[c := Call(list, false)])
    case Count(c) =>
      w.(calls := w.calls[c := if Satisfied(w.deps, w.status, w.calls[c].todo[0])
                               then w.calls[c].(releasing := true)
                               else Call(w.calls[c].todo[1..], false)])
    case Release(c) =>
      var d := w.calls[c].todo[0];
      w.(status := if d in w.status && w.status[d] == Pending then w.status[d := Queued] else w.status,
         calls := w.calls[c := Call(w.calls[c].todo[1..], false)])
    case Finish(c) => w.(calls := w.calls - {c})
  }

  function Moves(w: World, ms: seq<Move>): (r: World)
    ensures r.status.Keys == w.status.Keys && r.deps == w.deps
  {
    if ms == [] then w else MoveOf(Moves(w, ms[..|ms| - 1]), ms[|ms| - 1])
  }

  predicate Dependent(deps: Edges, d: JobId) {
    exists e | e in deps :: e.0 == d
  }

  /** Dependencies exist (foreign keys), and a workflow starts with nothing completed. */
  predicate Start(w: World) {
    && (forall e | e in w.deps :: e.0 in w.status && e.1 in w.status)
    && (forall j | j in w.status :: w.status[j] != Completed)
    && w.uncalled == {} && w.calls == map[] && w.cancelled == {}
  }

  predicate Ready(w: World, d: JobId) {
    d in w.status && w.status[d] == Pending && Dependent(w.deps, d) && Satisfied(w.deps, w.status, d)
  }

  /** Some call will still look at d. */
  predicate Watched(w: World, d: JobId) {
    || (exists j | j in w.uncalled :: (d, j) in w.deps)
    || (exists c | c in w.calls :: d in w.calls[c].todo)
  }

  predicate ReleasesAreDue(w: World) {
    forall c | c in w.calls && w.calls[c].releasing ::
      w.calls[c].todo != [] && Satisfied(w.deps, w.status, w.calls[c].todo[0])
  }

  predicate NoneForgotten(w: World) {
    forall d | d in w.status && Ready(w, d) :: Watched(w, d)
  }

  predicate Linked(w: World) {
    forall e | e in w.deps :: e.0 in w.status && e.1 in w.status
  }

  predicate WorkflowInv(w: World) {
    Linked(w) && ReleasesAreDue(w) && NoneForgotten(w)
  }

  // ---------------------------------------------------------------- steps

  predicate ReleasesNow(w: World, m: Move, j: JobId) {
    m.Release? && m.call in w.calls && w.calls[m.call].releasing && w.calls[m.call].todo != []
    && w.calls[m.call].todo[0] == j
  }

  /** Statuses change only from pending to queued by a release, to failed by a cancel, and from
      released to completed or to another released status. */
  lemma {:induction false} StatusEvolves(w: World, m: Move, j: JobId)
    requires j in w.status
    ensures var w' := MoveOf(w, m);
      && (w.status[j] == Completed ==> w'.status[j] == Completed)
      && (w'.status[j] == Pending ==> w.status[j] == Pending)
      && (w.status[j] == Pending && w'.status[j] != Pending ==>
            || (ReleasesNow(w, m, j) && w'.status[j] == Queued && w'.cancelled == w.cancelled)
            || (m == Cancel(j) && w'.status[j] == Failed && j in w'.cancelled))
      && (w.status[j] != Completed && w'.status[j] == Completed ==>
            m.Complete? && m.id == j && j in w'.uncalled && j !in w.cancelled)
  {
  }

  lemma {:induction false} SatisfiedStays(w: World, m: Move, d: JobId)
    requires Linked(w) && Satisfied(w.deps, w.status, d)
    ensures Satisfied(w.deps, MoveOf(w, m).status, d)
  {
    forall e | e in w.deps && e.0 == d ensures e.1 in w.status && MoveOf(w, m).status[e.1] == Completed {
      StatusEvolves(w, m, e.1);
    }
  }

  lemma {:induction false} ReleasesStayDue(w: World, m: Move)
    requires Linked(w) && ReleasesAreDue(w)
    ensures ReleasesAreDue(MoveOf(w, m))
  {
    var w' := MoveOf(w, m);
    forall c | c in w'.calls && w'.calls[c].releasing
      ensures w'.calls[c].todo != [] && Satisfied(w'.deps, w'.status, w'.calls[c].todo[0])
    {
      if c in w.calls && w.calls[c] == w'.calls[c] {
        SatisfiedStays(w, m, w.calls[c].todo[0]);
      }
    }
  }

  /** A job that was ready stays watched until it is released. */
  lemma {:induction false} WatchKept(w: World, m: Move, d: JobId)
    requires Linked(w) && ReleasesAreDue(w) && Ready(w, d) && Ready(MoveOf(w, m), d) && Watched(w, d)
    ensures Watched(MoveOf(w, m), d)
  {
    var w' := MoveOf(w, m);
    if j :| j in w.uncalled && (d, j) in w.deps {
      if CanMove(w, m) && m.Begin? && m.id == j {
        assert (d, j) in w.deps && (d, j).1 == j;
        assert d in w'.calls[m.call].todo;
      } else {
        assert j in w'.uncalled;
      }
    } else {
      var c :| c in w.calls && d in w.calls[c].todo;
      if CanMove(w, m) && (m.Count? || m.Release?) && m.call == c {
        assert w.calls[c].todo == [w.calls[c].todo[0]] + w.calls[c].todo[1..];
        assert c in w'.calls && d in w'.calls[c].todo;
      } else {
        assert c in w'.calls && d in w'.calls[c].todo;
      }
    }
  }

  /** A job that becomes ready does so by the completion of a dependency whose call is to come. */
  lemma {:induction false} WatchBegins(w: World, m: Move, d: JobId)
    requires Linked(w) && !Ready(w, d) && Ready(MoveOf(w, m), d)
    ensures Watched(MoveOf(w, m), d)
  {
    var w' := MoveOf(w, m);
    assert d in w.status;
    StatusEvolves(w, m, d);
    assert !Satisfied(w.deps, w.status, d);
    var e :| e in w.deps && e.0 == d && e.1 in w.status && w.status[e.1] != Completed;
    StatusEvolves(w, m, e.1);
    assert (d, e.1) == e;
    assert e.1 in w'.uncalled;
  }

  lemma {:induction false} WorkflowStep(w: World, m: Move)
    requires WorkflowInv(w)
    ensures WorkflowInv(MoveOf(w, m))
  {
    hide MoveOf, Ready, Watched, ReleasesAreDue;
    var w' := MoveOf(w, m);
    ReleasesStayDue(w, m);
    forall d | d in w'.status && Ready(w', d) ensures Watched(w', d) {
      if Ready(w, d) {
        WatchKept(w, m, d);
      } else {
        WatchBegins(w, m, d);
      }
    }
  }

  lemma {:induction false} WorkflowHolds(w: World, ms: seq<Move>)
    requires Start(w)
    ensures WorkflowInv(Moves(w, ms))
    decreases |ms|
  {
    if ms == [] {
      NothingReady(w);
    } else {
      var n := |ms| - 1;
      WorkflowHolds(w, ms[..n]);
      WorkflowStep(Moves(w, ms[..n]), ms[n]);
    }
  }

  lemma {:induction false} NothingReady(w: World)
    requires Start(w)
    ensures forall d | d in w.status :: !Ready(w, d)
  {
    forall d | d in w.status ensures !Ready(w, d) {
      if Dependent(w.deps, d) {
        var e :| e in w.deps && e.0 == d;
        assert w.status[e.1] != Completed;
      }
    }
  }

  // ---------------------------------------------------------------- interleaving

  ghost predicate DependentsOf(w: World, j: JobId, list: seq<JobId>) {
    forall k :: k in list <==> (k, j) in w.deps
  }

  /** Calls do not wait for each other: one that has begun can always take its next step, and a call for
      a committed completion can always begin, with its dependents in any order. */
  lemma {:induction false} CallsAreFree(w: World, c: CallId)
    requires c in w.calls
    ensures CanMove(w, Count(c)) || CanMove(w, Release(c)) || CanMove(w, Finish(c))
    ensures forall d: CallId, j, list | d !in w.calls && j in w.uncalled && DependentsOf(w, j, list) ::
      CanMove(w, Begin(d, j, list))
    ensures forall j | j in w.status && w.status[j] in {Pending, Queued, Scheduled} :: CanMove(w, Cancel(j))
    ensures forall j | Released(w, j) :: CanMove(w, Complete(j)) && CanMove(w, Progress(j, Running))
  {
    forall d: CallId, j, list | d !in w.calls && j in w.uncalled && DependentsOf(w, j, list)
      ensures CanMove(w, Begin(d, j, list))
    {
      forall e | e in w.deps && e.1 == j ensures e.0 in list {
        assert e == (e.0, j);
      }
    }
  }

  // ---------------------------------------------------------------- theorems

  /** A pending job leaves that status only when it is cancelled, or for queued when all its
      dependencies are completed. */
  lemma {:induction false} ReleasedOnlyWhenReady(w: World, ms: seq<Move>, m: Move, d: JobId)
    requires Start(w) && d in w.status
    requires Moves(w, ms).status[d] == Pending && MoveOf(Moves(w, ms), m).status[d] != Pending
    ensures m == Cancel(d)
         || (Satisfied(w.deps, Moves(w, ms).status, d) && MoveOf(Moves(w, ms), m).status[d] == Queued)
  {
    hide Moves, NoneForgotten;
    WorkflowHolds(w, ms);
    StatusEvolves(Moves(w, ms), m, d);
  }

  /** No lost wakeup: once every completion's call has begun and ended, no pending job with
      dependencies has them all completed. */
  lemma {:induction false} NoLostWakeup(w: World, ms: seq<Move>, d: JobId)
    requires Start(w) && Moves(w, ms).uncalled == {} && Moves(w, ms).calls == map[]
    ensures !Ready(Moves(w, ms), d)
  {
    hide Moves, ReleasesAreDue;
    WorkflowHolds(w, ms);
    assert Ready(Moves(w, ms), d) ==> Watched(Moves(w, ms), d);
  }

  /** rank orders the graph: a dependency has a smaller rank than its dependents. */
  predicate Acyclic(deps: Edges, rank: map<JobId, nat>) {
    forall e | e in deps :: e.0 in rank && e.1 in rank && rank[e.1] < rank[e.0]
  }

  /** The job, or one that it depends on directly or not, was cancelled. */
  predicate Doomed(w: World, rank: map<JobId, nat>, j: JobId)
    requires Acyclic(w.deps, rank)
    decreases if j in rank then rank[j] else 0
  {
    j in w.cancelled || exists e | e in w.deps && e.0 == j :: Doomed(w, rank, e.1)
  }

  /** Every call has ended and every released job is completed. */
  predicate AtRest(w: World) {
    w.uncalled == {} && w.calls == map[] && forall j | j in w.status :: !Released(w, j)
  }

  /** On an acyclic graph whose pending jobs all have dependencies, a workflow at rest has completed
      every job that no cancel has doomed. */
  lemma {:induction false} WorkflowReachesAll(w: World, ms: seq<Move>, rank: map<JobId, nat>, j: JobId)
    requires Start(w) && Acyclic(w.deps, rank) && j in w.status && AtRest(Moves(w, ms))
    requires forall i | i in w.status && Moves(w, ms).status[i] == Pending :: Dependent(w.deps, i)
    ensures Moves(w, ms).status[j] == Completed || Doomed(Moves(w, ms), rank, j)
    decreases if j in rank then rank[j] else 0
  {
    hide Moves, ReleasesAreDue, NoneForgotten;
    var end := Moves(w, ms);
    WorkflowHolds(w, ms);
    if end.status[j] == Pending && !Doomed(end, rank, j) {
      forall e | e in w.deps && e.0 == j ensures end.status[e.1] == Completed {
        WorkflowReachesAll(w, ms, rank, e.1);
      }
      NoLostWakeup(w, ms, j);
    } else {
      assert !Released(end, j);
    }
  }

  // ---------------------------------------------------------------- cancelled jobs

  /** Every job with dependencies starts pending, and no other. */
  predicate StartsPending(w: World) {
    forall j | j in w.status :: w.status[j] == Pending <==> Dependent(w.deps, j)
  }

  predicate CauseLaw(w: World, d: JobId)
    requires d in w.status
  {
    && (d in w.cancelled ==> w.status[d] == Failed)
    && (w.status[d] == Pending ==> Dependent(w.deps, d))
    && (Dependent(w.deps, d) && w.status[d] != Pending && d !in w.cancelled ==> Satisfied(w.deps, w.status, d))
  }

  lemma {:induction false} CauseStep(w: World, m: Move, d: JobId)
    requires WorkflowInv(w) && d in w.status && CauseLaw(w, d)
    ensures CauseLaw(MoveOf(w, m), d)
  {
    hide NoneForgotten, Satisfied;
    StatusEvolves(w, m, d);
    if Satisfied(w.deps, w.status, d) {
      SatisfiedStays(w, m, d);
    }
    CancelledStays(w, m, d);
  }

  lemma {:induction false} CancelledStays(w: World, m: Move, d: JobId)
    requires d in w.status && (d in w.cancelled ==> w.status[d] == Failed)
    ensures w.cancelled <= MoveOf(w, m).cancelled
    ensures d in MoveOf(w, m).cancelled ==> MoveOf(w, m).status[d] == Failed
  {
  }

  lemma {:induction false} CauseHolds(w: World, ms: seq<Move>, d: JobId)
    requires Start(w) && StartsPending(w) && d in w.status
    ensures CauseLaw(Moves(w, ms), d)
    decreases |ms|
  {
    hide CauseLaw, MoveOf;
    if ms == [] {
      assert CauseLaw(w, d) by { StartsWithCause(w, d); }
    } else {
      var n := |ms| - 1;
      CauseHolds(w, ms[..n], d);
      WorkflowHolds(w, ms[..n]);
      CauseStep(Moves(w, ms[..n]), ms[n], d);
    }
  }

  lemma {:induction false} StartsWithCause(w: World, d: JobId)
    requires Start(w) && StartsPending(w) && d in w.status
    ensures CauseLaw(w, d)
  {
  }

  /** No job that a cancel has doomed is ever completed. */
  lemma {:induction false} DoomedNeverCompletes(w: World, ms: seq<Move>, rank: map<JobId, nat>, j: JobId)
    requires Start(w) && StartsPending(w) && Acyclic(w.deps, rank) && j in w.status
    requires Doomed(Moves(w, ms), rank, j)
    ensures Moves(w, ms).status[j] != Completed
    decreases if j in rank then rank[j] else 0
  {
    hide Moves;
    var now := Moves(w, ms);
    CauseHolds(w, ms, j);
    if j !in now.cancelled {
      var e :| e in now.deps && e.0 == j && Doomed(now, rank, e.1);
      DoomedNeverCompletes(w, ms, rank, e.1);
      assert Dependent(now.deps, j);
    }
  }

  // ---------------------------------------------------------------- coming to rest

  function Incomplete(w: World): set<JobId> {
    set j | j in w.status && w.status[j] != Completed
  }

  lemma {:induction false} MovesConcat(w: World, a: seq<Move>, b: seq<Move>)
    ensures Moves(w, a + b) == Moves(Moves(w, a), b)
    decreases |b|
  {
    hide MoveOf;
    if b == [] {
      assert a + b == a;
    } else {
      var n := |b| - 1;
      MovesConcat(w, a, b[..n]);
      assert (a + b)[..|a| + n] == a + b[..n];
    }
  }

  lemma {:induction false} OneMove(w: World, m: Move)
    ensures Moves(w, [m]) == MoveOf(w, m)
  {
    assert [m][..0] == [];
  }

  /** What a call leaves alone. */
  predicate SameProgress(before: World, after: World) {
    after.deps == before.deps && after.cancelled == before.cancelled && Incomplete(after) == Incomplete(before)
  }

  lemma {:induction false} CallMove(w: World, m: Move)
    requires m.Count? || m.Release? || m.Finish? || m.Begin?
    ensures SameProgress(w, MoveOf(w, m))
  {
  }

  /** The call c runs to its end. */
  lemma {:induction false} DrainCall(w: World, c: CallId) returns (ms: seq<Move>)
    requires c in w.calls
    ensures var w' := Moves(w, ms);
      SameProgress(w, w') && w'.uncalled == w.uncalled && w'.calls == w.calls - {c}
    decreases |w.calls[c].todo|, if w.calls[c].releasing then 0 else 1
  {
    hide Incomplete;
    var call := w.calls[c];
    var m := if call.todo == [] then Finish(c) else if call.releasing then Release(c) else Count(c);
    CallMove(w, m);
    OneMove(w, m);
    var next := MoveOf(w, m);
    ms := [m];
    if call.todo != [] {
      assert next.calls == w.calls[c := next.calls[c]];
      var rest := DrainCall(next, c);
      MovesConcat(w, [m], rest);
      ms := [m] + rest;
    }
  }

  lemma {:induction false} DrainCalls(w: World) returns (ms: seq<Move>)
    ensures var w' := Moves(w, ms); SameProgress(w, w') && w'.uncalled == w.uncalled && w'.calls == map[]
    decreases |w.calls|
  {
    hide MoveOf, Incomplete;
    ms := [];
    if w.calls != map[] {
      var c :| c in w.calls;
      var first := DrainCall(w, c);
      assert (w.calls - {c}).Keys == w.calls.Keys - {c};
      var rest := DrainCalls(Moves(w, first));
      MovesConcat(w, first, rest);
      ms := first + rest;
    }
  }

  lemma {:induction false} ListOf(s: set<JobId>) returns (list: seq<JobId>)
    ensures forall j :: j in list <==> j in s
    decreases s
  {
    list := [];
    if s != {} {
      var j :| j in s;
      var rest := ListOf(s - {j});
      list := [j] + rest;
    }
  }

  /** Every call that is due is made and runs to its end. */
  lemma {:induction false} DrainAll(w: World) returns (ms: seq<Move>)
    ensures var w' := Moves(w, ms); SameProgress(w, w') && w'.uncalled == {} && w'.calls == map[]
    decreases |w.uncalled|
  {
    hide Incomplete;
    ms := DrainCalls(w);
    var idle := Moves(w, ms);
    if j :| j in w.uncalled {
      var list := ListOf(set e | e in w.deps && e.1 == j :: e.0);
      var m := Begin(0, j, list);
      assert CanMove(idle, m) by { CanBegin(idle, j, list); }
      CallMove(idle, m);
      OneMove(idle, m);
      var rest := DrainAll(MoveOf(idle, m));
      MovesConcat(w, ms, [m]);
      MovesConcat(w, ms + [m], rest);
      ms := ms + [m] + rest;
    }
  }

  lemma {:induction false} CanBegin(w: World, j: JobId, list: seq<JobId>)
    requires w.calls == map[] && j in w.uncalled
    requires forall d :: d in list <==> d in set e | e in w.deps && e.1 == j :: e.0
    ensures CanMove(w, Begin(0, j, list))
  {
    forall d | d in list ensures (d, j) in w.deps {
      var e :| e in w.deps && e.1 == j && e.0 == d;
      assert e == (d, j);
    }
  }

  /** Every world comes to rest if the released jobs get completed, without any further cancel. */
  lemma {:induction false} ComeToRest(w: World) returns (ms: seq<Move>)
    ensures AtRest(Moves(w, ms)) && Moves(w, ms).cancelled == w.cancelled
    decreases |Incomplete(w)|
  {
    ms := DrainAll(w);
    var idle := Moves(w, ms);
    if j :| j in idle.status && Released(idle, j) {
      OneMove(idle, Complete(j));
      assert Incomplete(MoveOf(idle, Complete(j))) == Incomplete(idle) - {j};
      var rest := ComeToRest(MoveOf(idle, Complete(j)));
      MovesConcat(w, ms, [Complete(j)]);
      MovesConcat(w, ms + [Complete(j)], rest);
      ms := ms + [Complete(j)] + rest;
    }
  }

  /** Whatever has happened, a workflow can still finish: some continuation without a further cancel
      completes exactly the jobs that neither are cancelled nor depend on a cancelled one. */
  lemma {:induction false} WorkflowCanFinish(w: World, ms: seq<Move>, rank: map<JobId, nat>) returns (more: seq<Move>)
    requires Start(w) && StartsPending(w) && Acyclic(w.deps, rank)
    ensures var end := Moves(w, ms + more);
      && end.cancelled == Moves(w, ms).cancelled
      && forall j | j in w.status :: end.status[j] == Completed <==> !Doomed(end, rank, j)
  {
    hide Doomed, MoveOf, Moves;
    more := ComeToRest(Moves(w, ms));
    MovesConcat(w, ms, more);
    var end := Moves(w, ms + more);
    forall i | i in w.status ensures CauseLaw(end, i) {
      CauseHolds(w, ms + more, i);
    }
    forall j | j in w.status ensures end.status[j] == Completed <==> !Doomed(end, rank, j) {
      WorkflowReachesAll(w, ms + more, rank, j);
      if Doomed(end, rank, j) {
        DoomedNeverCompletes(w, ms + more, rank, j);
      }
    }
  }
}
