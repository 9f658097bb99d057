/** The outbox relay: a tick fetches the 50 oldest unpublished events, publishes each and marks
    it. Rows are numbered in created_at order. */
module OutboxRelay {

  const BATCH: nat := 50

  /** What happens to one event in one tick: a publish that fails skips the mark. */
  datatype Try = PublishFails | MarkFails | Delivered

  type Luck = nat -> Try

  datatype RelayState = RelayState(published: seq<bool>, log: seq<nat>)

  /** How many of the first n rows are unpublished. */
  function Backlog(p: seq<bool>, n: nat): nat
    requires n <= |p|
  {
    if n == 0 then 0 else Backlog(p, n - 1) + (if p[n - 1] then 0 else 1)
  }

  /** Row i is among the 50 oldest unpublished ones. */
  predicate Fetched(p: seq<bool>, i: nat)
    requires i < |p|
  {
    !p[i] && Backlog(p, i) < BATCH
  }

  /** The rows below n that a tick publishes, oldest first. */
  function Sent(p: seq<bool>, luck: Luck, n: nat): seq<nat>
    requires n <= |p|
  {
    if n == 0 then []
    else Sent(p, luck, n - 1) + (if Fetched(p, n - 1) && !luck(n - 1).PublishFails? then [n - 1] else [])
  }

  /** The rows after the tick has dealt with those below n. */
  function Marked(p: seq<bool>, luck: Luck, n: nat): (r: seq<bool>)
    ensures |r| == |p|
    ensures forall i | 0 <= i < |p| :: r[i] == (p[i] || (i < n && Fetched(p, i) && luck(i).Delivered?))
  {
    seq(|p|, i requires 0 <= i < |p| => p[i] || (i < n && Fetched(p, i) && luck(i).Delivered?))
  }

  function TickOf(s: RelayState, luck: Luck): RelayState {
    RelayState(Marked(s.published, luck, |s.published|), s.log + Sent(s.published, luck, |s.published|))
  }

  class Relay {
    var published: seq<bool>
    var log: seq<nat>

    /** SELECT ... WHERE published = false ORDER BY created_at LIMIT 50. */
    method Fetch() returns (events: seq<nat>)
      ensures FetchOf(published, events)
      ensures |events| <= 50
      ensures forall e | e in events :: e < |published| && !published[e]
      ensures forall j, k | 0 <= j < k < |events| :: events[j] < events[k]
      ensures forall i | 0 <= i < |published| && !published[i] && i !in events ::
        |events| == 50 && forall e | e in events :: e < i
    {
      events := [];
      var i := 0;
      while i < |published| && |events| < BATCH
        invariant i <= |published| && |events| == Backlog(published, i) <= BATCH
        invariant forall j | 0 <= j < i :: j in events <==> !published[j]
        invariant forall k | 0 <= k < |events| :: events[k] < i
        invariant forall j, k | 0 <= j < k < |events| :: events[j] < events[k]
        invariant forall j | 0 <= j < i :: Backlog(published, j) < BATCH
      {
        if !published[i] {
          events := events + [i];
        }
        i := i + 1;
        if |events| < BATCH {
          BacklogGrows(published, i, i);
        }
      }
      forall j | i <= j < |published| ensures |events| == BATCH ==> Backlog(published, j) >= BATCH {
        BacklogGrows(published, i, j);
      }
    }

    /** One tick whose fetch succeeds. */
    method RunTick(luck: Luck)
      modifies this
      ensures RelayState(published, log) == TickOf(old(RelayState(published, log)), luck)
    {
      var events := Fetch();
      ghost var p := published;
      var k := 0;
      ghost var n := 0;
      TickStarts(p, luck);
      hide Sent, Marked, FetchOf, Fetched, Backlog;
      while k < |events|
        invariant 0 <= k <= |events| && n <= |p| && FetchOf(p, events)
        invariant n == if k == 0 then 0 else events[k - 1] + 1
        invariant log == old(log) + Sent(p, luck, n) && published == Marked(p, luck, n)
      {
        var id := events[k];
        TickAdvances(p, luck, n, events, k);
        n := id + 1;
        k := k + 1;
        if luck(id).PublishFails? {
          continue;
        }
        log := log + [id];
        if luck(id).Delivered? {
          published := published[id := true];
        }
      }
      TickEnds(p, luck, n, events);
    }
  }

  lemma {:induction false} BacklogGrows(p: seq<bool>, i: nat, j: nat)
    requires i <= j <= |p|
    ensures Backlog(p, i) <= Backlog(p, j)
    decreases j
  {
    if i < j {
      BacklogGrows(p, i, j - 1);
    }
  }

  lemma {:induction false} NothingSent(p: seq<bool>, luck: Luck, m: nat, n: nat)
    requires m <= n <= |p| && forall i | m <= i < n :: !Fetched(p, i)
    ensures Sent(p, luck, n) == Sent(p, luck, m)
    decreases n
  {
    if m < n {
      NothingSent(p, luck, m, n - 1);
    }
  }

  predicate FetchOf(p: seq<bool>, events: seq<nat>) {
    && (forall i | 0 <= i < |p| :: i in events <==> Fetched(p, i))
    && (forall k | 0 <= k < |events| :: events[k] < |p|)
    && (forall j, k | 0 <= j < k < |events| :: events[j] < events[k])
  }

  lemma {:induction false} TickStarts(p: seq<bool>, luck: Luck)
    ensures Sent(p, luck, 0) == [] && Marked(p, luck, 0) == p
  {
  }

  /** Between two fetched rows nothing is published or marked. */
  lemma {:induction false} TickAdvances(p: seq<bool>, luck: Luck, n: nat, events: seq<nat>, k: nat)
    requires FetchOf(p, events) && k < |events| && n == if k == 0 then 0 else events[k - 1] + 1
    ensures var id := events[k];
      && n <= id < |p|
      && Sent(p, luck, id + 1) == Sent(p, luck, n) + (if luck(id).PublishFails? then [] else [id])
      && Marked(p, luck, id + 1) == if luck(id).Delivered? then Marked(p, luck, n)[id := true] else Marked(p, luck, n)
  {
    var id := events[k];
    assert id in events;
    forall i | n <= i < id ensures !Fetched(p, i) {
      if i in events {
        assert false;
      }
    }
    NothingSent(p, luck, n, id);
  }

  lemma {:induction false} TickEnds(p: seq<bool>, luck: Luck, n: nat, events: seq<nat>)
    requires FetchOf(p, events) && n == (if events == [] then 0 else events[|events| - 1] + 1)
    ensures n <= |p| && Sent(p, luck, |p|) == Sent(p, luck, n) && Marked(p, luck, |p|) == Marked(p, luck, n)
  {
    forall i | n <= i < |p| ensures !Fetched(p, i) {
      if i in events {
        assert false;
      }
    }
    NothingSent(p, luck, n, |p|);
  }

  // ---------------------------------------------------------------- counting

  datatype RelayStep = Arrive | FetchFails | Tick(luck: Luck)

  function Step(s: RelayState, a: RelayStep): RelayState {
    match a
    case Arrive => s.(published := s.published + [false])
    case FetchFails => s
    case Tick(luck) => TickOf(s, luck)
  }

  function Run(steps: seq<RelayStep>): RelayState {
    if steps == [] then RelayState([], []) else Step(Run(steps[..|steps| - 1]), steps[|steps| - 1])
  }

  /** How often event e was published and the mark then failed or was lost. */
  function FailedMarks(steps: seq<RelayStep>, e: nat): nat {
    if steps == [] then 0
    else
      var p, a := Run(steps[..|steps| - 1]).published, steps[|steps| - 1];
      FailedMarks(steps[..|steps| - 1], e)
      + (if a.Tick? && e < |p| && Fetched(p, e) && a.luck(e).MarkFails? then 1 else 0)
  }

  lemma {:induction false} SentOnce(p: seq<bool>, luck: Luck, n: nat, e: nat)
    requires n <= |p|
    ensures multiset(Sent(p, luck, n))[e] == if e < n && Fetched(p, e) && !luck(e).PublishFails? then 1 else 0
    decreases n
  {
    hide Fetched, Backlog;
    if n > 0 {
      SentOnce(p, luck, n - 1, e);
    }
  }

  /** Publishing is at least once: an event was published exactly as often as its mark failed,
      and once more if it is marked. Nothing is marked unpublished, nothing marked is repeated. */
  lemma {:induction false} PublishCount(steps: seq<RelayStep>, e: nat)
    ensures var s := Run(steps);
      multiset(s.log)[e] == FailedMarks(steps, e) + (if e < |s.published| && s.published[e] then 1 else 0)
    decreases |steps|
  {
    if steps != [] {
      var n := |steps| - 1;
      var before := Run(steps[..n]);
      PublishCount(steps[..n], e);
      if steps[n].Tick? {
        SentOnce(before.published, steps[n].luck, |before.published|, e);
        assert multiset(before.log + Sent(before.published, steps[n].luck, |before.published|))
            == multiset(before.log) + multiset(Sent(before.published, steps[n].luck, |before.published|));
      }
    }
  }

  // ---------------------------------------------------------------- draining

  /** The events of `fails` never publish, the others always succeed. */
  function Failing(fails: set<nat>): Luck {
    (i: nat) => if i in fails then PublishFails else Delivered
  }

  /** Unpublished events below n that will publish. */
  function GoodBacklog(p: seq<bool>, fails: set<nat>, n: nat): nat
    requires n <= |p|
  {
    if n == 0 then 0 else GoodBacklog(p, fails, n - 1) + (if p[n - 1] || n - 1 in fails then 0 else 1)
  }

  /** Unpublished events below n that never publish. */
  function BadBacklog(p: seq<bool>, fails: set<nat>, n: nat): nat
    requires n <= |p|
  {
    if n == 0 then 0 else BadBacklog(p, fails, n - 1) + (if p[n - 1] || n - 1 !in fails then 0 else 1)
  }

  function GoodFetched(p: seq<bool>, fails: set<nat>, n: nat): nat
    requires n <= |p|
  {
    if n == 0 then 0 else GoodFetched(p, fails, n - 1) + (if Fetched(p, n - 1) && n - 1 !in fails then 1 else 0)
  }

  /** The published column after k ticks without arrivals. */
  function Ticks(p: seq<bool>, fails: set<nat>, k: nat): (r: seq<bool>)
    ensures |r| == |p|
    decreases k
  {
    if k == 0 then p else Ticks(Marked(p, Failing(fails), |p|), fails, k - 1)
  }

  /** q is p after one tick. */
  predicate TickedTo(p: seq<bool>, fails: set<nat>, q: seq<bool>) {
    |q| == |p| && forall i | 0 <= i < |p| :: q[i] == (p[i] || (Fetched(p, i) && i !in fails))
  }

  lemma {:induction false} OneTick(p: seq<bool>, fails: set<nat>)
    ensures TickedTo(p, fails, Marked(p, Failing(fails), |p|))
  {
  }

  lemma {:induction false} TickCounts(p: seq<bool>, fails: set<nat>, q: seq<bool>, n: nat)
    requires TickedTo(p, fails, q) && n <= |p|
    ensures BadBacklog(q, fails, n) == BadBacklog(p, fails, n)
    ensures GoodBacklog(q, fails, n) + GoodFetched(p, fails, n) == GoodBacklog(p, fails, n)
    decreases n
  {
    if n > 0 {
      TickCounts(p, fails, q, n - 1);
    }
  }

  /** The places of a batch that bad events leave are taken by good ones. */
  lemma {:induction false} BatchFills(p: seq<bool>, fails: set<nat>, n: nat)
    requires n <= |p|
    ensures Backlog(p, n) == GoodBacklog(p, fails, n) + BadBacklog(p, fails, n)
    ensures GoodFetched(p, fails, n) + BadBacklog(p, fails, n)
         >= (if Backlog(p, n) < BATCH then Backlog(p, n) else BATCH)
    decreases n
  {
    if n > 0 {
      BatchFills(p, fails, n - 1);
    }
  }

  /** One tick either publishes e or takes at least 50 - b of the good events before it. */
  lemma {:induction false} TickProgress(p: seq<bool>, fails: set<nat>, q: seq<bool>, e: nat)
    requires TickedTo(p, fails, q) && e < |p| && !p[e] && e !in fails
    ensures BadBacklog(q, fails, e) == BadBacklog(p, fails, e)
    ensures q[e] || GoodBacklog(q, fails, e + 1) + BATCH - BadBacklog(p, fails, e) <= GoodBacklog(p, fails, e + 1)
    ensures BadBacklog(p, fails, e) >= BATCH ==> !q[e]
  {
    TickCounts(p, fails, q, e);
    TickCounts(p, fails, q, e + 1);
    BatchFills(p, fails, e);
  }

  /** An event is published after k ticks once k times the free places of a batch cover the
      events that go first: with b < 50 always-failing events before it, every tick takes at
      least 50 - b others. */
  lemma {:induction false} DrainBound(p: seq<bool>, fails: set<nat>, e: nat, k: nat)
    requires e < |p| && e !in fails && BadBacklog(p, fails, e) < 50
    requires k * (50 - BadBacklog(p, fails, e)) >= GoodBacklog(p, fails, e + 1)
    ensures Ticks(p, fails, k)[e]
    decreases k
  {
    hide BadBacklog, Marked;
    if p[e] {
      StaysPublished(p, fails, e, k);
    } else if k > 0 {
      var q := Marked(p, Failing(fails), |p|);
      var room := BATCH - BadBacklog(p, fails, e);
      OneTick(p, fails);
      TickProgress(p, fails, q, e);
      if q[e] {
        StaysPublished(q, fails, e, k - 1);
      } else {
        assert (k - 1) * room == k * room - room;
        DrainBound(q, fails, e, k - 1);
      }
    }
  }

  lemma {:induction false} StaysPublished(p: seq<bool>, fails: set<nat>, e: nat, k: nat)
    requires e < |p| && p[e]
    ensures Ticks(p, fails, k)[e]
    decreases k
  {
    if k > 0 {
      StaysPublished(Marked(p, Failing(fails), |p|), fails, e, k - 1);
    }
  }

  lemma {:induction false} Starved(p: seq<bool>, fails: set<nat>, e: nat, k: nat)
    requires e < |p| && !p[e] && e !in fails && BadBacklog(p, fails, e) >= BATCH
    ensures !Ticks(p, fails, k)[e]
    decreases k
  {
    hide BadBacklog, Marked;
    if k > 0 {
      OneTick(p, fails);
      var q := Marked(p, Failing(fails), |p|);
      TickProgress(p, fails, q, e);
      Starved(q, fails, e, k - 1);
    }
  }

  lemma AtLeastOneEach(k: nat, room: int)
    requires room >= 1
    ensures k * room >= k
  {
  }

  /** An event that can be published eventually is, iff fewer than fifty events that never
      publish are queued before it: fifty of them fill every batch for ever. */
  lemma {:induction false} DrainsIffBatchNotBlocked(p: seq<bool>, fails: set<nat>, e: nat)
    requires e < |p| && !p[e] && e !in fails
    ensures (exists k: nat :: Ticks(p, fails, k)[e]) <==> BadBacklog(p, fails, e) < 50
  {
    hide Ticks, BadBacklog, GoodBacklog;
    if BadBacklog(p, fails, e) < BATCH {
      var k := GoodBacklog(p, fails, e + 1);
      AtLeastOneEach(k, BATCH - BadBacklog(p, fails, e));
      DrainBound(p, fails, e, k);
    } else {
      forall k: nat ensures !Ticks(p, fails, k)[e] {
        Starved(p, fails, e, k);
      }
    }
  }

  lemma {:induction false} BadBacklogBound(p: seq<bool>, fails: set<nat>, n: nat)
    requires n <= |p|
    ensures BadBacklog(p, fails, n) <= |fails|
  {
    var bad := BadSet(p, fails, n);
    assert fails == bad + (fails - bad);
  }

  lemma {:induction false} BadSet(p: seq<bool>, fails: set<nat>, n: nat) returns (bad: set<nat>)
    requires n <= |p|
    ensures bad <= fails && |bad| == BadBacklog(p, fails, n) && forall i | i in bad :: i < n
    decreases n
  {
    bad := {};
    if n > 0 {
      bad := BadSet(p, fails, n - 1);
      if !p[n - 1] && n - 1 in fails {
        bad := bad + {n - 1};
      }
    }
  }

  lemma {:induction false} GoodBacklogGrows(p: seq<bool>, fails: set<nat>, i: nat, j: nat)
    requires i <= j <= |p|
    ensures GoodBacklog(p, fails, i) <= GoodBacklog(p, fails, j)
    decreases j
  {
    if i < j {
      GoodBacklogGrows(p, fails, i, j - 1);
    }
  }

  lemma MoreRoom(k: nat, few: int, room: int)
    requires few <= room
    ensures k * few <= k * room
  {
  }

  /** With fewer than fifty always-failing events, all g others are out after ceil(g / (50 - |F|)) ticks. */
  lemma {:induction false} BacklogDrains(p: seq<bool>, fails: set<nat>, k: nat)
    requires |fails| < 50 && k * (50 - |fails|) >= GoodBacklog(p, fails, |p|)
    ensures forall e | 0 <= e < |p| && e !in fails :: Ticks(p, fails, k)[e]
  {
    hide Ticks, BadBacklog, GoodBacklog;
    forall e | 0 <= e < |p| && e !in fails ensures Ticks(p, fails, k)[e] {
      BadBacklogBound(p, fails, e);
      GoodBacklogGrows(p, fails, e + 1, |p|);
      var few, room := BATCH - |fails|, BATCH - BadBacklog(p, fails, e);
      MoreRoom(k, few, room);
      DrainBound(p, fails, e, k);
    }
  }

  // ---------------------------------------------------------------- order

  ghost predicate AllDelivered(luck: Luck) {
    forall i: nat :: luck(i) == Delivered
  }

  ghost predicate Flawless(a: RelayStep) {
    a.Tick? ==> AllDelivered(a.luck)
  }

  /** The log is the first m events in created_at order, and they are the published ones. */
  predicate InOrder(s: RelayState, m: nat) {
    && m <= |s.published| && s.log == seq(m, i => i)
    && forall i | 0 <= i < |s.published| :: s.published[i] <==> i < m
  }

  lemma {:induction false} BacklogAfter(p: seq<bool>, m: nat, n: nat)
    requires m <= |p| && n <= |p| && forall i | 0 <= i < |p| :: p[i] <==> i < m
    ensures Backlog(p, n) == if n <= m then 0 else n - m
    decreases n
  {
    if n > 0 {
      BacklogAfter(p, m, n - 1);
    }
  }

  lemma {:induction false} SentAfter(p: seq<bool>, luck: Luck, m: nat, n: nat)
    requires AllDelivered(luck) && m <= |p| && n <= |p| && forall i | 0 <= i < |p| :: p[i] <==> i < m
    ensures Sent(p, luck, n)
         == if n <= m then [] else seq(if n - m < BATCH then n - m else BATCH, i requires i >= 0 => m + i)
    decreases n
  {
    if n > 0 {
      SentAfter(p, luck, m, n - 1);
      BacklogAfter(p, m, n - 1);
    }
  }

  lemma {:induction false} TickKeepsOrder(s: RelayState, luck: Luck, m: nat) returns (k: nat)
    requires AllDelivered(luck) && InOrder(s, m)
    ensures InOrder(TickOf(s, luck), k)
  {
    var p := s.published;
    var sent := Sent(p, luck, |p|);
    k := m + |sent|;
    SentAfter(p, luck, m, |p|);
    hide Sent;
    assert sent == seq(|sent|, i requires i >= 0 => m + i);
    assert s.log + sent == seq(k, i => i);
    hide AllDelivered;
    forall i | 0 <= i < |p| ensures Marked(p, luck, |p|)[i] <==> i < k {
      FetchedAfter(p, luck, m, i);
    }
  }

  lemma {:induction false} FetchedAfter(p: seq<bool>, luck: Luck, m: nat, i: nat)
    requires AllDelivered(luck) && m <= |p| && i < |p| && forall j | 0 <= j < |p| :: p[j] <==> j < m
    ensures (p[i] || (Fetched(p, i) && luck(i).Delivered?)) <==> i < m + BATCH
  {
    BacklogAfter(p, m, i);
  }

  /** While every publish and mark succeeds, events go out in created_at order without gaps. */
  lemma {:induction false} RelayKeepsOrder(steps: seq<RelayStep>) returns (m: nat)
    requires forall k | 0 <= k < |steps| :: Flawless(steps[k])
    ensures InOrder(Run(steps), m)
    decreases |steps|
  {
    hide TickOf, AllDelivered;
    m := 0;
    if steps != [] {
      var n := |steps| - 1;
      m := RelayKeepsOrder(steps[..n]);
      if steps[n].Tick? {
        assert Flawless(steps[n]);
        m := TickKeepsOrder(Run(steps[..n]), steps[n].luck, m);
      }
    }
  }
}
