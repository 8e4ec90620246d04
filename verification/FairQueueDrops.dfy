/**
  A dropped request leaves no trace: after a rejection or an eviction the queue behaves, for every
  future, as if the dropped request had not been there; and every request is accounted for.
  */
module FairQueueDrops {
  import opened KeyedQueue
  import opened FairQueue
  import opened FairQueueInvariant

  /** A finish tag below virtual time is as good as any other. */
  ghost predicate SameFlow(s: State, t: State, f: FlowId) {
    f in s.flows && f in t.flows ==>
      && NextStart(s, f) == NextStart(t, f)
      && s.flows[f].average == t.flows[f].average
      && s.flows[f].active == t.flows[f].active
  }

  /** States that differ in statistics only. */
  ghost predicate Same(s: State, t: State) {
    && s.backlog == t.backlog && s.vtime == t.vtime && s.cap == t.cap && s.depth == t.depth
    && s.serving == t.serving && s.started == t.started && s.guards == t.guards
    && s.flows.Keys == t.flows.Keys
    && (forall f :: SameFlow(s, t, f))
  }

  lemma SameRetract(s: State, t: State)
    requires Inv(s) && Inv(t) && Same(s, t) && s.backlog != []
    ensures Same(Retract(s), Retract(t))
  {
    RetractInv(s);
    RetractInv(t);
    forall f ensures SameFlow(Retract(s), Retract(t), f) {
      assert SameFlow(s, t, f);
    }
  }

  lemma SameTagged(s: State, t: State, f: FlowId, cost: nat, now: nat)
    requires Same(s, t)
    ensures NextStart(s, f) == NextStart(t, f)
    ensures Same(Tagged(s, f, cost, now), Tagged(t, f, cost, now))
  {
    assert SameFlow(s, t, f);
    forall g ensures SameFlow(Tagged(s, f, cost, now), Tagged(t, f, cost, now), g) {
      assert SameFlow(s, t, g);
    }
  }

  lemma SamePlace(s: State, t: State, r: Request)
    requires Same(s, t) && s.vtime <= r.key
    ensures Place(s, r).1 == Place(t, r).1
    ensures Same(Place(s, r).0, Place(t, r).0)
  {
    forall g ensures SameFlow(Place(s, r).0, Place(t, r).0, g) {
      assert SameFlow(s, t, g);
    }
  }

  lemma SameDrop(s: State, t: State, g: FlowId)
    requires Same(s, t) && g in s.flows
    ensures Same(Drop(s, g), Drop(t, g))
  {
    forall f ensures SameFlow(Drop(s, g), Drop(t, g), f) {
      assert SameFlow(s, t, f);
    }
  }

  lemma SameReject(s: State, t: State, f: FlowId, cost: nat)
    requires Same(s, t) && f in s.flows && s.flows[f].finish == t.flows[f].finish
    ensures Same(Reject(s, f, cost), Reject(t, f, cost))
  {
    forall g ensures SameFlow(Reject(s, f, cost), Reject(t, f, cost), g) {
      assert SameFlow(s, t, g);
    }
  }

  lemma SameRoomyArrival(s: State, t: State, f: FlowId, cost: nat, now: nat)
    requires Same(s, t) && |s.backlog| < s.cap
    ensures Arrive(s, f, cost, now).1 == Arrive(t, f, cost, now).1
    ensures Same(Arrive(s, f, cost, now).0, Arrive(t, f, cost, now).0)
  {
    SameTagged(s, t, f, cost, now);
    SamePlace(Tagged(s, f, cost, now), Tagged(t, f, cost, now), Entry(NextStart(s, f), Job(f, cost)));
  }

  /** Tagging a newcomer and evicting, seen as taking back, tagging and counting the drop. */
  lemma SameEviction(s: State, t: State, f: FlowId, cost: nat, now: nat)
    requires Inv(s) && Inv(t) && Same(s, t) && s.backlog != [] && s.backlog[|s.backlog| - 1].value.flow != f
    ensures Same(Evict(Tagged(s, f, cost, now)), Evict(Tagged(t, f, cost, now)))
  {
    var g, p, q := s.backlog[|s.backlog| - 1].value.flow, Retract(s), Retract(t);
    assert g in s.flows && g in t.flows by {
      RetractInv(s);
      RetractInv(t);
    }
    SameRetract(s, t);
    SameTagged(p, q, f, cost, now);
    SameDrop(Tagged(p, f, cost, now), Tagged(q, f, cost, now), g);
    EvictTagged(s, f, cost, now);
    EvictTagged(t, f, cost, now);
  }

  lemma SameEvictingArrival(s: State, t: State, f: FlowId, cost: nat, now: nat)
    requires Inv(s) && Inv(t) && Same(s, t) && |s.backlog| >= s.cap
    requires NextStart(s, f) == NextStart(t, f) < s.backlog[|s.backlog| - 1].key
    ensures Arrive(s, f, cost, now).1 == Arrive(t, f, cost, now).1
    ensures Same(Arrive(s, f, cost, now).0, Arrive(t, f, cost, now).0)
  {
    NeverEvictsOwnFlow(s, f);
    SameEviction(s, t, f, cost, now);
    SamePlace(Evict(Tagged(s, f, cost, now)), Evict(Tagged(t, f, cost, now)), Entry(NextStart(s, f), Job(f, cost)));
  }

  lemma SameRejectedArrival(s: State, t: State, f: FlowId, cost: nat, now: nat)
    requires Same(s, t) && |s.backlog| >= s.cap && s.backlog != []
    requires NextStart(s, f) == NextStart(t, f) >= s.backlog[|s.backlog| - 1].key
    ensures Arrive(s, f, cost, now).1 == Arrive(t, f, cost, now).1
    ensures Same(Arrive(s, f, cost, now).0, Arrive(t, f, cost, now).0)
  {
    var a, b := Tagged(s, f, cost, now), Tagged(t, f, cost, now);
    SameTagged(s, t, f, cost, now);
    SameReject(a, b, f, cost);
    assert Arrive(s, f, cost, now) == (Reject(a, f, cost), Overloaded);
    assert Arrive(t, f, cost, now) == (Reject(b, f, cost), Overloaded);
  }

  lemma SameArrive(s: State, t: State, f: FlowId, cost: nat, now: nat)
    requires Inv(s) && Inv(t) && Same(s, t)
    ensures Arrive(s, f, cost, now).1 == Arrive(t, f, cost, now).1
    ensures Same(Arrive(s, f, cost, now).0, Arrive(t, f, cost, now).0)
  {
    assert NextStart(s, f) == NextStart(t, f) by {
      SameTagged(s, t, f, cost, now);
    }
    if |s.backlog| < s.cap {
      SameRoomyArrival(s, t, f, cost, now);
    } else if NextStart(s, f) < s.backlog[|s.backlog| - 1].key {
      SameEvictingArrival(s, t, f, cost, now);
    } else {
      SameRejectedArrival(s, t, f, cost, now);
    }
  }

  lemma SameCharged(s: State, t: State, f: FlowId, actual: nat)
    requires Same(s, t)
    ensures Same(Charged(s, f, actual), Charged(t, f, actual))
  {
    assert SameFlow(s, t, f);
    forall g ensures SameFlow(Charged(s, f, actual), Charged(t, f, actual), g) {
      assert SameFlow(s, t, g);
    }
  }

  lemma SamePickup(s: State, t: State)
    requires Same(s, t) && forall i :: 0 <= i < |s.backlog| ==> s.vtime <= s.backlog[i].key
    ensures Same(TryPickupNext(s), TryPickupNext(t))
  {
    forall g ensures SameFlow(TryPickupNext(s), TryPickupNext(t), g) {
      assert SameFlow(s, t, g);
    }
  }

  lemma SameRelease(s: State, t: State, f: FlowId, actual: nat)
    requires Inv(s) && Same(s, t)
    ensures Same(Release(s, f, actual), Release(t, f, actual))
  {
    SameCharged(s, t, f, actual);
    var u, v := Charged(s, f, actual), Charged(t, f, actual);
    forall g ensures SameFlow(Vacated(u, f), Vacated(v, f), g) {
      assert SameFlow(u, v, g);
    }
    SamePickup(Vacated(u, f), Vacated(v, f));
  }

  lemma SamePurge(s: State, t: State, now: nat, age: nat)
    requires Same(s, t)
    ensures Same(Purge(s, now, age), Purge(t, now, age))
    ensures PurgeSpares(s, now, age) ==> PurgeSpares(t, now, age)
  {
    forall f ensures f in s.flows ==> f in t.flows && (Young(s.flows[f], now, age) <==> Young(t.flows[f], now, age)) {
      assert SameFlow(s, t, f);
    }
    forall g ensures SameFlow(Purge(s, now, age), Purge(t, now, age), g) {
      assert SameFlow(s, t, g);
    }
  }

  lemma SameStep(s: State, t: State, e: Event)
    requires Inv(s) && Inv(t) && Same(s, t) && Enabled(s, e)
    ensures Enabled(t, e) && Same(Step(s, e), Step(t, e))
  {
    match e
    case Acquired(f, weight, now) =>
      assert SameFlow(s, t, f);
      SameArrive(s, t, f, Charge(s, f, weight), now);
    case Released(f, actual) => SameRelease(s, t, f, actual);
    case Purged(now, age) => SamePurge(s, t, now, age);
  }

  /** States that differ in statistics only have the same futures: the same requests are served, in
      the same order and with the same tags. */
  lemma {:induction false} SameFuture(s: State, t: State, events: seq<Event>)
    requires Inv(s) && Inv(t) && Same(s, t) && Feasible(s, events)
    ensures Feasible(t, events)
    ensures Same(Exec(s, events), Exec(t, events))
    ensures Exec(s, events).started == Exec(t, events).started
    decreases |events|
  {
    if events != [] {
      SameStep(s, t, events[0]);
      StepInv(s, events[0]);
      StepInv(t, events[0]);
      SameFuture(Step(s, events[0]), Step(t, events[0]), events[1..]);
    }
  }

  /** The state with the flow's record created and nothing else changed. */
  function Opened(s: State, f: FlowId, now: nat): State {
    s.(flows := s.flows[f := FlowOf(s, f, now)])
  }

  lemma OpenedInv(s: State, f: FlowId, now: nat)
    requires Inv(s)
    ensures Inv(Opened(s, f, now))
  {
    forall h ensures FlowTiles(Opened(s, f, now), h) {
      assert FlowTiles(s, h);
    }
  }

  /** A rejected arrival changes nothing: all futures are those of the queue it found. */
  lemma RejectionLeavesNoTrace(s: State, f: FlowId, weight: nat, now: nat, events: seq<Event>)
    requires Inv(s) && Acquire(s, f, weight, now).1 == Overloaded
    requires Feasible(Opened(s, f, now), events)
    ensures forall r :: r in s.backlog ==> r.key <= NextStart(s, f)
    ensures Feasible(Acquire(s, f, weight, now).0, events)
    ensures Same(Exec(Opened(s, f, now), events), Exec(Acquire(s, f, weight, now).0, events))
  {
    var u := Acquire(s, f, weight, now).0;
    ArriveInv(s, f, Charge(s, f, weight), now);
    OpenedInv(s, f, now);
    forall g ensures SameFlow(Opened(s, f, now), u, g) {
    }
    SameFuture(Opened(s, f, now), u, events);
  }

  lemma EvictionSame(s: State, f: FlowId, cost: nat, now: nat)
    requires Inv(s) && |s.backlog| >= s.cap && NextStart(s, f) < s.backlog[|s.backlog| - 1].key
    ensures Same(Arrive(Retract(s), f, cost, now).0, Arrive(s, f, cost, now).0)
    ensures NextStart(Arrive(s, f, cost, now).0, s.backlog[|s.backlog| - 1].value.flow)
         == s.backlog[|s.backlog| - 1].key
  {
    EvictingArrival(s, f, cost, now);
    NeverEvictsOwnFlow(s, f);
    RetractInv(s);
    var g := s.backlog[|s.backlog| - 1].value.flow;
    var v := Arrive(Retract(s), f, cost, now).0;
    assert v.vtime == s.vtime;
    assert FinishOf(v, g) == FinishOf(Retract(s), g);
    forall h ensures SameFlow(v, Drop(v, g), h) {
    }
  }

  /** An eviction removes the largest start tag, one above the newcomer's and of another flow; all
      futures are those of a queue that did not hold it, and its flow goes on at the tag it had. */
  lemma EvictionLeavesNoTrace(s: State, f: FlowId, weight: nat, now: nat, events: seq<Event>)
    requires Inv(s) && |s.backlog| >= s.cap && NextStart(s, f) < s.backlog[|s.backlog| - 1].key
    requires Feasible(Acquire(Retract(s), f, weight, now).0, events)
    ensures var last := s.backlog[|s.backlog| - 1];
      && last.value.flow != f
      && (forall r :: r in s.backlog ==> r.key <= last.key)
      && NextStart(Acquire(s, f, weight, now).0, last.value.flow) == last.key
    ensures Feasible(Acquire(s, f, weight, now).0, events)
    ensures Same(Exec(Acquire(Retract(s), f, weight, now).0, events),
                 Exec(Acquire(s, f, weight, now).0, events))
  {
    var cost, p := Charge(s, f, weight), Retract(s);
    NeverEvictsOwnFlow(s, f);
    var u, v := Arrive(p, f, cost, now).0, Arrive(s, f, cost, now).0;
    assert Acquire(p, f, weight, now).0 == u by {
      EvictingArrival(s, f, cost, now);
    }
    EvictionSame(s, f, cost, now);
    assert Inv(u) && Inv(v) by {
      RetractInv(s);
      ArriveInv(s, f, cost, now);
      ArriveInv(p, f, cost, now);
    }
    SameFuture(u, v, events);
  }

  lemma RankOfLargest(q: seq<Request>, key: nat)
    requires forall r :: r in q ==> r.key <= key
    ensures Rank(q, key) == |q|
  {
    if Rank(q, key) < |q| {
      assert q[Rank(q, key)] in q;
    }
  }

  /** Taking back the request that has just been queued last restores the queue it found. */
  lemma RetractUndoesArrival(s: State, f: FlowId, weight: nat, now: nat)
    requires Inv(s) && |s.backlog| < s.cap && s.serving == s.depth
    requires forall r :: r in s.backlog ==> r.key <= NextStart(s, f)
    ensures Acquire(s, f, weight, now).0.backlog != []
    ensures Same(Opened(s, f, now), Retract(Acquire(s, f, weight, now).0))
  {
    var r := Entry(NextStart(s, f), Job(f, Charge(s, f, weight)));
    var u := Acquire(s, f, weight, now).0;
    RankOfLargest(s.backlog, r.key);
    assert u.backlog == s.backlog + [r];
    assert u.backlog[..|u.backlog| - 1] == s.backlog;
    forall g ensures SameFlow(Opened(s, f, now), Retract(u), g) {
    }
  }

  // ---- accounting

  function Requests(q: seq<Request>, f: FlowId): nat {
    |Of(q, f)|
  }

  /** Arrivals of a flow that are neither dropped, waiting nor served. */
  function Missing(s: State, f: FlowId): int {
    CountersOf(s, f).total - CountersOf(s, f).dropped - Requests(s.backlog, f) - Requests(s.started, f)
  }

  function MissingGlobally(s: State): int {
    s.counters.total - s.counters.dropped - |s.backlog| - |s.started|
  }

  lemma PlaceAccounts(s: State, f: FlowId, cost: nat, now: nat, g: FlowId)
    requires Inv(s) && |s.backlog| < s.cap
    ensures Missing(Arrive(s, f, cost, now).0, g) == Missing(s, g)
    ensures MissingGlobally(Arrive(s, f, cost, now).0) == MissingGlobally(s)
  {
    var r := Entry(NextStart(s, f), Job(f, cost));
    OfAppend(s.started, r, g);
    OfInsert(s.backlog, r, g);
    if g == f {
      InsertAppendsToFlow(s, f, cost);
    }
  }

  /** Taking the last request back leaves its arrival unaccounted for. */
  lemma RetractAccounts(s: State, g: FlowId)
    requires s.backlog != []
    ensures var last := s.backlog[|s.backlog| - 1].value.flow;
      Missing(Retract(s), g) == Missing(s, g) + if g == last then 1 else 0
    ensures MissingGlobally(Retract(s)) == MissingGlobally(s) + 1
  {
    OfSplitLast(s.backlog, g);
  }

  lemma DropAccounts(s: State, f: FlowId, g: FlowId)
    requires f in s.flows
    ensures Missing(Drop(s, f), g) == Missing(s, g) - if g == f then 1 else 0
    ensures MissingGlobally(Drop(s, f)) == MissingGlobally(s) - 1
  {
  }

  lemma EvictingArrivalAccounts(s: State, f: FlowId, cost: nat, now: nat, g: FlowId)
    requires Inv(s) && |s.backlog| >= s.cap
    requires NextStart(s, f) < s.backlog[|s.backlog| - 1].key
    ensures Missing(Arrive(s, f, cost, now).0, g) == Missing(s, g)
    ensures MissingGlobally(Arrive(s, f, cost, now).0) == MissingGlobally(s)
  {
    var p, last := Retract(s), s.backlog[|s.backlog| - 1].value.flow;
    RetractInv(s);
    RetractAccounts(s, g);
    PlaceAccounts(p, f, cost, now, g);
    EvictingArrival(s, f, cost, now);
    DropAccounts(Arrive(p, f, cost, now).0, last, g);
  }

  lemma RejectAccounts(s: State, f: FlowId, cost: nat, now: nat, g: FlowId)
    ensures Missing(Reject(Tagged(s, f, cost, now), f, cost), g) == Missing(s, g)
    ensures MissingGlobally(Reject(Tagged(s, f, cost, now), f, cost)) == MissingGlobally(s)
  {
  }

  lemma ArriveAccounts(s: State, f: FlowId, cost: nat, now: nat, g: FlowId)
    requires Inv(s)
    ensures Missing(Arrive(s, f, cost, now).0, g) == Missing(s, g)
    ensures MissingGlobally(Arrive(s, f, cost, now).0) == MissingGlobally(s)
  {
    if |s.backlog| < s.cap {
      PlaceAccounts(s, f, cost, now, g);
    } else if NextStart(s, f) < s.backlog[|s.backlog| - 1].key {
      EvictingArrivalAccounts(s, f, cost, now, g);
    } else {
      RejectAccounts(s, f, cost, now, g);
    }
  }

  lemma ReleaseAccounts(s: State, f: FlowId, actual: nat, g: FlowId)
    ensures Missing(Release(s, f, actual), g) == Missing(s, g)
    ensures MissingGlobally(Release(s, f, actual)) == MissingGlobally(s)
  {
    var u := Vacated(Charged(s, f, actual), f);
    assert Missing(u, g) == Missing(s, g);
    if u.backlog != [] {
      OfAppend(u.started, u.backlog[0], g);
    }
  }

  lemma StepAccounts(s: State, e: Event, g: FlowId)
    requires Inv(s) && Enabled(s, e)
    ensures KeepsRecord(s, e, g) ==> Missing(Step(s, e), g) == Missing(s, g)
    ensures MissingGlobally(Step(s, e)) == MissingGlobally(s)
  {
    match e
    case Acquired(f, weight, now) => ArriveAccounts(s, f, Charge(s, f, weight), now, g);
    case Released(f, actual) => ReleaseAccounts(s, f, actual, g);
    case Purged(now, age) =>
  }

  lemma {:induction false} RunAccounts(s: State, events: seq<Event>, f: FlowId)
    requires Inv(s) && Feasible(s, events)
    ensures NeverForgotten(s, events, f) ==> Missing(Exec(s, events), f) == Missing(s, f)
    ensures MissingGlobally(Exec(s, events)) == MissingGlobally(s)
    decreases |events|
  {
    if events != [] {
      StepInv(s, events[0]);
      StepAccounts(s, events[0], f);
      RunAccounts(Step(s, events[0]), events[1..], f);
    }
  }

  /** In every run, every arrival is dropped, waiting or served: globally, and for each flow whose
      record has not been purged. */
  lemma EveryRequestAccountedFor(cap: nat, depth: nat, events: seq<Event>, f: FlowId)
    requires 1 <= cap && Feasible(New(cap, depth), events)
    ensures var s := Exec(New(cap, depth), events);
      && s.counters.total == s.counters.dropped + |s.backlog| + |s.started|
      && (NeverForgotten(New(cap, depth), events, f) ==>
            CountersOf(s, f).total
              == CountersOf(s, f).dropped + Requests(s.backlog, f) + Requests(s.started, f))
  {
    NewInv(cap, depth);
    RunAccounts(New(cap, depth), events, f);
  }

  // ---- the time served

  /** The time of the releases. */
  function ReleasedTime(events: seq<Event>): nat {
    if events == [] then 0 else (if events[0].Released? then events[0].actual else 0) + ReleasedTime(events[1..])
  }

  /** The time of the releases of one flow. */
  function ReleasedBy(events: seq<Event>, f: FlowId): nat {
    if events == [] then 0
    else (if events[0].Released? && events[0].flow == f then events[0].actual else 0) + ReleasedBy(events[1..], f)
  }

  ghost predicate SameTimes(s: State, u: State, g: FlowId) {
    && u.counters.time == s.counters.time && CountersOf(u, g).time == CountersOf(s, g).time
    && (g in s.flows ==> g in u.flows)
  }

  lemma EvictTimes(s: State, g: FlowId)
    requires s.backlog != []
    ensures SameTimes(s, Evict(s), g)
  {
  }

  lemma ArriveTimes(s: State, f: FlowId, cost: nat, now: nat, g: FlowId)
    ensures SameTimes(s, Arrive(s, f, cost, now).0, g)
  {
    var t := Tagged(s, f, cost, now);
    assert SameTimes(s, t, g);
    if s.backlog != [] {
      EvictTimes(t, g);
    }
  }

  lemma StepTimes(s: State, e: Event, g: FlowId)
    ensures Step(s, e).counters.time == s.counters.time + ReleasedTime([e])
    ensures g in s.flows && KeepsRecord(s, e, g) ==>
      g in Step(s, e).flows && CountersOf(Step(s, e), g).time == CountersOf(s, g).time + ReleasedBy([e], g)
  {
    assert [e][1..] == [];
    match e
    case Acquired(f, weight, now) => ArriveTimes(s, f, Charge(s, f, weight), now, g);
    case Released(f, actual) =>
    case Purged(_, _) =>
  }

  /** In every run the time counted is that of all releases, and for each flow with a record that is not purged
      that of its own. */
  lemma {:induction false} TimeAccountedFor(s: State, events: seq<Event>, f: FlowId)
    ensures Exec(s, events).counters.time == s.counters.time + ReleasedTime(events)
    ensures f in s.flows && NeverForgotten(s, events, f) ==>
      CountersOf(Exec(s, events), f).time == CountersOf(s, f).time + ReleasedBy(events, f)
    decreases |events|
  {
    if events != [] {
      assert [events[0]][1..] == [];
      StepTimes(s, events[0], f);
      TimeAccountedFor(Step(s, events[0]), events[1..], f);
    }
  }
}
