/**
  What every run of the fair queue keeps: the waiting requests of each flow tile an interval of
  virtual time that ends at the flow's finish tag, slots are never idle while requests wait, and
  every request is accounted for.
  */
module FairQueueInvariant {
  import opened KeyedQueue
  import opened FairQueue

  /** Where a flow's waiting requests begin. */
  function Front(q: seq<Request>, finish: int): int {
    if q == [] then finish else q[0].key
  }

  /** The requests follow each other without gap or overlap and the last one ends at `finish`. */
  ghost predicate Tiles(q: seq<Request>, finish: int) {
    q == [] ||
    (&& 1 <= q[0].value.cost
     && q[0].key + q[0].value.cost == Front(q[1..], finish)
     && Tiles(q[1..], finish))
  }

  ghost predicate FlowTiles(s: State, f: FlowId) {
    Of(s.backlog, f) != [] ==> f in s.flows && Tiles(Of(s.backlog, f), s.flows[f].finish)
  }

  ghost predicate SlotsFull(s: State) {
    && 0 <= s.serving <= s.depth
    && (s.backlog != [] ==> s.serving == s.depth)
    && |s.backlog| <= s.cap
    && |s.guards| == s.serving
  }

  ghost predicate Inv(s: State) {
    && 1 <= s.cap
    && SlotsFull(s)
    && Ordered(s.backlog)
    && (forall i :: 0 <= i < |s.backlog| ==> s.vtime <= s.backlog[i].key)
    && (forall f :: f in s.flows ==> 0 <= s.flows[f].finish)
    && (forall f :: FlowTiles(s, f))
  }

  // ---- the requests of one flow within the backlog

  lemma {:induction false} OfConcat(a: seq<Request>, b: seq<Request>, f: FlowId)
    ensures Of(a + b, f) == Of(a, f) + Of(b, f)
  {
    if a == [] {
      assert a + b == b;
    } else {
      assert (a + b)[1..] == a[1..] + b;
      OfConcat(a[1..], b, f);
    }
  }

  lemma {:induction false} OfMembers(q: seq<Request>, f: FlowId)
    ensures forall r :: r in Of(q, f) <==> r in q && r.value.flow == f
  {
    if q != [] {
      OfMembers(q[1..], f);
      assert q == [q[0]] + q[1..];
    }
  }

  lemma {:induction false} OfNone(q: seq<Request>, f: FlowId)
    requires forall r :: r in q ==> r.value.flow != f
    ensures Of(q, f) == []
  {
    if q != [] {
      OfNone(q[1..], f);
    }
  }

  lemma OfAppend(q: seq<Request>, r: Request, f: FlowId)
    ensures Of(q + [r], f) == if r.value.flow == f then Of(q, f) + [r] else Of(q, f)
  {
    OfConcat(q, [r], f);
    assert [r][1..] == [];
  }

  lemma OfSplitLast(q: seq<Request>, f: FlowId)
    requires q != []
    ensures var n := |q| - 1;
      Of(q, f) == if q[n].value.flow == f then Of(q[..n], f) + [q[n]] else Of(q[..n], f)
  {
    assert q == q[..|q| - 1] + [q[|q| - 1]];
    OfAppend(q[..|q| - 1], q[|q| - 1], f);
  }

  lemma OfInsert(q: seq<Request>, r: Request, f: FlowId)
    ensures r.value.flow != f ==> Of(Insert(q, r), f) == Of(q, f)
    ensures r.value.flow == f ==>
      Of(Insert(q, r), f) == Of(q[..Rank(q, r.key)], f) + [r] + Of(q[Rank(q, r.key)..], f)
  {
    var i := Rank(q, r.key);
    OfConcat(q[..i] + [r], q[i..], f);
    OfAppend(q[..i], r, f);
    assert q == q[..i] + q[i..];
    OfConcat(q[..i], q[i..], f);
  }

  lemma {:induction false} TilesConcat(a: seq<Request>, b: seq<Request>, finish: int)
    ensures Tiles(a + b, finish) <==> Tiles(a, Front(b, finish)) && Tiles(b, finish)
  {
    if a == [] {
      assert a + b == b;
    } else {
      assert (a + b)[1..] == a[1..] + b;
      TilesConcat(a[1..], b, finish);
    }
  }

  lemma {:induction false} TilesBelowFinish(q: seq<Request>, finish: int, r: Request)
    requires Tiles(q, finish) && r in q
    ensures Front(q, finish) <= r.key < finish
  {
    if q[1..] == [] {
    } else if r == q[0] {
      TilesBelowFinish(q[1..], finish, q[1]);
    } else {
      assert r in q[1..];
      TilesBelowFinish(q[1..], finish, r);
    }
  }

  /** While a flow has requests waiting, its next request starts where the last one ends. */
  lemma NextStartOfQueuedFlow(s: State, f: FlowId)
    requires Inv(s) && Of(s.backlog, f) != []
    ensures f in s.flows && NextStart(s, f) == s.flows[f].finish
    ensures forall r :: r in s.backlog && r.value.flow == f ==> r.key < NextStart(s, f)
  {
    var q := Of(s.backlog, f);
    assert FlowTiles(s, f);
    OfMembers(s.backlog, f);
    forall r | r in s.backlog && r.value.flow == f
      ensures r.key < s.flows[f].finish
    {
      TilesBelowFinish(q, s.flows[f].finish, r);
    }
    assert q[0] in q;
  }

  lemma NoneBehindNewcomer(s: State, f: FlowId)
    requires Inv(s)
    ensures Of(s.backlog[Rank(s.backlog, NextStart(s, f))..], f) == []
  {
    var q, i := s.backlog, Rank(s.backlog, NextStart(s, f));
    forall r | r in q[i..] ensures r.value.flow != f {
      var k :| i <= k < |q| && q[k] == r;
      assert NextStart(s, f) < q[i].key <= r.key;
      if r.value.flow == f {
        OfMembers(q, f);
        assert r in Of(q, f);
        NextStartOfQueuedFlow(s, f);
      }
    }
    OfNone(q[i..], f);
  }

  /** A newcomer goes in behind all requests of its own flow. */
  lemma InsertAppendsToFlow(s: State, f: FlowId, cost: nat)
    requires Inv(s)
    ensures Of(Insert(s.backlog, Entry(NextStart(s, f), Job(f, cost))), f)
         == Of(s.backlog, f) + [Entry(NextStart(s, f), Job(f, cost))]
  {
    var q, r := s.backlog, Entry(NextStart(s, f), Job(f, cost));
    var i := Rank(q, r.key);
    OfInsert(q, r, f);
    NoneBehindNewcomer(s, f);
    assert q == q[..i] + q[i..];
    OfConcat(q[..i], q[i..], f);
  }

  // ---- each operation keeps the invariant

  lemma NewInv(cap: nat, depth: nat)
    requires 1 <= cap
    ensures Inv(New(cap, depth))
  {
  }

  lemma RetractInv(s: State)
    requires Inv(s) && s.backlog != []
    ensures Inv(Retract(s))
    ensures s.backlog[|s.backlog| - 1].value.flow in s.flows
    ensures FinishOf(Retract(s), s.backlog[|s.backlog| - 1].value.flow) == s.backlog[|s.backlog| - 1].key
  {
    var n := |s.backlog| - 1;
    var last := s.backlog[n];
    var g := last.value.flow;
    OfSplitLast(s.backlog, g);
    assert FlowTiles(s, g);
    TilesConcat(Of(s.backlog[..n], g), [last], s.flows[g].finish);
    forall f ensures FlowTiles(Retract(s), f) {
      assert FlowTiles(s, f);
      OfSplitLast(s.backlog, f);
    }
  }

  /** What an accepted arrival leaves behind, apart from counters. */
  ghost predicate Accepts(s: State, f: FlowId, cost: nat, t: State) {
    && f in t.flows && t.flows[f].finish == NextStart(s, f) + cost
    && t.flows.Keys == s.flows.Keys + {f}
    && (forall g :: g in s.flows && g != f ==> t.flows[g].finish == s.flows[g].finish)
  }

  lemma InsertTiles(s: State, f: FlowId, cost: nat, t: State, g: FlowId)
    requires Inv(s) && 1 <= cost && Accepts(s, f, cost, t)
    requires t.backlog == Insert(s.backlog, Entry(NextStart(s, f), Job(f, cost)))
    ensures FlowTiles(t, g)
  {
    var r := Entry(NextStart(s, f), Job(f, cost));
    assert FlowTiles(s, g);
    if g == f {
      InsertAppendsToFlow(s, f, cost);
      if Of(s.backlog, f) != [] {
        NextStartOfQueuedFlow(s, f);
      }
      TilesConcat(Of(s.backlog, f), [r], t.flows[f].finish);
    } else {
      OfInsert(s.backlog, r, g);
    }
  }

  lemma PlaceInv(s: State, f: FlowId, cost: nat, t: State)
    requires Inv(s) && |s.backlog| < s.cap && 1 <= cost && Accepts(s, f, cost, t)
    requires t == s.(flows := t.flows, counters := t.counters)
    ensures Inv(Place(t, Entry(NextStart(s, f), Job(f, cost))).0)
  {
    var r := Entry(NextStart(s, f), Job(f, cost));
    var u := Place(t, r).0;
    if s.serving < s.depth {
      assert u.backlog == [];
      forall g ensures FlowTiles(u, g) {
      }
    } else {
      InsertKeepsOrder(s.backlog, r);
      InsertMembers(s.backlog, r);
      forall g ensures FlowTiles(u, g) {
        InsertTiles(s, f, cost, u, g);
      }
      forall i | 0 <= i < |u.backlog| ensures u.vtime <= u.backlog[i].key {
        assert u.backlog[i] in u.backlog;
      }
    }
  }

  /** An arriving request never evicts one of its own flow. */
  lemma NeverEvictsOwnFlow(s: State, f: FlowId)
    requires Inv(s) && s.backlog != []
    requires NextStart(s, f) < s.backlog[|s.backlog| - 1].key
    ensures s.backlog[|s.backlog| - 1].value.flow != f
  {
    var last := s.backlog[|s.backlog| - 1];
    if last.value.flow == f {
      OfMembers(s.backlog, f);
      assert last in s.backlog && last in Of(s.backlog, f);
      NextStartOfQueuedFlow(s, f);
    }
  }

  /** Evicting to make room is taking the evicted request back and then arriving, but for counters. */
  lemma EvictingArrival(s: State, f: FlowId, cost: nat, now: nat)
    requires Inv(s) && |s.backlog| >= s.cap
    requires NextStart(s, f) < s.backlog[|s.backlog| - 1].key
    ensures var g := s.backlog[|s.backlog| - 1].value.flow;
      var u := Arrive(Retract(s), f, cost, now);
      && g in u.0.flows && u.1 == Queued
      && Arrive(s, f, cost, now) == (Drop(u.0, g), Queued)
    ensures AverageOf(Retract(s), f) == AverageOf(s, f)
  {
    NeverEvictsOwnFlow(s, f);
    RetractInv(s);
    var g := s.backlog[|s.backlog| - 1].value.flow;
    var p := Retract(s);
    assert FinishOf(p, f) == FinishOf(s, f) && AverageOf(p, f) == AverageOf(s, f);
    EvictTagged(s, f, cost, now);
  }

  /** Tagging the newcomer and evicting commute, when the evicted request is of another flow. */
  lemma EvictTagged(s: State, f: FlowId, cost: nat, now: nat)
    requires s.backlog != [] && s.backlog[|s.backlog| - 1].value.flow in s.flows
    requires s.backlog[|s.backlog| - 1].value.flow != f
    ensures Evict(Tagged(s, f, cost, now)) == Drop(Tagged(Retract(s), f, cost, now), s.backlog[|s.backlog| - 1].value.flow)
  {
    var g := s.backlog[|s.backlog| - 1].value.flow;
    assert Evict(Tagged(s, f, cost, now)).flows == Drop(Tagged(Retract(s), f, cost, now), g).flows;
  }

  lemma RejectInv(s: State, f: FlowId, cost: nat, now: nat)
    requires Inv(s)
    ensures Inv(Reject(Tagged(s, f, cost, now), f, cost))
  {
    var u := Reject(Tagged(s, f, cost, now), f, cost);
    assert FinishOf(u, f) == NextStart(s, f);
    forall h ensures FlowTiles(u, h) {
      assert FlowTiles(s, h);
      if h == f && Of(s.backlog, f) != [] {
        NextStartOfQueuedFlow(s, f);
      }
    }
  }

  lemma DropInv(s: State, g: FlowId)
    requires Inv(s) && g in s.flows
    ensures Inv(Drop(s, g))
  {
    forall h ensures FlowTiles(Drop(s, g), h) {
      assert FlowTiles(s, h);
    }
  }

  lemma EvictingArrivalInv(s: State, f: FlowId, cost: nat, now: nat)
    requires Inv(s) && 1 <= cost && |s.backlog| >= s.cap
    requires NextStart(s, f) < s.backlog[|s.backlog| - 1].key
    ensures Inv(Arrive(s, f, cost, now).0)
  {
    EvictingArrival(s, f, cost, now);
    RetractInv(s);
    var p := Retract(s);
    PlaceInv(p, f, cost, Tagged(p, f, cost, now));
    DropInv(Arrive(p, f, cost, now).0, s.backlog[|s.backlog| - 1].value.flow);
  }

  lemma RoomyArrivalInv(s: State, f: FlowId, cost: nat, now: nat)
    requires Inv(s) && 1 <= cost && |s.backlog| < s.cap
    ensures Inv(Arrive(s, f, cost, now).0)
  {
    PlaceInv(s, f, cost, Tagged(s, f, cost, now));
  }

  lemma RejectedArrivalInv(s: State, f: FlowId, cost: nat, now: nat)
    requires Inv(s) && |s.backlog| >= s.cap && NextStart(s, f) >= s.backlog[|s.backlog| - 1].key
    ensures Inv(Arrive(s, f, cost, now).0)
  {
    RejectInv(s, f, cost, now);
  }

  lemma ArriveInv(s: State, f: FlowId, cost: nat, now: nat)
    requires Inv(s) && 1 <= cost
    ensures Inv(Arrive(s, f, cost, now).0)
    ensures Arrive(s, f, cost, now).1 != Panicked
  {
    if |s.backlog| < s.cap {
      RoomyArrivalInv(s, f, cost, now);
    } else if NextStart(s, f) >= s.backlog[|s.backlog| - 1].key {
      RejectedArrivalInv(s, f, cost, now);
    } else {
      EvictingArrivalInv(s, f, cost, now);
    }
  }

  lemma ArriveGrows(s: State, f: FlowId, cost: nat, now: nat)
    ensures s.vtime <= Arrive(s, f, cost, now).0.vtime && s.started <= Arrive(s, f, cost, now).0.started
  {
  }

  lemma PickupTiles(s: State, f: FlowId)
    requires FlowTiles(s, f) && s.backlog != []
    ensures FlowTiles(TryPickupNext(s), f)
  {
    var q, p := Of(s.backlog, f), Of(s.backlog[1..], f);
    if s.backlog[0].value.flow == f {
      assert q[1..] == p;
    }
  }

  lemma ReleaseInv(s: State, f: FlowId, actual: nat)
    requires Inv(s) && f in s.guards
    ensures Inv(Release(s, f, actual))
    ensures s.vtime <= Release(s, f, actual).vtime
  {
    var u := Vacated(Charged(s, f, actual), f);
    forall g ensures FlowTiles(u, g) {
      assert FlowTiles(s, g);
    }
    if u.backlog != [] {
      forall g ensures FlowTiles(TryPickupNext(u), g) {
        PickupTiles(u, g);
      }
    }
  }

  /** Purging keeps the invariant exactly when it spares every flow that has requests waiting. */
  lemma PurgeKeepsInvIff(s: State, now: nat, age: nat)
    requires Inv(s)
    ensures Inv(Purge(s, now, age)) <==> PurgeSpares(s, now, age)
  {
    var u := Purge(s, now, age);
    if PurgeSpares(s, now, age) {
      forall f ensures FlowTiles(u, f) {
        assert FlowTiles(s, f);
      }
    }
    if Inv(u) {
      forall f | Of(s.backlog, f) != [] && f in s.flows
        ensures Young(s.flows[f], now, age)
      {
        assert FlowTiles(u, f);
      }
    }
  }

  lemma StepInv(s: State, e: Event)
    requires Inv(s) && Enabled(s, e)
    ensures Inv(Step(s, e))
    ensures s.vtime <= Step(s, e).vtime
    ensures s.started <= Step(s, e).started
  {
    match e
    case Acquired(f, weight, now) =>
      ArriveInv(s, f, Charge(s, f, weight), now);
      ArriveGrows(s, f, Charge(s, f, weight), now);
    case Released(f, actual) => ReleaseInv(s, f, actual);
    case Purged(now, age) => PurgeKeepsInvIff(s, now, age);
  }

  /** A purge does not look at activity: a waiting flow that loses its record has its next request
      tagged to start at virtual time, not after the requests it has waiting. */
  lemma PurgedFlowOverlaps(s: State, f: FlowId, now: nat, age: nat)
    requires Inv(s) && Of(s.backlog, f) != [] && !Young(FlowOf(s, f, now), now, age)
    ensures NextStart(Purge(s, now, age), f) == s.vtime < NextStart(s, f)
    ensures forall r :: r in s.backlog && r.value.flow == f ==>
      NextStart(Purge(s, now, age), f) <= r.key < NextStart(s, f)
  {
    NextStartOfQueuedFlow(s, f);
    OfMembers(s.backlog, f);
    assert Of(s.backlog, f)[0] in s.backlog;
  }

  lemma FirstArrival(s: State, f: FlowId, weight: nat, now: nat)
    requires s.backlog == [] && s.serving < s.depth && 1 <= s.cap && f !in s.flows
    ensures var t := Acquire(s, f, weight, now).0;
      t.backlog == [] && t.serving == s.serving + 1 && f in t.flows && t.flows[f].active == now
  {
  }

  lemma SecondArrival(s: State, f: FlowId, weight: nat, now: nat)
    requires s.backlog == [] && s.serving == s.depth && 1 <= s.cap && f in s.flows
    ensures var t := Acquire(s, f, weight, now).0;
      Of(t.backlog, f) != [] && f in t.flows && t.flows[f].active == s.flows[f].active
  {
    var r := Entry(NextStart(s, f), Job(f, Charge(s, f, weight)));
    assert Insert([], r) == [r];
  }

  /** Such a state is reached by two arrivals of any one flow at a queue with a single slot. */
  lemma PurgeOfQueuedFlowReachable(cap: nat, f: FlowId, weight: nat, now: nat, later: nat, age: nat)
    requires 1 <= cap && now + age <= later
    ensures var s := Exec(New(cap, 1), [Acquired(f, weight, now), Acquired(f, weight, now)]);
      Inv(s) && Of(s.backlog, f) != [] && !Young(FlowOf(s, f, later), later, age)
  {
    var e := Acquired(f, weight, now);
    var s1 := Step(New(cap, 1), e);
    var s2 := Step(s1, e);
    NewInv(cap, 1);
    StepInv(New(cap, 1), e);
    StepInv(s1, e);
    FirstArrival(New(cap, 1), f, weight, now);
    SecondArrival(s1, f, weight, now);
    assert [e, e][1..] == [e];
    assert [e][1..] == [];
    assert Exec(s2, []) == s2;
    assert Exec(s1, [e]) == s2;
  }

  /** Every reachable state: tags tile, virtual time is below every waiting tag and never goes back,
      no slot idles while a request waits, the backlog is bounded, no subtraction underflows. */
  lemma {:induction false} RunInv(s: State, events: seq<Event>)
    requires Inv(s) && Feasible(s, events)
    ensures Inv(Exec(s, events))
    ensures s.vtime <= Exec(s, events).vtime
    ensures s.started <= Exec(s, events).started
    decreases |events|
  {
    if events != [] {
      StepInv(s, events[0]);
      RunInv(Step(s, events[0]), events[1..]);
    }
  }
}
