/** What a purge of a waiting flow leads to: the rollback of an eviction goes below zero. */
module FairQueuePurge {
  import opened KeyedQueue
  import opened FairQueue
  import opened FairQueueInvariant

  /** A flow that was purged while waiting is tagged from virtual time when it comes back. */
  lemma ComesBackAtVirtualTime(s: State, f: FlowId, now: nat, age: nat, cost: nat, later: nat)
    requires Inv(s) && Of(s.backlog, f) != [] && !Young(FlowOf(s, f, now), now, age) && |s.backlog| < s.cap
    ensures var u := Arrive(Purge(s, now, age), f, cost, later).0;
      && u.backlog == Insert(s.backlog, Entry(s.vtime, Job(f, cost)))
      && f in u.flows && u.flows[f].finish == s.vtime + cost && u.vtime == s.vtime
  {
  }

  /** A flow that is purged starts over at virtual time, earlier than it would have exactly when it was ahead. */
  lemma StartsOver(s: State, f: FlowId, now: nat, age: nat)
    requires !Young(FlowOf(s, f, now), now, age) && f in s.flows
    ensures NextStart(Purge(s, now, age), f) == s.vtime
    ensures NextStart(Purge(s, now, age), f) < NextStart(s, f) <==> s.vtime < s.flows[f].finish
  {
  }

  lemma InsertKeepsLast(q: seq<Request>, r: Request)
    requires q != [] && r.key < q[|q| - 1].key
    ensures Insert(q, r)[|q|] == q[|q| - 1]
  {
    InsertAt(q, r, |q|);
  }

  /** Evicting a request the flow had waiting before the purge then leaves its finish tag at virtual time plus
      the cost of the new request minus the cost of the old one: it underflows exactly when the old request
      was tagged with more than virtual time plus the new cost. */
  lemma EvictionAfterPurge(s: State, f: FlowId, now: nat, age: nat, cost: nat, later: nat)
    requires Inv(s) && !Young(FlowOf(s, f, now), now, age) && 0 < |s.backlog| < s.cap
    requires var last := s.backlog[|s.backlog| - 1]; last.value.flow == f && s.vtime < last.key
    ensures var last := s.backlog[|s.backlog| - 1];
      var u := Arrive(Purge(s, now, age), f, cost, later).0;
      && u.backlog != [] && u.backlog[|u.backlog| - 1] == last
      && FinishOf(Retract(u), f) == s.vtime + cost - last.value.cost
      && (FinishOf(Retract(u), f) < 0 <==> s.vtime + cost < last.value.cost)
  {
    OfSplitLast(s.backlog, f);
    ComesBackAtVirtualTime(s, f, now, age, cost, later);
    InsertKeepsLast(s.backlog, Entry(s.vtime, Job(f, cost)));
    InsertAt(s.backlog, Entry(s.vtime, Job(f, cost)), 0);
  }

  // ---- a run that does this

  lemma {:induction false} Join(s: State, early: seq<Event>, late: seq<Event>)
    ensures Exec(s, early + late) == Exec(Exec(s, early), late)
    decreases |early|
  {
    if early == [] {
      assert early + late == late;
    } else {
      assert (early + late)[1..] == early[1..] + late;
      Join(Step(s, early[0]), early[1..], late);
    }
  }

  lemma One(s: State, e: Event)
    ensures Exec(s, [e]) == Step(s, e)
  {
    var t := Step(s, e);
    assert Exec(t, []) == t;
  }

  lemma Two(s: State, e: Event, d: Event)
    ensures Exec(s, [e, d]) == Step(Step(s, e), d)
  {
    assert [e] + [d] == [e, d];
    Join(s, [e], [d]);
    One(s, e);
    One(Step(s, e), d);
  }

  lemma WholeCost(s: State, f: FlowId, cost: nat)
    requires AverageOf(s, f) == cost && 1 <= cost
    ensures Charge(s, f, 1) == cost
  {
  }

  /** The flow has been served once, for five times `cost`, on an otherwise unused queue. */
  ghost predicate ServedOnce(s: State, f: FlowId, now: nat, cost: nat) {
    && Inv(s) && s.serving + 1 == s.depth && s.backlog == [] && s.vtime == 0
    && s.flows.Keys == {f} && s.flows[f].finish == 1 && s.flows[f].average == cost && s.flows[f].active == now
  }

  lemma ServesOnce(s: State, f: FlowId, now: nat, actual: nat, cost: nat)
    requires s == New(s.cap, s.depth) && 1 <= s.cap && s.depth == 1 && cost == actual / 5
    ensures var u := Exec(s, [Acquired(f, 1, now), Released(f, actual)]); ServedOnce(u, f, now, cost) && u.cap == s.cap
  {
    var a, r := Acquired(f, 1, now), Released(f, actual);
    NewInv(s.cap, s.depth);
    StepInv(s, a);
    var s1 := Step(s, a);
    assert s1.flows == map[f := Flow(1, 0, now, Counters(1, 0, 0))];
    assert s1.vtime == 0 && s1.serving == 1 && s1.backlog == [] && s1.guards == multiset{f};
    StepInv(s1, r);
    Two(s, a, r);
  }

  /** The flow's next request is served and the one after that waits. */
  ghost predicate WaitsOnce(s: State, f: FlowId, now: nat, cost: nat) {
    && Inv(s) && s.vtime == 1 && s.backlog == [Entry(1 + cost, Job(f, cost))]
    && f in s.flows && s.flows.Keys == {f} && s.flows[f].active == now
  }

  lemma ComesToWait(s: State, f: FlowId, now: nat, cost: nat)
    requires ServedOnce(s, f, now, cost) && 1 <= cost
    ensures var u := Exec(s, [Acquired(f, 1, now), Acquired(f, 1, now)]); WaitsOnce(u, f, now, cost) && u.cap == s.cap
  {
    var a := Acquired(f, 1, now);
    WholeCost(s, f, cost);
    StepInv(s, a);
    var s1 := Step(s, a);
    assert s1.flows.Keys == {f} && s1.flows[f].finish == 1 + cost && s1.flows[f].average == cost;
    assert s1.vtime == 1 && s1.serving == s1.depth && s1.backlog == [] && s1.flows[f].active == now;
    WholeCost(s1, f, cost);
    StepInv(s1, a);
    assert Insert([], Entry(1 + cost, Job(f, cost))) == [Entry(1 + cost, Job(f, cost))];
    Two(s, a, a);
  }

  lemma PurgedAndEvicted(s: State, f: FlowId, g: FlowId, now: nat, later: nat, age: nat, cost: nat)
    requires WaitsOnce(s, f, now, cost) && s.cap == 2 && f != g && now + age <= later && 1 <= cost
    ensures var u := Exec(s, [Purged(later, age), Acquired(f, 1, later)] + [Acquired(g, 1, later)]);
      FinishOf(u, f) == 2 - cost
  {
    var p, a, b := Purged(later, age), Acquired(f, 1, later), Acquired(g, 1, later);
    var s1 := Step(s, p);
    assert f !in s1.flows && Charge(s1, f, 1) == 1;
    var s2 := Step(s1, a);
    EvictionAfterPurge(s, f, later, age, 1, later);
    ComesBackAtVirtualTime(s, f, later, age, 1, later);
    assert |s2.backlog| == 2 && s2.cap == 2;
    EvictsFrom(s2, f, g, later);
    Two(s, p, a);
    Join(s, [p, a], [b]);
    One(s2, b);
  }

  /** A newcomer of another flow, tagged at virtual time, evicts and changes the victim's tag by the rollback. */
  lemma EvictsFrom(s: State, f: FlowId, g: FlowId, now: nat)
    requires f != g && |s.backlog| >= s.cap && s.backlog != [] && s.backlog[|s.backlog| - 1].value.flow == f
    requires f in s.flows && g !in s.flows && s.vtime < s.backlog[|s.backlog| - 1].key
    ensures FinishOf(Acquire(s, g, 1, now).0, f) == FinishOf(Retract(s), f)
  {
  }

  /** A run of a new queue with one slot and room for two: the flow is served for `actual`, served again, and
      waits; its record is purged; it comes back, and another flow's arrival evicts its old request.  The finish
      tag of the flow ends at 2 - actual / 5, below zero from an actual cost of 15 on. */
  lemma PurgeUnderflows(s: State, f: FlowId, g: FlowId, now: nat, later: nat, age: nat, actual: nat)
    requires s == New(s.cap, s.depth) && s.cap == 2 && s.depth == 1
    requires f != g && now + age <= later && 15 <= actual
    ensures var u := Exec(s, [Acquired(f, 1, now), Released(f, actual)]
                             + ([Acquired(f, 1, now), Acquired(f, 1, now)]
                                + ([Purged(later, age), Acquired(f, 1, later)] + [Acquired(g, 1, later)])));
      FinishOf(u, f) == 2 - actual / 5 < 0
  {
    var a := Acquired(f, 1, now);
    var first, second := [a, Released(f, actual)], [a, a];
    var third := [Purged(later, age), Acquired(f, 1, later)] + [Acquired(g, 1, later)];
    ServesOnce(s, f, now, actual, actual / 5);
    var s1 := Exec(s, first);
    ComesToWait(s1, f, now, actual / 5);
    var s2 := Exec(s1, second);
    PurgedAndEvicted(s2, f, g, now, later, age, actual / 5);
    Join(s1, second, third);
    Join(s, first, second + third);
  }
}
