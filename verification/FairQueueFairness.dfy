/** Two flows that both keep requests waiting are served the same amount, up to one request each. */
module FairQueueFairness {
  import opened KeyedQueue
  import opened FairQueue
  import opened FairQueueInvariant

  /** The sum of the cost tags of one flow's requests. */
  function Work(q: seq<Request>, f: FlowId): nat {
    if q == [] then 0
    else Work(q[..|q| - 1], f) + if q[|q| - 1].value.flow == f then q[|q| - 1].value.cost else 0
  }

  lemma {:induction false} WorkConcat(a: seq<Request>, b: seq<Request>, f: FlowId)
    ensures Work(a + b, f) == Work(a, f) + Work(b, f)
  {
    if b == [] {
      assert a + b == a;
    } else {
      assert (a + b)[..|a + b| - 1] == a + b[..|b| - 1];
      WorkConcat(a, b[..|b| - 1], f);
    }
  }

  predicate Waiting(s: State, f: FlowId) {
    Of(s.backlog, f) != []
  }

  /** Where the next service of a flow begins in virtual time. */
  function Head(s: State, f: FlowId): int {
    Front(Of(s.backlog, f), FinishOf(s, f))
  }

  /** No request of the flow is tagged with more than `bound` in the whole run. */
  ghost predicate CostsAtMost(s: State, events: seq<Event>, f: FlowId, bound: nat)
    decreases |events|
  {
    events != [] ==>
      && (events[0].Acquired? && events[0].flow == f ==> Charge(s, f, events[0].weight) <= bound)
      && CostsAtMost(Step(s, events[0]), events[1..], f, bound)
  }

  /** In every state of the run, the first and the last included, both flows have requests waiting. */
  ghost predicate BothWaiting(s: State, events: seq<Event>, f: FlowId, g: FlowId)
    decreases |events|
  {
    && Waiting(s, f) && Waiting(s, g)
    && (events != [] ==> BothWaiting(Step(s, events[0]), events[1..], f, g))
  }

  // ---- a flow is never more than one request ahead of virtual time

  ghost predicate Near(s: State, f: FlowId, bound: nat) {
    && Head(s, f) <= s.vtime + bound
    && (forall r :: r in s.backlog && r.value.flow == f ==> r.value.cost <= bound)
  }

  lemma HeadNotBehind(s: State, f: FlowId)
    requires Inv(s) && Waiting(s, f)
    ensures s.vtime <= Head(s, f)
  {
    OfMembers(s.backlog, f);
    assert Of(s.backlog, f)[0] in s.backlog;
  }

  lemma RetractHead(s: State, f: FlowId)
    requires Inv(s) && s.backlog != []
    ensures Head(Retract(s), f) == Head(s, f)
  {
    RetractInv(s);
    assert FlowTiles(s, f);
    OfSplitLast(s.backlog, f);
  }

  lemma RetractNear(s: State, h: FlowId, bound: nat)
    requires Inv(s) && s.backlog != [] && Near(s, h, bound)
    ensures Near(Retract(s), h, bound) && Head(Retract(s), h) == Head(s, h)
  {
    RetractHead(s, h);
    assert forall r :: r in Retract(s).backlog ==> r in s.backlog;
  }

  lemma DropNear(s: State, g: FlowId, h: FlowId, bound: nat)
    requires g in s.flows && Near(s, h, bound)
    ensures Near(Drop(s, g), h, bound) && Head(Drop(s, g), h) == Head(s, h)
  {
  }

  lemma PlaceNear(s: State, f: FlowId, cost: nat, now: nat, h: FlowId, bound: nat)
    requires Inv(s) && |s.backlog| < s.cap && Near(s, h, bound)
    requires f == h ==> cost <= bound
    ensures Near(Arrive(s, f, cost, now).0, h, bound)
    ensures Waiting(s, h) ==> Head(Arrive(s, f, cost, now).0, h) == Head(s, h)
  {
    var r := Entry(NextStart(s, f), Job(f, cost));
    var u := Arrive(s, f, cost, now).0;
    if s.serving < s.depth {
      assert s.backlog == [] && u.backlog == [];
    } else {
      assert u.backlog == Insert(s.backlog, r);
      InsertMembers(s.backlog, r);
      if h == f {
        InsertAppendsToFlow(s, f, cost);
      } else {
        OfInsert(s.backlog, r, h);
      }
    }
  }

  /** A flow that waits before and after an eviction has kept a request through it. */
  lemma StillWaiting(s: State, f: FlowId, cost: nat, h: FlowId)
    requires Inv(s) && s.backlog != [] && NextStart(s, f) < s.backlog[|s.backlog| - 1].key
    ensures var p := Retract(s);
      Of(s.backlog, h) != [] && Of(Insert(p.backlog, Entry(NextStart(p, f), Job(f, cost))), h) != [] ==>
        Waiting(p, h)
  {
    NeverEvictsOwnFlow(s, f);
    OfSplitLast(s.backlog, h);
    OfInsert(Retract(s).backlog, Entry(NextStart(Retract(s), f), Job(f, cost)), h);
  }

  lemma EvictingArrivalNear(s: State, f: FlowId, cost: nat, now: nat, h: FlowId, bound: nat)
    requires Inv(s) && Near(s, h, bound) && |s.backlog| >= s.cap
    requires NextStart(s, f) < s.backlog[|s.backlog| - 1].key
    requires f == h ==> cost <= bound
    ensures Near(Arrive(s, f, cost, now).0, h, bound)
    ensures Waiting(s, h) && Waiting(Arrive(s, f, cost, now).0, h) ==>
      Head(Arrive(s, f, cost, now).0, h) == Head(s, h)
    ensures Arrive(s, f, cost, now).0.started == s.started
  {
    var p, g := Retract(s), s.backlog[|s.backlog| - 1].value.flow;
    RetractInv(s);
    RetractNear(s, h, bound);
    PlaceNear(p, f, cost, now, h, bound);
    EvictingArrival(s, f, cost, now);
    var v := Arrive(p, f, cost, now).0;
    DropNear(v, g, h, bound);
    StillWaiting(s, f, cost, h);
    assert v.backlog == Insert(p.backlog, Entry(NextStart(p, f), Job(f, cost)));
  }

  lemma RejectNear(s: State, f: FlowId, cost: nat, now: nat, h: FlowId, bound: nat)
    requires Inv(s) && Near(s, h, bound)
    ensures Near(Reject(Tagged(s, f, cost, now), f, cost), h, bound)
    ensures Waiting(s, h) ==> Head(Reject(Tagged(s, f, cost, now), f, cost), h) == Head(s, h)
  {
  }

  lemma ArriveNear(s: State, f: FlowId, cost: nat, now: nat, h: FlowId, bound: nat)
    requires Inv(s) && Near(s, h, bound)
    requires f == h ==> cost <= bound
    ensures Near(Arrive(s, f, cost, now).0, h, bound)
    ensures Waiting(s, h) && Waiting(Arrive(s, f, cost, now).0, h) ==>
      Head(Arrive(s, f, cost, now).0, h) == Head(s, h)
    ensures Waiting(s, h) ==> Arrive(s, f, cost, now).0.started == s.started
  {
    if |s.backlog| < s.cap {
      PlaceNear(s, f, cost, now, h, bound);
    } else if NextStart(s, f) >= s.backlog[|s.backlog| - 1].key {
      RejectNear(s, f, cost, now, h, bound);
    } else {
      EvictingArrivalNear(s, f, cost, now, h, bound);
    }
  }

  lemma ReleaseNear(s: State, f: FlowId, actual: nat, h: FlowId, bound: nat)
    requires Inv(s) && f in s.guards && Near(s, h, bound)
    ensures Near(Release(s, f, actual), h, bound)
    ensures Waiting(s, h) && Waiting(Release(s, f, actual), h) ==>
      Head(Release(s, f, actual), h) - Head(s, h)
        == Work(Release(s, f, actual).started, h) - Work(s.started, h)
  {
    var u := Release(s, f, actual);
    if s.backlog != [] {
      var first := s.backlog[0];
      assert FlowTiles(s, h);
      assert u.backlog == s.backlog[1..] && u.started == s.started + [first];
      assert u.started[..|u.started| - 1] == s.started;
      assert u.vtime == first.key;
      if first.value.flow == h {
        assert Of(s.backlog, h)[1..] == Of(u.backlog, h);
        assert first in s.backlog;
      }
    }
  }

  lemma StepNear(s: State, e: Event, h: FlowId, bound: nat)
    requires Inv(s) && Enabled(s, e) && Near(s, h, bound)
    requires e.Acquired? && e.flow == h ==> Charge(s, h, e.weight) <= bound
    ensures Near(Step(s, e), h, bound)
    ensures Waiting(s, h) && Waiting(Step(s, e), h) ==>
      Head(Step(s, e), h) - Head(s, h) == Work(Step(s, e).started, h) - Work(s.started, h)
  {
    match e
    case Acquired(f, weight, now) => ArriveNear(s, f, Charge(s, f, weight), now, h, bound);
    case Released(f, actual) => ReleaseNear(s, f, actual, h, bound);
    case Purged(now, age) =>
  }

  lemma {:induction false} RunNear(s: State, events: seq<Event>, h: FlowId, bound: nat)
    requires Inv(s) && Feasible(s, events) && Near(s, h, bound)
    requires CostsAtMost(s, events, h, bound)
    ensures Near(Exec(s, events), h, bound)
    decreases |events|
  {
    if events != [] {
      StepInv(s, events[0]);
      StepNear(s, events[0], h, bound);
      RunNear(Step(s, events[0]), events[1..], h, bound);
    }
  }

  /** While a flow keeps requests waiting, the work it is given is the distance its head moves. */
  lemma {:induction false} WorkIsHeadAdvance(s: State, events: seq<Event>, f: FlowId, g: FlowId, bound: nat)
    requires Inv(s) && Feasible(s, events) && Near(s, f, bound)
    requires CostsAtMost(s, events, f, bound)
    requires BothWaiting(s, events, f, g) || BothWaiting(s, events, g, f)
    ensures Waiting(Exec(s, events), f)
    ensures Head(Exec(s, events), f) - Head(s, f) == Work(Exec(s, events).started, f) - Work(s.started, f)
    decreases |events|
  {
    if events != [] {
      StepInv(s, events[0]);
      StepNear(s, events[0], f, bound);
      WorkIsHeadAdvance(Step(s, events[0]), events[1..], f, g, bound);
    }
  }

  lemma {:induction false} SplitRun(s: State, before: seq<Event>, events: seq<Event>, f: FlowId, bound: nat)
    requires Feasible(s, before + events) && CostsAtMost(s, before + events, f, bound)
    ensures Feasible(s, before) && CostsAtMost(s, before, f, bound)
    ensures Feasible(Exec(s, before), events) && CostsAtMost(Exec(s, before), events, f, bound)
    decreases |before|
  {
    if before == [] {
      assert before + events == events;
    } else {
      assert (before + events)[1..] == before[1..] + events;
      SplitRun(Step(s, before[0]), before[1..], events, f, bound);
    }
  }

  /** Fairness.  Take any run from the empty queue and any stretch of it during which flows f and g
      both keep requests waiting.  The cost tags served to f and to g over the stretch differ by at
      most the largest cost tag of f plus the largest cost tag of g. */
  lemma Fairness(cap: nat, depth: nat, before: seq<Event>, events: seq<Event>,
                 f: FlowId, g: FlowId, largestF: nat, largestG: nat)
    requires 1 <= cap
    requires Feasible(New(cap, depth), before + events)
    requires CostsAtMost(New(cap, depth), before + events, f, largestF)
    requires CostsAtMost(New(cap, depth), before + events, g, largestG)
    requires BothWaiting(Exec(New(cap, depth), before), events, f, g)
    ensures var s := Exec(New(cap, depth), before);
      var t := Exec(s, events);
      && s.started <= t.started
      && var served := t.started[|s.started|..];
         -(largestF + largestG) <= Work(served, f) - Work(served, g) <= largestF + largestG
  {
    var s0 := New(cap, depth);
    NewInv(cap, depth);
    SplitRun(s0, before, events, f, largestF);
    SplitRun(s0, before, events, g, largestG);
    RunInv(s0, before);
    RunNear(s0, before, f, largestF);
    RunNear(s0, before, g, largestG);
    var s := Exec(s0, before);
    RunInv(s, events);
    RunNear(s, events, f, largestF);
    RunNear(s, events, g, largestG);
    WorkIsHeadAdvance(s, events, f, g, largestF);
    WorkIsHeadAdvance(s, events, g, f, largestG);
    var t := Exec(s, events);
    HeadNotBehind(s, f);
    HeadNotBehind(s, g);
    HeadNotBehind(t, f);
    HeadNotBehind(t, g);
    var served := t.started[|s.started|..];
    assert t.started == s.started + served;
    WorkConcat(s.started, served, f);
    WorkConcat(s.started, served, g);
  }
}
