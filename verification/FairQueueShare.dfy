/**
  Requests are served in the order of their start tags, and while a request waits no flow is given more
  than the distance of its tag from virtual time, up to one request.
  */
module FairQueueShare {
  import opened KeyedQueue
  import opened FairQueue
  import opened FairQueueInvariant
  import opened FairQueueFairness

  // ---- the order of service

  /** The tags served so far never go down, and the last one is virtual time. */
  ghost predicate InTagOrder(s: State) {
    && (forall i, j :: 0 <= i < j < |s.started| ==> s.started[i].key <= s.started[j].key)
    && (forall i :: 0 <= i < |s.started| ==> s.started[i].key <= s.vtime)
  }

  lemma DispatchInOrder(s: State, r: Request)
    requires InTagOrder(s) && s.vtime <= r.key
    ensures InTagOrder(Dispatch(s, r))
  {
  }

  lemma ArriveInOrder(s: State, f: FlowId, cost: nat, now: nat)
    requires InTagOrder(s)
    ensures InTagOrder(Arrive(s, f, cost, now).0)
  {
    var t, r := Tagged(s, f, cost, now), Entry(NextStart(s, f), Job(f, cost));
    DispatchInOrder(t, r);
    if s.backlog != [] {
      DispatchInOrder(Evict(t), r);
    }
  }

  lemma StepInOrder(s: State, e: Event)
    requires Inv(s) && InTagOrder(s)
    ensures InTagOrder(Step(s, e))
  {
    match e
    case Acquired(f, weight, now) => ArriveInOrder(s, f, Charge(s, f, weight), now);
    case Released(f, actual) =>
      var u := Vacated(Charged(s, f, actual), f);
      if u.backlog != [] {
        DispatchInOrder(u.(backlog := u.backlog[1..]), u.backlog[0]);
      }
    case Purged(_, _) =>
  }

  lemma {:induction false} RunInOrder(s: State, events: seq<Event>)
    requires Inv(s) && Feasible(s, events) && InTagOrder(s)
    ensures InTagOrder(Exec(s, events))
    decreases |events|
  {
    if events != [] {
      StepInv(s, events[0]);
      StepInOrder(s, events[0]);
      RunInOrder(Step(s, events[0]), events[1..]);
    }
  }

  /** In every run requests are served in the order of their start tags. */
  lemma ServedInTagOrder(cap: nat, depth: nat, events: seq<Event>)
    requires 1 <= cap && Feasible(New(cap, depth), events)
    ensures InTagOrder(Exec(New(cap, depth), events))
  {
    NewInv(cap, depth);
    RunInOrder(New(cap, depth), events);
  }

  // ---- a flow's head never moves back

  lemma QueuedArrivalHead(s: State, f: FlowId, cost: nat, now: nat, g: FlowId)
    requires Inv(s) && |s.backlog| < s.cap && s.serving == s.depth
    ensures Head(s, g) <= Head(Arrive(s, f, cost, now).0, g) && Arrive(s, f, cost, now).0.started == s.started
  {
    var r := Entry(NextStart(s, f), Job(f, cost));
    if g == f {
      InsertAppendsToFlow(s, f, cost);
    } else {
      OfInsert(s.backlog, r, g);
    }
  }

  lemma RejectHead(s: State, f: FlowId, cost: nat, now: nat, g: FlowId)
    requires Inv(s)
    ensures Head(s, g) <= Head(Reject(Tagged(s, f, cost, now), f, cost), g)
  {
  }

  lemma EvictingArrivalHead(s: State, f: FlowId, cost: nat, now: nat, g: FlowId)
    requires Inv(s) && |s.backlog| >= s.cap && NextStart(s, f) < s.backlog[|s.backlog| - 1].key
    ensures Head(s, g) <= Head(Arrive(s, f, cost, now).0, g) && Arrive(s, f, cost, now).0.started == s.started
  {
    var p := Retract(s);
    RetractInv(s);
    RetractHead(s, g);
    QueuedArrivalHead(p, f, cost, now, g);
    EvictingArrival(s, f, cost, now);
  }

  lemma ArriveHead(s: State, f: FlowId, cost: nat, now: nat, g: FlowId)
    requires Inv(s) && s.backlog != []
    ensures Head(s, g) <= Head(Arrive(s, f, cost, now).0, g) && Arrive(s, f, cost, now).0.started == s.started
  {
    if |s.backlog| < s.cap {
      QueuedArrivalHead(s, f, cost, now, g);
    } else if NextStart(s, f) >= s.backlog[|s.backlog| - 1].key {
      RejectHead(s, f, cost, now, g);
    } else {
      EvictingArrivalHead(s, f, cost, now, g);
    }
  }

  // ---- a flow's share while a request waits

  /** Since virtual time was `start` the flow was given at most the distance of its head, and no more than
      the distance of `key` and one request. */
  ghost predicate Share(s: State, g: FlowId, before: nat, start: nat, key: nat, bound: nat) {
    && start <= s.vtime && start <= key
    && Work(s.started, g) - before <= Max(start, Head(s, g)) - start
    && Work(s.started, g) - before <= key - start + bound
  }

  lemma ReleaseShare(s: State, f: FlowId, actual: nat, g: FlowId, before: nat, start: nat, e: Request, bound: nat)
    requires Inv(s) && f in s.guards && Near(s, g, bound) && e in s.backlog
    requires Share(s, g, before, start, e.key, bound)
    ensures Share(Release(s, f, actual), g, before, start, e.key, bound)
  {
    var u, first := Release(s, f, actual), s.backlog[0];
    assert first.key <= e.key;
    assert u.backlog == s.backlog[1..] && u.started == s.started + [first] && u.vtime == first.key;
    assert u.started[..|u.started| - 1] == s.started;
    assert FinishOf(u, g) == FinishOf(s, g);
    if first.value.flow == g {
      assert FlowTiles(s, g);
      assert Of(s.backlog, g)[1..] == Of(u.backlog, g);
      assert first in s.backlog;
    }
  }

  lemma StepShare(s: State, ev: Event, g: FlowId, before: nat, start: nat, e: Request, bound: nat)
    requires Inv(s) && Enabled(s, ev) && KeepsRecord(s, ev, g) && Near(s, g, bound) && e in s.backlog
    requires Share(s, g, before, start, e.key, bound)
    ensures Share(Step(s, ev), g, before, start, e.key, bound)
  {
    StepInv(s, ev);
    match ev
    case Acquired(f, weight, now) => ArriveHead(s, f, Charge(s, f, weight), now, g);
    case Released(f, actual) => ReleaseShare(s, f, actual, g, before, start, e, bound);
    case Purged(now, age) => assert Head(Step(s, ev), g) == Head(s, g);
  }

  /** The request waits in every state of the run but possibly the last. */
  predicate Waits(s: State, events: seq<Event>, e: Request)
    decreases |events|
  {
    events != [] ==> e in s.backlog && Waits(Step(s, events[0]), events[1..], e)
  }

  lemma {:induction false} RunShare(s: State, events: seq<Event>, g: FlowId, before: nat, start: nat,
                                    e: Request, bound: nat)
    requires Inv(s) && Feasible(s, events) && Near(s, g, bound) && CostsAtMost(s, events, g, bound)
    requires NeverForgotten(s, events, g) && Waits(s, events, e) && Share(s, g, before, start, e.key, bound)
    ensures Share(Exec(s, events), g, before, start, e.key, bound)
    decreases |events|
  {
    if events != [] {
      StepInv(s, events[0]);
      StepNear(s, events[0], g, bound);
      StepShare(s, events[0], g, before, start, e, bound);
      RunShare(Step(s, events[0]), events[1..], g, before, start, e, bound);
    }
  }

  /** No starvation.  Take any run and any stretch of it over which a request e waits, up to the call that
      serves or evicts it.  A flow whose record is not purged over the stretch is served at most e's distance
      from virtual time at the start of the stretch, plus its own largest cost tag. */
  lemma BoundedShare(cap: nat, depth: nat, before: seq<Event>, events: seq<Event>, e: Request,
                     g: FlowId, largest: nat)
    requires 1 <= cap && Feasible(New(cap, depth), before + events)
    requires CostsAtMost(New(cap, depth), before + events, g, largest)
    requires var s := Exec(New(cap, depth), before);
      e in s.backlog && Waits(s, events, e) && NeverForgotten(s, events, g)
    ensures var s := Exec(New(cap, depth), before);
      var t := Exec(s, events);
      && s.started <= t.started
      && Work(t.started[|s.started|..], g) <= e.key - s.vtime + largest
  {
    var s0 := New(cap, depth);
    NewInv(cap, depth);
    SplitRun(s0, before, events, g, largest);
    RunInv(s0, before);
    RunNear(s0, before, g, largest);
    var s := Exec(s0, before);
    RunInv(s, events);
    RunShare(s, events, g, Work(s.started, g), s.vtime, e, largest);
    var t := Exec(s, events);
    var served := t.started[|s.started|..];
    assert t.started == s.started + served;
    WorkConcat(s.started, served, g);
  }
}
