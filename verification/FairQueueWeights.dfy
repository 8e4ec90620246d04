/** What a weight does: a request is tagged with its flow's average cost divided by its weight. */
module FairQueueWeights {
  import opened KeyedQueue
  import opened FairQueue
  import opened FairQueueInvariant
  import opened FairQueueFairness
  import opened Quotients

  lemma ChargeDivides(s: State, f: FlowId, weight: nat)
    ensures Divides(AverageOf(s, f), weight, Charge(s, f, weight))
  {
    DivisionDivides(AverageOf(s, f), weight);
  }

  lemma EvictOther(t: State, f: FlowId)
    requires t.backlog != [] && t.backlog[|t.backlog| - 1].value.flow != f && f in t.flows
    ensures f in Evict(t).flows && Evict(t).flows[f] == t.flows[f]
    ensures Evict(t).backlog == t.backlog[..|t.backlog| - 1] && Evict(t).started == t.started
  {
  }

  lemma PlaceKeepsFlows(t: State, r: Request)
    ensures var (u, outcome) := Place(t, r);
      && u.flows == t.flows
      && (outcome == Queued ==> r in u.backlog && u.started == t.started)
      && (outcome == Started ==> u.started == t.started + [r] && u.backlog == t.backlog)
  {
    InsertMembers(t.backlog, r);
  }

  /** A request that is taken, waiting or served, carries its cost under its start tag, and its flow's finish tag
      moves past it. */
  lemma TakenRequest(s: State, f: FlowId, cost: nat, now: nat)
    requires Inv(s)
    ensures var (u, outcome) := Arrive(s, f, cost, now);
      var r := Entry(Max(s.vtime, FinishOf(s, f)), Job(f, cost));
      && (outcome == Started || outcome == Queued ==> f in u.flows && u.flows[f].finish == r.key + cost)
      && (outcome == Queued ==> r in u.backlog && u.started == s.started)
      && (outcome == Started ==> u.started == s.started + [r])
  {
    var t, r := Tagged(s, f, cost, now), Entry(NextStart(s, f), Job(f, cost));
    if |s.backlog| < s.cap {
      PlaceKeepsFlows(t, r);
    } else if NextStart(s, f) < s.backlog[|s.backlog| - 1].key {
      NeverEvictsOwnFlow(s, f);
      EvictOther(t, f);
      PlaceKeepsFlows(Evict(t), r);
    }
  }

  /** Every request that is taken is tagged with its flow's average cost divided by the weight. */
  lemma TaggedByWeight(s: State, f: FlowId, weight: nat, now: nat, cost: nat)
    requires Inv(s) && Divides(AverageOf(s, f), weight, cost)
    ensures var (u, outcome) := Acquire(s, f, weight, now);
      var r := Entry(Max(s.vtime, FinishOf(s, f)), Job(f, cost));
      && (outcome == Started || outcome == Queued ==> f in u.flows && u.flows[f].finish == r.key + cost)
      && (outcome == Queued ==> r in u.backlog && u.started == s.started)
      && (outcome == Started ==> u.started == s.started + [r])
  {
    ChargeDivides(s, f, weight);
    QuotientUnique(AverageOf(s, f), weight, cost, Charge(s, f, weight));
    TakenRequest(s, f, cost, now);
  }

  /** A request is served at once exactly when a slot is free, rejected exactly when the backlog is full and no
      waiting request has a larger start tag, and waits otherwise. */
  lemma OutcomeIff(s: State, f: FlowId, weight: nat, now: nat)
    requires Inv(s)
    ensures var start, outcome := Max(s.vtime, FinishOf(s, f)), Acquire(s, f, weight, now).1;
      && (outcome == Started <==> s.serving < s.depth)
      && (outcome == Overloaded <==> |s.backlog| == s.cap && forall r :: r in s.backlog ==> r.key <= start)
      && (outcome == Queued <==>
            s.serving == s.depth && (|s.backlog| < s.cap || exists r :: r in s.backlog && start < r.key))
  {
    if s.backlog != [] {
      var last := s.backlog[|s.backlog| - 1];
      assert last in s.backlog;
      assert forall r :: r in s.backlog ==> r.key <= last.key;
    }
  }

  /** A release moves the flow's average by a fifth of the way, rounded down. */
  lemma AverageMoves(s: State, f: FlowId, actual: nat)
    requires f in s.flows
    ensures var u := Release(s, f, actual);
      && f in u.flows
      && 5 * u.flows[f].average <= 4 * s.flows[f].average + actual < 5 * u.flows[f].average + 5
      && (s.flows[f].average <= actual ==> s.flows[f].average <= u.flows[f].average <= actual)
      && (actual <= s.flows[f].average ==> actual <= u.flows[f].average <= s.flows[f].average)
  {
  }

  // ---- fairness in numbers of requests

  /** How many of the requests are the flow's. */
  function Number(q: seq<Request>, f: FlowId): nat {
    if q == [] then 0 else Number(q[..|q| - 1], f) + if q[|q| - 1].value.flow == f then 1 else 0
  }

  ghost predicate AllCost(q: seq<Request>, f: FlowId, cost: nat) {
    forall r :: r in q && r.value.flow == f ==> r.value.cost == cost
  }

  lemma {:induction false} WorkOfEqual(q: seq<Request>, f: FlowId, cost: nat)
    requires AllCost(q, f, cost)
    ensures Work(q, f) == Number(q, f) * cost
  {
    if q != [] {
      var front, last := q[..|q| - 1], q[|q| - 1];
      assert q == front + [last];
      assert last in q;
      WorkOfEqual(front, f, cost);
      var n := Number(front, f);
      assert (n + 1) * cost == n * cost + cost;
    }
  }

  /** Over the run the flow's average is always `average` when it asks, and it always asks with `weight`. */
  ghost predicate Steady(s: State, events: seq<Event>, f: FlowId, average: nat, weight: nat)
    decreases |events|
  {
    events != [] ==>
      && (events[0].Acquired? && events[0].flow == f ==> AverageOf(s, f) == average && events[0].weight == weight)
      && Steady(Step(s, events[0]), events[1..], f, average, weight)
  }

  /** The flow's requests, waiting and served since, all carry the same cost. */
  ghost predicate Uniform(s: State, from: nat, f: FlowId, cost: nat) {
    && from <= |s.started| && AllCost(s.backlog, f, cost) && AllCost(s.started[from..], f, cost)
  }

  lemma PlaceUniform(t: State, r: Request, from: nat, f: FlowId, cost: nat)
    requires Uniform(t, from, f, cost) && (r.value.flow == f ==> r.value.cost == cost)
    ensures Uniform(Place(t, r).0, from, f, cost)
  {
    InsertMembers(t.backlog, r);
    assert (t.started + [r])[from..] == t.started[from..] + [r];
  }

  lemma ArriveUniform(s: State, g: FlowId, weight: nat, now: nat, from: nat, f: FlowId, cost: nat)
    requires Inv(s) && Uniform(s, from, f, cost) && (g == f ==> Charge(s, f, weight) == cost)
    ensures Uniform(Acquire(s, g, weight, now).0, from, f, cost)
  {
    var c := Charge(s, g, weight);
    var t, r := Tagged(s, g, c, now), Entry(NextStart(s, g), Job(g, c));
    PlaceUniform(t, r, from, f, cost);
    if |s.backlog| >= s.cap && NextStart(s, g) < s.backlog[|s.backlog| - 1].key {
      NeverEvictsOwnFlow(s, g);
      EvictOther(t, g);
      assert Uniform(Evict(t), from, f, cost);
      PlaceUniform(Evict(t), r, from, f, cost);
    }
  }

  lemma ReleaseUniform(s: State, g: FlowId, actual: nat, from: nat, f: FlowId, cost: nat)
    requires Uniform(s, from, f, cost)
    ensures Uniform(Release(s, g, actual), from, f, cost)
  {
    if s.backlog != [] {
      assert (s.started + [s.backlog[0]])[from..] == s.started[from..] + [s.backlog[0]];
    }
  }

  lemma {:induction false} RunUniform(s: State, events: seq<Event>, from: nat, f: FlowId, average: nat, weight: nat,
                                      cost: nat)
    requires Inv(s) && Feasible(s, events) && Uniform(s, from, f, cost)
    requires Steady(s, events, f, average, weight) && Divides(average, weight, cost)
    ensures Uniform(Exec(s, events), from, f, cost)
    decreases |events|
  {
    if events != [] {
      StepInv(s, events[0]);
      match events[0] {
        case Acquired(g, w, now) =>
          if g == f {
            ChargeDivides(s, f, w);
            QuotientUnique(average, weight, cost, Charge(s, f, w));
          }
          ArriveUniform(s, g, w, now, from, f, cost);
        case Released(g, actual) => ReleaseUniform(s, g, actual, from, f, cost);
        case Purged(_, _) =>
      }
      RunUniform(Step(s, events[0]), events[1..], from, f, average, weight, cost);
    }
  }

  /** What a flow asks for over a stretch: always with the same average and weight, and so do its requests that
      wait at the beginning of it. */
  ghost predicate SteadyFrom(s: State, events: seq<Event>, f: FlowId, average: nat, weight: nat, cost: nat) {
    && Divides(average, weight, cost) && AllCost(s.backlog, f, cost) && Steady(s, events, f, average, weight)
  }

  lemma SteadyWork(s: State, events: seq<Event>, f: FlowId, average: nat, weight: nat, cost: nat)
    requires Inv(s) && Feasible(s, events) && SteadyFrom(s, events, f, average, weight, cost)
    ensures var t := Exec(s, events);
      && |s.started| <= |t.started|
      && Work(t.started[|s.started|..], f) == Number(t.started[|s.started|..], f) * cost
  {
    assert s.started[|s.started|..] == [];
    RunUniform(s, events, |s.started|, f, average, weight, cost);
    WorkOfEqual(Exec(s, events).started[|s.started|..], f, cost);
  }

  /** Weighted fairness.  Over any stretch of any run in which two flows both keep waiting, with steady averages
      and weights, the numbers of requests served to them are in inverse proportion to average over weight: each
      number times its quotient differs from the other by at most the sum of the largest cost tags. */
  lemma WeightedFairness(cap: nat, depth: nat, before: seq<Event>, events: seq<Event>, f: FlowId, g: FlowId,
                         largestF: nat, largestG: nat, averageF: nat, weightF: nat, costF: nat,
                         averageG: nat, weightG: nat, costG: nat)
    requires 1 <= cap
    requires Feasible(New(cap, depth), before + events)
    requires CostsAtMost(New(cap, depth), before + events, f, largestF)
    requires CostsAtMost(New(cap, depth), before + events, g, largestG)
    requires BothWaiting(Exec(New(cap, depth), before), events, f, g)
    requires SteadyFrom(Exec(New(cap, depth), before), events, f, averageF, weightF, costF)
    requires SteadyFrom(Exec(New(cap, depth), before), events, g, averageG, weightG, costG)
    ensures var s := Exec(New(cap, depth), before);
      var t := Exec(s, events);
      && s.started <= t.started
      && var served := t.started[|s.started|..];
         -(largestF + largestG) <= Number(served, f) * costF - Number(served, g) * costG <= largestF + largestG
  {
    var s := Exec(New(cap, depth), before);
    Fairness(cap, depth, before, events, f, g, largestF, largestG);
    NewInv(cap, depth);
    SplitRun(New(cap, depth), before, events, f, largestF);
    RunInv(New(cap, depth), before);
    SteadyWork(s, events, f, averageF, weightF, costF);
    SteadyWork(s, events, g, averageG, weightG, costG);
  }
}
