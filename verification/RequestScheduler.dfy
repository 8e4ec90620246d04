/** The locked scheduler itself: fields updated in place, each method proved against `FairQueue`. */
module RequestScheduler {
  import opened KeyedQueue
  import FQ = FairQueue

  class SchedulerInner {
    var flows: map<FQ.FlowId, FQ.Flow>
    var backlog: seq<FQ.Request>
    const backlogCap: nat
    const depth: nat
    var serving: int
    var virtualTime: nat
    var counters: FQ.Counters
    // What the callers have been given: see `FairQueue`.
    ghost var started: seq<FQ.Request>
    ghost var guards: multiset<FQ.FlowId>

    ghost function State(): FQ.State
      reads this
    {
      FQ.State(flows, backlog, backlogCap, depth, serving, virtualTime, counters, started, guards)
    }

    constructor (backlogCap: nat, depth: nat)
      ensures State() == FQ.New(backlogCap, depth)
    {
      flows, backlog, serving, virtualTime := map[], [], 0, 0;
      counters := FQ.NO_COUNTERS;
      this.backlogCap, this.depth := backlogCap, depth;
      started, guards := [], multiset{};
    }

    method Acquire(flow: FQ.FlowId, weight: nat, now: nat) returns (outcome: FQ.Outcome)
      modifies this
      ensures outcome == FQ.Acquire(old(State()), flow, weight, now).1
      ensures outcome != FQ.Panicked ==> State() == FQ.Acquire(old(State()), flow, weight, now).0
      ensures outcome == FQ.Panicked <==> old(backlog) == [] && backlogCap == 0
    {
      var startTag, cost := Tag(flow, weight, now);
      if |backlog| >= backlogCap {
        if backlog == [] {
          return FQ.Panicked;
        }
        if startTag >= backlog[|backlog| - 1].key {
          RejectNewcomer(flow, cost);
          return FQ.Overloaded;
        }
        EvictLast();
      }
      outcome := Place(Entry(startTag, FQ.Job(flow, cost)));
    }

    /** Tags and counts a newcomer. */
    method Tag(flow: FQ.FlowId, weight: nat, now: nat) returns (startTag: nat, cost: nat)
      modifies this`flows, this`counters
      ensures startTag == FQ.NextStart(old(State()), flow) && cost == FQ.Charge(old(State()), flow, weight)
      ensures State() == FQ.Tagged(old(State()), flow, cost, now)
    {
      var record := if flow in flows then flows[flow] else FQ.Flow(0, 0, now, FQ.NO_COUNTERS);
      startTag := FQ.Max(virtualTime, record.finish);
      cost := record.average / FQ.Max(weight, 1);
      cost := FQ.Max(cost, 1);
      record := record.(finish := startTag + cost, counters := FQ.CountTotal(record.counters));
      flows := flows[flow := record];
      counters := FQ.CountTotal(counters);
    }

    method RejectNewcomer(flow: FQ.FlowId, cost: nat)
      requires flow in flows
      modifies this`flows, this`counters
      ensures State() == FQ.Reject(old(State()), flow, cost)
    {
      var record := flows[flow];
      record := record.(finish := record.finish - cost, counters := FQ.CountDropped(record.counters));
      flows := flows[flow := record];
      counters := FQ.CountDropped(counters);
      assert flows == FQ.Reject(old(State()), flow, cost).flows;
    }

    /** Drops the lowest-priority request; this cancels its caller. */
    method EvictLast()
      requires backlog != []
      modifies this
      ensures State() == FQ.Evict(old(State()))
    {
      var job := backlog[|backlog| - 1].value;
      backlog := backlog[..|backlog| - 1];
      if job.flow in flows {
        var victim := flows[job.flow];
        victim := victim.(finish := victim.finish - job.cost, counters := FQ.CountDropped(victim.counters));
        flows := flows[job.flow := victim];
        counters := FQ.CountDropped(counters);
        assert flows == FQ.Evict(old(State())).flows;
      }
    }

    method Place(request: FQ.Request) returns (outcome: FQ.Outcome)
      modifies this
      ensures (State(), outcome) == FQ.Place(old(State()), request)
    {
      if serving < depth {
        Dispatch(request);
        outcome := FQ.Started;
      } else {
        backlog := Insert(backlog, request);
        outcome := FQ.Queued;
      }
    }

    method Release(flow: FQ.FlowId, actualCost: nat)
      modifies this
      ensures State() == FQ.Release(old(State()), flow, actualCost)
    {
      Charge(flow, actualCost);
      serving := serving - 1;
      guards := guards - multiset{flow};
      assert State() == FQ.Vacated(FQ.Charged(old(State()), flow, actualCost), flow);
      TryPickupNext();
    }

    method Charge(flow: FQ.FlowId, actualCost: nat)
      modifies this
      ensures State() == FQ.Charged(old(State()), flow, actualCost)
    {
      if flow in flows {
        var record := flows[flow];
        record := record.(average := FQ.Averaged(record.average, actualCost),
                          counters := FQ.Clocked(record.counters, actualCost));
        flows := flows[flow := record];
      }
      counters := FQ.Clocked(counters, actualCost);
    }

    method TryPickupNext()
      modifies this
      ensures State() == FQ.TryPickupNext(old(State()))
    {
      if backlog != [] {
        var request := backlog[0];
        backlog := backlog[1..];
        Dispatch(request);
      }
    }

    method Dispatch(request: FQ.Request)
      modifies this
      ensures State() == FQ.Dispatch(old(State()), request)
    {
      serving := serving + 1;
      virtualTime := request.key;
      started := started + [request];
      guards := guards + multiset{request.value.flow};
    }

    method PurgeInactiveFlows(now: nat, age: nat)
      modifies this
      ensures State() == FQ.Purge(old(State()), now, age)
    {
      flows := map f | f in flows && FQ.Young(flows[f], now, age) :: flows[f];
    }
  }
}
