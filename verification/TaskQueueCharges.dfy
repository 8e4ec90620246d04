/** What a weight does: a run is charged its cost divided by the task's weight. */
module TaskQueueCharges {
  import opened KeyedQueue
  import opened TaskQueue
  import opened TaskQueueClock
  import opened TaskQueueLag
  import opened Quotients

  lemma VRuntimeDivides(actual: nat, weight: nat)
    ensures Divides(actual, weight, VRuntime(actual, weight))
  {
    DivisionDivides(actual, weight);
  }

  lemma {:induction false} ScheduleKeepsRuntimes(s: State)
    ensures Schedule(s).tasks.Keys == s.tasks.Keys
    ensures forall id :: id in s.tasks ==> Schedule(s).tasks[id].vruntime == s.tasks[id].vruntime
    decreases |s.ready|
  {
    if s.running < s.cores && s.ready != [] {
      ScheduleKeepsRuntimes(Pop(s));
    }
  }

  /** The end of a run raises the task's virtual runtime by the run's cost divided by the weight, and no other
      task's. */
  lemma ChargedByWeight(s: State, id: TaskId, actual: nat, weight: nat)
    requires !s.panicked && id in s.tasks && s.tasks[id].state == Running
    requires !Step(s, Dropped(id, actual, weight)).panicked
    ensures var t := Step(s, Dropped(id, actual, weight));
      && t.tasks.Keys == s.tasks.Keys
      && Divides(actual, weight, t.tasks[id].vruntime - s.tasks[id].vruntime)
      && (forall other :: other in s.tasks && other != id ==> t.tasks[other].vruntime == s.tasks[other].vruntime)
  {
    var v, r := VRuntime(actual, weight), s.(guards := s.guards - multiset{id});
    VRuntimeDivides(actual, weight);
    ScheduleKeepsRuntimes(Parked(r, id, v));
    assert !Park(r, id, v).panicked;
  }

  /** Every run of the task costs at least `least` times its weight. */
  predicate RunsCost(events: seq<Event>, id: TaskId, least: nat) {
    forall i :: 0 <= i < |events| && events[i].Dropped? && events[i].id == id ==>
      least * (if events[i].weight == 0 then 1 else events[i].weight) <= events[i].actual
  }

  /** No starvation, by weight.  Over a stretch as in `NoStarvation`, the number of turns of a task whose runs
      cost at least `least` times its weight, times `least`, is at most e.key - clock + least: twice the weight
      allows twice the cost for the same number of turns. */
  lemma WeightedTurns(cores: nat, before: seq<Event>, events: seq<Event>, e: Entry<TaskId>, id: TaskId, c: nat,
                      least: nat)
    requires AllFresh(New(cores), before + events) && NoReset(New(cores), before + events)
    requires CostsAtMost(before + events, c) && RunsCost(events, id, least)
    requires Waits(Exec(New(cores), before), events, e) && Exited(id) !in events
    ensures var s := Exec(New(cores), before);
      var t := Exec(s, events);
      least * Count(t.dispatched, id) - least * Count(s.dispatched, id) <= e.key - s.clock + least
  {
    forall i | 0 <= i < |events| && events[i].Dropped? && events[i].id == id
      ensures least <= VRuntime(events[i].actual, events[i].weight)
    {
      VRuntimeDivides(events[i].actual, events[i].weight);
      QuotientAtLeast(events[i].actual, events[i].weight, VRuntime(events[i].actual, events[i].weight), least);
    }
    var s := Exec(New(cores), before);
    TurnsBound(cores, before, events, e, id, c, least);
    TallyIsProduct(s.dispatched, id, least);
    TallyIsProduct(Exec(s, events).dispatched, id, least);
  }
}
