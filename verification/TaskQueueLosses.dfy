/** Exactly how many cores are lost: one for every entry that is taken while its task has a core already. */
module TaskQueueLosses {
  import opened KeyedQueue
  import opened TaskQueue
  import opened TaskQueueOccupancy

  predicate TakesActive(s: State)
    requires s.ready != []
  {
    s.ready[0].value in s.tasks && IsActive(s.tasks[s.ready[0].value].state)
  }

  /** How many entries of tasks that have a core the scheduling loop takes. */
  function Losses(s: State): nat
    decreases |s.ready|
  {
    if s.running < s.cores && s.ready != [] then (if TakesActive(s) then 1 else 0) + Losses(Pop(s)) else 0
  }

  lemma {:induction false} ScheduleLosses(s: State)
    ensures Leak(Schedule(s)) == Leak(s) + Losses(s)
    decreases |s.ready|
  {
    if s.running < s.cores && s.ready != [] {
      PopLeaksIff(s);
      ScheduleLosses(Pop(s));
    }
  }

  // ---- the operations

  /** A charge is taken and its core passed on. */
  predicate Parks(s: State, e: Event) {
    && e.Dropped? && e.id in s.tasks && s.tasks[e.id].state == Running
    && s.tasks[e.id].vruntime + VRuntime(e.actual, e.weight) <= MAX
  }

  /** How many entries of tasks that have a core the operation takes. */
  function StepLosses(s: State, e: Event): nat {
    if s.panicked then 0
    else match e
      case Polled(id) =>
        var t := Opened(MaybeReset(s), id);
        if t.tasks[id].state == Idle then Losses(Enqueue(t, id)) else 0
      case Dropped(id, actual, weight) =>
        if Parks(s, e) then Losses(Parked(s.(guards := s.guards - multiset{id}), id, VRuntime(actual, weight))) else 0
      case Exited(id) =>
        if id in s.tasks && IsActive(s.tasks[id].state) then Losses(Removed(s, id)) else 0
  }

  lemma OpenedLeak(s: State, id: TaskId)
    ensures Leak(Opened(MaybeReset(s), id)) == Leak(s)
  {
    var t := MaybeReset(s);
    assert Active(t.tasks) == Active(s.tasks);
    assert Active(Opened(t, id).tasks) == Active(t.tasks);
  }

  lemma ResumeLosses(s: State, id: TaskId)
    requires id in s.tasks
    ensures Leak(Resume(s, id)) == Leak(s) + if s.tasks[id].state == Idle then Losses(Enqueue(s, id)) else 0
  {
    match s.tasks[id].state
    case Idle =>
      assert Active(Enqueue(s, id).tasks) == Active(s.tasks);
      ScheduleLosses(Enqueue(s, id));
    case Ready =>
    case ToRun => assert Active(Resume(s, id).tasks) == Active(s.tasks);
    case Running =>
  }

  lemma ParkedLeak(s: State, id: TaskId, v: nat)
    requires id in s.tasks && s.tasks[id].state == Running
    ensures Leak(Parked(s, id, v)) == Leak(s)
  {
    assert id in Active(s.tasks);
    assert Active(Parked(s, id, v).tasks) == Active(s.tasks) - {id};
  }

  lemma DropLosses(s: State, e: Event)
    requires e.Dropped? && !s.panicked
    ensures Leak(Step(s, e)) == Leak(s) + StepLosses(s, e)
  {
    if Parks(s, e) {
      var t, v := s.(guards := s.guards - multiset{e.id}), VRuntime(e.actual, e.weight);
      ParkedLeak(t, e.id, v);
      ScheduleLosses(Parked(t, e.id, v));
    }
  }

  lemma ExitLosses(s: State, id: TaskId)
    ensures Leak(Exit(s, id)) == Leak(s) + if id in s.tasks && IsActive(s.tasks[id].state) then Losses(Removed(s, id)) else 0
  {
    if id in s.tasks {
      ActiveRemove(s.tasks, id);
      if IsActive(s.tasks[id].state) {
        assert id in Active(s.tasks);
        ScheduleLosses(Removed(s, id));
      } else {
        assert Active(s.tasks) - {id} == Active(s.tasks);
      }
    }
  }

  /** A call loses exactly as many cores as it takes entries of tasks that have one. */
  lemma StepLeaks(s: State, e: Event)
    ensures Leak(Step(s, e)) == Leak(s) + StepLosses(s, e)
  {
    if !s.panicked {
      match e
      case Polled(id) =>
        OpenedLeak(s, id);
        ResumeLosses(Opened(MaybeReset(s), id), id);
      case Dropped(_, _, _) => DropLosses(s, e);
      case Exited(id) => ExitLosses(s, id);
    }
  }

  function RunLosses(s: State, events: seq<Event>): nat
    decreases |events|
  {
    if events == [] then 0 else StepLosses(s, events[0]) + RunLosses(Step(s, events[0]), events[1..])
  }

  lemma {:induction false} RunLeaks(s: State, events: seq<Event>)
    ensures Leak(Exec(s, events)) == Leak(s) + RunLosses(s, events)
    decreases |events|
  {
    if events != [] {
      StepLeaks(s, events[0]);
      RunLeaks(Step(s, events[0]), events[1..]);
    }
  }

  /** In every run of a new scheduler, the cores counted as taken are the active tasks and one more for every
      entry that was taken while its task had a core already. */
  lemma CoresTaken(cores: nat, events: seq<Event>)
    ensures var s := Exec(New(cores), events);
      s.running == |Active(s.tasks)| + RunLosses(New(cores), events)
  {
    NewInv(cores);
    RunLeaks(New(cores), events);
  }
}
