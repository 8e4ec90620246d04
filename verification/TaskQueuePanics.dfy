/**
  When the scheduler panics.  Its callers keep to one rule: a task whose guard is alive is not polled.

  A queue entry of an earlier life can take a running task back to waiting for its poll.  The task then
  has a guard but does not run, and dropping the guard panics.
  */
module TaskQueuePanics {
  import opened KeyedQueue
  import opened TaskQueue
  import opened TaskQueueOccupancy
  import opened TaskQueueClock

  predicate Disciplined(s: State, e: Event) {
    match e
    case Polled(id) => id !in s.guards
    case Dropped(id, _, _) => id in s.guards
    case Exited(_) => true
  }

  predicate AllDisciplined(s: State, events: seq<Event>)
    decreases |events|
  {
    events != [] ==> Disciplined(s, events[0]) && AllDisciplined(Step(s, events[0]), events[1..])
  }

  /** No id has two guards, and a running task has one. */
  ghost predicate Guarded(tasks: map<TaskId, Task>, guards: multiset<TaskId>) {
    && (forall id :: guards[id] <= 1)
    && (forall id :: id in tasks && tasks[id].state == Running ==> id in guards)
  }

  /** The tasks that have a guard but do not run. */
  function Stolen(tasks: map<TaskId, Task>, guards: multiset<TaskId>): set<TaskId> {
    set id | id in tasks && id in guards && tasks[id].state != Running
  }

  // ---- the scheduling loop

  predicate TakesRunning(s: State)
    requires s.ready != []
  {
    s.ready[0].value in s.tasks && s.tasks[s.ready[0].value].state == Running
  }

  /** The running tasks whose entries the loop takes. */
  function Steals(s: State): set<TaskId>
    decreases |s.ready|
  {
    if s.running < s.cores && s.ready != [] then
      (if TakesRunning(s) then {s.ready[0].value} else {}) + Steals(Pop(s))
    else {}
  }

  lemma PopStolen(s: State)
    requires s.ready != [] && Guarded(s.tasks, s.guards)
    ensures Guarded(Pop(s).tasks, Pop(s).guards)
    ensures Stolen(Pop(s).tasks, Pop(s).guards)
         == Stolen(s.tasks, s.guards) + if TakesRunning(s) then {s.ready[0].value} else {}
  {
  }

  lemma {:induction false} ScheduleStolen(s: State)
    requires Guarded(s.tasks, s.guards)
    ensures var t := Schedule(s);
      && Guarded(t.tasks, t.guards)
      && Stolen(t.tasks, t.guards) == Stolen(s.tasks, s.guards) + Steals(s)
      && t.panicked == s.panicked
    decreases |s.ready|
  {
    if s.running < s.cores && s.ready != [] {
      PopStolen(s);
      ScheduleStolen(Pop(s));
    }
  }

  // ---- the operations

  predicate Overflows(s: State, e: Event) {
    && e.Dropped? && e.id in s.tasks && s.tasks[e.id].state == Running
    && s.tasks[e.id].vruntime + VRuntime(e.actual, e.weight) > MAX
  }

  /** The running tasks whose entries the operation takes. */
  function StepSteals(s: State, e: Event): set<TaskId> {
    match e
    case Polled(id) =>
      var t := Opened(MaybeReset(s), id);
      if t.tasks[id].state == Idle then Steals(Enqueue(t, id)) else {}
    case Dropped(id, actual, weight) =>
      if id in s.tasks && s.tasks[id].state == Running then
        Steals(Parked(s.(guards := s.guards - multiset{id}), id, VRuntime(actual, weight)))
      else {}
    case Exited(id) =>
      if id in s.tasks && IsActive(s.tasks[id].state) then Steals(Removed(s, id)) else {}
  }

  function StolenIn(s: State): set<TaskId> {
    Stolen(s.tasks, s.guards)
  }

  ghost predicate GuardedIn(s: State) {
    Guarded(s.tasks, s.guards)
  }

  lemma OpenedStolen(s: State, id: TaskId)
    requires GuardedIn(s) && id !in s.guards
    ensures var t := Opened(MaybeReset(s), id);
      && GuardedIn(t) && StolenIn(t) == StolenIn(s)
      && t.guards == s.guards && t.panicked == s.panicked && t.tasks[id].state != Running
  {
    var r := MaybeReset(s);
    forall j ensures j in r.tasks <==> j in s.tasks
      ensures j in s.tasks ==> r.tasks[j].state == s.tasks[j].state
    {
    }
    assert StolenIn(r) == StolenIn(s);
    assert StolenIn(Opened(r, id)) == StolenIn(r);
  }

  lemma EnqueueStolen(s: State, id: TaskId)
    requires GuardedIn(s) && id in s.tasks && id !in s.guards
    ensures GuardedIn(Enqueue(s, id)) && StolenIn(Enqueue(s, id)) == StolenIn(s)
  {
  }

  lemma ResumeStolen(s: State, id: TaskId)
    requires GuardedIn(s) && id in s.tasks && id !in s.guards
    ensures var t := Resume(s, id);
      && t.panicked == s.panicked && GuardedIn(t)
      && StolenIn(t) == StolenIn(s) + if s.tasks[id].state == Idle then Steals(Enqueue(s, id)) else {}
  {
    match s.tasks[id].state
    case Idle =>
      EnqueueStolen(s, id);
      ScheduleStolen(Enqueue(s, id));
    case Ready =>
    case ToRun => assert StolenIn(Resume(s, id)) == StolenIn(s);
  }

  lemma PollStolen(s: State, id: TaskId)
    requires GuardedIn(s) && id !in s.guards
    ensures var t := Poll(s, id);
      t.panicked == s.panicked && GuardedIn(t) && StolenIn(t) == StolenIn(s) + StepSteals(s, Polled(id))
  {
    OpenedStolen(s, id);
    ResumeStolen(Opened(MaybeReset(s), id), id);
  }

  lemma ParkedStolen(s: State, id: TaskId, v: nat)
    requires GuardedIn(s) && id in s.tasks && s.tasks[id].state == Running
    ensures var t := Parked(s.(guards := s.guards - multiset{id}), id, v);
      GuardedIn(t) && StolenIn(t) == StolenIn(s) - {id} && t.panicked == s.panicked
  {
    assert s.guards[id] == 1;
  }

  lemma DropStolen(s: State, e: Event)
    requires GuardedIn(s) && !s.panicked && e.Dropped? && e.id in s.guards
    ensures Step(s, e).panicked <==> e.id in StolenIn(s) || Overflows(s, e)
    ensures !Step(s, e).panicked ==>
      GuardedIn(Step(s, e)) && StolenIn(Step(s, e)) == StolenIn(s) - {e.id} + StepSteals(s, e)
  {
    var v := VRuntime(e.actual, e.weight);
    if e.id !in s.tasks {
      assert s.guards[e.id] == 1;
      assert StolenIn(Step(s, e)) == StolenIn(s) - {e.id};
    } else if s.tasks[e.id].state == Running && !Overflows(s, e) {
      ParkedStolen(s, e.id, v);
      ScheduleStolen(Parked(s.(guards := s.guards - multiset{e.id}), e.id, v));
    }
  }

  lemma RemovedStolen(s: State, t: State, id: TaskId)
    requires GuardedIn(s) && t == s.(tasks := s.tasks - {id}, running := t.running)
    ensures GuardedIn(t) && StolenIn(t) == StolenIn(s) - {id}
  {
  }

  lemma ExitStolen(s: State, id: TaskId)
    requires GuardedIn(s)
    ensures var t := Exit(s, id);
      && t.panicked == s.panicked && GuardedIn(t)
      && StolenIn(t) == StolenIn(s) - {id} + StepSteals(s, Exited(id))
  {
    if id in s.tasks && IsActive(s.tasks[id].state) {
      RemovedStolen(s, Removed(s, id), id);
      ScheduleStolen(Removed(s, id));
      assert Exit(s, id) == Schedule(Removed(s, id));
    } else {
      if id !in s.tasks {
        assert s.tasks - {id} == s.tasks;
      }
      RemovedStolen(s, Exit(s, id), id);
    }
  }

  /** The task whose life or whose guard the event ends. */
  function Ended(e: Event): set<TaskId> {
    if e.Polled? then {} else {e.id}
  }

  predicate DropsOneOf(e: Event, ids: set<TaskId>) {
    e.Dropped? && e.id in ids
  }

  /** A disciplined call panics exactly when it drops the guard of a stolen task or overflows; only taking
      the entry of a running task steals, and only its exit or the drop of its guard ends that. */
  lemma StepPanicsIff(s: State, e: Event)
    requires GuardedIn(s) && !s.panicked && Disciplined(s, e)
    ensures Step(s, e).panicked <==> DropsOneOf(e, StolenIn(s)) || Overflows(s, e)
    ensures !Step(s, e).panicked ==>
      GuardedIn(Step(s, e)) && StolenIn(Step(s, e)) == StolenIn(s) - Ended(e) + StepSteals(s, e)
  {
    match e
    case Polled(id) =>
      PollStolen(s, id);
      assert StolenIn(s) - Ended(e) == StolenIn(s);
    case Dropped(_, _, _) => DropStolen(s, e);
    case Exited(id) => ExitStolen(s, id);
  }

  // ---- runs

  /** Some guard is dropped after an entry of its task was taken while the task was running, and before the
      task has exited; or some charge overflows.  `stolen` holds the tasks so taken. */
  predicate Doomed(s: State, stolen: set<TaskId>, events: seq<Event>)
    decreases |events|
  {
    events != [] &&
    (DropsOneOf(events[0], stolen) || Overflows(s, events[0])
     || Doomed(Step(s, events[0]), stolen - Ended(events[0]) + StepSteals(s, events[0]), events[1..]))
  }

  lemma {:induction false} PanicStays(s: State, events: seq<Event>)
    requires s.panicked
    ensures Exec(s, events) == s
    decreases |events|
  {
    if events != [] {
      PanicStays(s, events[1..]);
    }
  }

  lemma {:induction false} RunPanicsIff(s: State, events: seq<Event>)
    requires GuardedIn(s) && !s.panicked && AllDisciplined(s, events)
    ensures Exec(s, events).panicked <==> Doomed(s, StolenIn(s), events)
    decreases |events|
  {
    if events != [] {
      var t := Step(s, events[0]);
      StepPanicsIff(s, events[0]);
      if t.panicked {
        PanicStays(t, events[1..]);
      } else {
        RunPanicsIff(t, events[1..]);
      }
    }
  }

  /** Exactly when a scheduler panics whose callers do not poll a task that has a guard. */
  lemma PanicsIff(cores: nat, events: seq<Event>)
    requires AllDisciplined(New(cores), events)
    ensures Exec(New(cores), events).panicked <==> Doomed(New(cores), {}, events)
  {
    assert StolenIn(New(cores)) == {};
    RunPanicsIff(New(cores), events);
  }

  // ---- no stale entries, no panic

  lemma {:induction false} UniqueStealsNothing(s: State, c: nat)
    requires Occupied(s) && Unique(s) && Timely(s, c)
    ensures Steals(s) == {}
    decreases |s.ready|
  {
    if s.running < s.cores && s.ready != [] {
      PopTimely(s, c);
      PopOccupied(s);
      UniqueStealsNothing(Pop(s), c);
    }
  }

  lemma FreshPollStealsNothing(s: State, id: TaskId, c: nat)
    requires Exact(s, c) && Fresh(s, Polled(id))
    ensures StepSteals(s, Polled(id)) == {}
  {
    ResetTimely(s, c);
    OpenedTimely(MaybeReset(s), id, c);
    var t := Opened(MaybeReset(s), id);
    if t.tasks[id].state == Idle {
      EnqueueOccupied(t, id);
      EnqueueTimely(t, id, c);
      UniqueStealsNothing(Enqueue(t, id), c);
    }
  }

  lemma ParkStealsNothing(s: State, id: TaskId, v: nat, c: nat)
    requires Exact(s, c) && v <= c && id in s.tasks && s.tasks[id].state == Running
    ensures Steals(Parked(s, id, v)) == {}
  {
    ParkedOccupied(s, id, v);
    ParkedTimely(s, id, v, c);
    UniqueStealsNothing(Parked(s, id, v), c);
  }

  lemma ExitStealsNothing(s: State, id: TaskId, c: nat)
    requires Exact(s, c) && id in s.tasks && IsActive(s.tasks[id].state)
    ensures Steals(Removed(s, id)) == {}
  {
    RemovedOccupied(s, id);
    RemovedTimely(s, id, c);
    UniqueStealsNothing(Removed(s, id), c);
  }

  lemma FreshStealsNothing(s: State, e: Event, c: nat)
    requires Exact(s, c) && Fresh(s, e)
    requires e.Dropped? ==> VRuntime(e.actual, e.weight) <= c
    ensures StepSteals(s, e) == {}
  {
    match e
    case Polled(id) => FreshPollStealsNothing(s, id, c);
    case Dropped(id, actual, weight) =>
      if id in s.tasks && s.tasks[id].state == Running {
        ParkStealsNothing(s.(guards := s.guards - multiset{id}), id, VRuntime(actual, weight), c);
      }
    case Exited(id) =>
      if id in s.tasks && IsActive(s.tasks[id].state) {
        ExitStealsNothing(s, id, c);
      }
  }

  lemma ExactFits(s: State, e: Event, c: nat)
    requires Exact(s, c) && HALF + 2 * c <= MAX
    requires e.Dropped? ==> VRuntime(e.actual, e.weight) <= c
    ensures !Overflows(s, e)
  {
  }

  lemma {:induction false} NotDoomed(s: State, events: seq<Event>, c: nat)
    requires Exact(s, c) && AllFresh(s, events) && CostsAtMost(events, c) && HALF + 2 * c <= MAX
    ensures !Doomed(s, {}, events)
    decreases |events|
  {
    if events != [] {
      FreshStealsNothing(s, events[0], c);
      ExactFits(s, events[0], c);
      StepExact(s, events[0], c);
      assert {} - Ended(events[0]) + StepSteals(s, events[0]) == {};
      NotDoomed(Step(s, events[0]), events[1..], c);
    }
  }

  /** Callers that do not poll a task that has a guard, do not bring an id back while an entry of its
      previous life is queued, and charge at most c per run, never see a panic. */
  lemma NeverPanics(cores: nat, events: seq<Event>, c: nat)
    requires AllDisciplined(New(cores), events) && AllFresh(New(cores), events) && CostsAtMost(events, c)
    requires c <= 0x4000_0000_0000_0000_0000_0000_0000_0000
    ensures !Exec(New(cores), events).panicked
  {
    NewInv(cores);
    NotDoomed(New(cores), events, c);
    PanicsIff(cores, events);
  }
}
