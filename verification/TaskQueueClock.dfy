/**
  Runs in which no id comes back while an entry of its previous life is queued: the occupancy count
  is exact and the virtual clock never overflows, resets included.
  */
module TaskQueueClock {
  import opened KeyedQueue
  import opened TaskQueue
  import opened TaskQueueOccupancy

  /** An entry is the only one of its id, and its task, if it still exists, is waiting for it. */
  ghost predicate Unique(s: State) {
    && (forall i, j :: 0 <= i < j < |s.ready| ==> s.ready[i].value != s.ready[j].value)
    && (forall i :: 0 <= i < |s.ready| && s.ready[i].value in s.tasks ==> s.tasks[s.ready[i].value].state == Ready)
  }

  /** Virtual times, when no run is charged more than `c`. */
  ghost predicate Timely(s: State, c: nat) {
    && s.clock <= HALF + c
    && (forall i :: 0 <= i < |s.ready| ==> s.clock <= s.ready[i].key <= HALF + c)
    && (forall id :: id in s.tasks ==> s.tasks[id].vruntime <= s.clock + c)
    && (forall id :: id in s.tasks && IsActive(s.tasks[id].state) ==> s.tasks[id].vruntime <= s.clock)
    && (forall i :: 0 <= i < |s.ready| && s.ready[i].value in s.tasks ==>
          s.tasks[s.ready[i].value].vruntime <= s.ready[i].key)
  }

  ghost predicate Exact(s: State, c: nat) {
    && Inv(s) && Unique(s) && Timely(s, c) && Leak(s) == 0
  }

  // ---- the scheduling loop

  lemma PopTimely(s: State, c: nat)
    requires Ordered(s.ready) && Unique(s) && Timely(s, c) && s.ready != []
    ensures Unique(Pop(s)) && Timely(Pop(s), c) && Leak(Pop(s)) == Leak(s)
    ensures s.clock <= Pop(s).clock
  {
    PopLeaksIff(s);
    var t := Pop(s);
    forall i | 0 <= i < |t.ready| ensures t.ready[i] == s.ready[i + 1] {
    }
  }

  lemma {:induction false} ScheduleTimely(s: State, c: nat)
    requires Occupied(s) && Unique(s) && Timely(s, c)
    ensures Unique(Schedule(s)) && Timely(Schedule(s), c) && Leak(Schedule(s)) == Leak(s)
    ensures s.clock <= Schedule(s).clock
    decreases |s.ready|
  {
    if s.running < s.cores && s.ready != [] {
      PopTimely(s, c);
      PopOccupied(s);
      ScheduleTimely(Pop(s), c);
    }
  }

  // ---- the operations

  /** After a reset every waiting key is still where it was: more than half the range ahead. */
  lemma ResetTimely(s: State, c: nat)
    requires Exact(s, c)
    ensures Exact(MaybeReset(s), c) && MaybeReset(s).clock <= HALF
  {
    ResetInv(s);
  }

  lemma EnqueueUnique(s: State, id: TaskId)
    requires Unique(s) && id in s.tasks && s.tasks[id].state == Idle
    ensures Unique(Enqueue(s, id))
  {
    var t := Enqueue(s, id);
    var e := Entry(Max(s.tasks[id].vruntime, s.clock), id);
    assert forall i :: 0 <= i < |s.ready| ==> s.ready[i].value != id;
    forall i, j | 0 <= i < j < |t.ready| ensures t.ready[i].value != t.ready[j].value {
      InsertAt(s.ready, e, i);
      InsertAt(s.ready, e, j);
    }
    forall i | 0 <= i < |t.ready| && t.ready[i].value in t.tasks ensures t.tasks[t.ready[i].value].state == Ready {
      InsertAt(s.ready, e, i);
    }
  }

  lemma EnqueueTimely(s: State, id: TaskId, c: nat)
    requires Unique(s) && Timely(s, c) && s.clock <= HALF && id in s.tasks && s.tasks[id].state == Idle
    ensures Unique(Enqueue(s, id)) && Timely(Enqueue(s, id), c)
  {
    EnqueueUnique(s, id);
    var t := Enqueue(s, id);
    var e := Entry(Max(s.tasks[id].vruntime, s.clock), id);
    InsertMembers(s.ready, e);
    assert forall i :: 0 <= i < |s.ready| ==> s.ready[i].value != id;
    forall i | 0 <= i < |t.ready|
      ensures s.clock <= t.ready[i].key <= HALF + c
      ensures t.ready[i].value in t.tasks ==> t.tasks[t.ready[i].value].vruntime <= t.ready[i].key
    {
      assert t.ready[i] in t.ready;
      if t.ready[i] != e {
        var k :| 0 <= k < |s.ready| && s.ready[k] == t.ready[i];
      }
    }
  }

  lemma ResumeTimely(s: State, id: TaskId, c: nat)
    requires Exact(s, c) && s.clock <= HALF && id in s.tasks
    ensures Exact(Resume(s, id), c)
  {
    ResumeInv(s, id);
    match s.tasks[id].state
    case Idle =>
      EnqueueOccupied(s, id);
      EnqueueTimely(s, id, c);
      ScheduleTimely(Enqueue(s, id), c);
    case Ready =>
    case ToRun =>
      ActiveUpdate(s.tasks, id, s.tasks[id].(state := Running));
      assert Active(Resume(s, id).tasks) == Active(s.tasks);
    case Running =>
  }

  lemma OpenedInv(s: State, id: TaskId)
    requires Inv(s)
    ensures Inv(Opened(s, id)) && Leak(Opened(s, id)) == Leak(s)
  {
    if id !in s.tasks {
      ActiveUpdate(s.tasks, id, Task(Idle, s.clock));
      assert Active(Opened(s, id).tasks) == Active(s.tasks);
    }
  }

  lemma OpenedTimely(s: State, id: TaskId, c: nat)
    requires Exact(s, c) && (id !in s.tasks ==> !Queued(s.ready, id))
    ensures Exact(Opened(s, id), c)
  {
    OpenedInv(s, id);
    if id !in s.tasks {
      forall i | 0 <= i < |s.ready| ensures s.ready[i].value != id {
      }
      assert Unique(Opened(s, id));
    }
  }

  lemma ParkedTimely(s: State, id: TaskId, v: nat, c: nat)
    requires Unique(s) && Timely(s, c) && v <= c
    requires id in s.tasks && s.tasks[id].state == Running
    ensures Unique(Parked(s, id, v)) && Timely(Parked(s, id, v), c)
  {
    assert forall i :: 0 <= i < |s.ready| ==> s.ready[i].value != id;
  }

  lemma ParkTimely(s: State, id: TaskId, v: nat, c: nat)
    requires Exact(s, c) && Max(v, 1) <= c
    ensures Exact(Park(s, id, v), c)
  {
    ParkInv(s, id, v);
    if id in s.tasks && s.tasks[id].state == Running {
      ParkedOccupied(s, id, Max(v, 1));
      ParkedTimely(s, id, Max(v, 1), c);
      ScheduleTimely(Parked(s, id, Max(v, 1)), c);
    }
  }

  lemma RemovedTimely(s: State, id: TaskId, c: nat)
    requires Unique(s) && Timely(s, c)
    ensures Unique(s.(tasks := s.tasks - {id})) && Timely(s.(tasks := s.tasks - {id}), c)
  {
  }

  lemma ExitIdleTimely(s: State, id: TaskId, c: nat)
    requires Exact(s, c) && id in s.tasks && !IsActive(s.tasks[id].state)
    ensures Leak(Exit(s, id)) == 0 && Unique(Exit(s, id)) && Timely(Exit(s, id), c)
  {
    var t := s.(tasks := s.tasks - {id});
    RemovedTimely(s, id, c);
    ActiveRemove(s.tasks, id);
    assert Active(t.tasks) == Active(s.tasks);
  }

  lemma ExitActiveTimely(s: State, id: TaskId, c: nat)
    requires Exact(s, c) && id in s.tasks && IsActive(s.tasks[id].state)
    ensures Leak(Exit(s, id)) == 0 && Unique(Exit(s, id)) && Timely(Exit(s, id), c)
  {
    RemovedTimely(s, id, c);
    RemovedOccupied(s, id);
    ScheduleTimely(s.(tasks := s.tasks - {id}, running := s.running - 1), c);
  }

  lemma ExitTimely(s: State, id: TaskId, c: nat)
    requires Exact(s, c)
    ensures Exact(Exit(s, id), c)
  {
    ExitInv(s, id);
    if id in s.tasks {
      if IsActive(s.tasks[id].state) {
        ExitActiveTimely(s, id, c);
      } else {
        ExitIdleTimely(s, id, c);
      }
    }
  }

  lemma StepExact(s: State, e: Event, c: nat)
    requires Exact(s, c) && Fresh(s, e)
    requires e.Dropped? ==> VRuntime(e.actual, e.weight) <= c
    ensures Exact(Step(s, e), c)
  {
    match e
    case Polled(id) =>
      ResetTimely(s, c);
      OpenedTimely(MaybeReset(s), id, c);
      ResumeTimely(Opened(MaybeReset(s), id), id, c);
    case Dropped(id, actual, weight) =>
      ParkTimely(s.(guards := s.guards - multiset{id}), id, VRuntime(actual, weight), c);
    case Exited(id) => ExitTimely(s, id, c);
  }

  lemma {:induction false} RunExact(s: State, events: seq<Event>, c: nat)
    requires Exact(s, c) && AllFresh(s, events) && CostsAtMost(events, c)
    ensures Exact(Exec(s, events), c)
    decreases |events|
  {
    if events != [] {
      StepExact(s, events[0], c);
      RunExact(Step(s, events[0]), events[1..], c);
    }
  }

  /** Occupancy is exact, and with runs charged at most c <= 2^126 no run of the scheduler, however
      long and however often the clock is reset, can make the addition in `Park` overflow. */
  lemma ClockNeverOverflows(cores: nat, events: seq<Event>, c: nat)
    requires AllFresh(New(cores), events) && CostsAtMost(events, c)
    requires c <= 0x4000_0000_0000_0000_0000_0000_0000_0000
    ensures var s := Exec(New(cores), events);
      && s.running == |Active(s.tasks)|
      && s.clock <= HALF + c
      && (forall id :: id in s.tasks ==> s.tasks[id].vruntime <= s.clock + c)
      && (forall id :: id in s.tasks && IsActive(s.tasks[id].state) ==>
            s.tasks[id].vruntime <= s.clock && s.tasks[id].vruntime + c <= MAX)
  {
    NewInv(cores);
    RunExact(New(cores), events, c);
  }

  // ---- what a reset and a turn do to the clock

  /** How far a task is ahead of the clock. */
  function Lead(s: State, id: TaskId): nat
    requires id in s.tasks
  {
    if s.tasks[id].vruntime < s.clock then 0 else s.tasks[id].vruntime - s.clock
  }

  /** A reset puts the clock to zero if it is past half the range, and leaves every task as far ahead of the clock
      as it was and in the state it was in. */
  lemma ResetKeepsLeads(s: State, id: TaskId)
    requires id in s.tasks
    ensures var t := MaybeReset(s);
      && t.clock == (if s.clock > HALF then 0 else s.clock)
      && t.tasks.Keys == s.tasks.Keys && t.tasks[id].state == s.tasks[id].state && Lead(t, id) == Lead(s, id)
  {
  }

  /** The key of the last entry that was given a core. */
  function LastKey(dispatched: seq<Entry<TaskId>>): nat {
    if dispatched == [] then 0 else dispatched[|dispatched| - 1].key
  }

  lemma {:induction false} ScheduleShows(s: State)
    ensures var t := Schedule(s);
      && s.dispatched <= t.dispatched
      && (if |t.dispatched| == |s.dispatched| then t.clock == s.clock else t.clock == LastKey(t.dispatched))
    decreases |s.ready|
  {
    if s.running < s.cores && s.ready != [] {
      ScheduleShows(Pop(s));
    }
  }

  /** The clock only moves to the key of an entry that is given a core, or to zero at a reset. */
  lemma StepShows(s: State, e: Event)
    ensures var t := Step(s, e);
      && s.dispatched <= t.dispatched
      && t.clock == (if |t.dispatched| > |s.dispatched| then LastKey(t.dispatched)
                     else if !s.panicked && e.Polled? && s.clock > HALF then 0 else s.clock)
  {
    match e
    case Polled(id) =>
      var t := Opened(MaybeReset(s), id);
      if t.tasks[id].state == Idle {
        ScheduleShows(Enqueue(t, id));
      }
    case Dropped(id, actual, weight) =>
      if id in s.tasks {
        ScheduleShows(Parked(s.(guards := s.guards - multiset{id}), id, VRuntime(actual, weight)));
      }
    case Exited(id) => ScheduleShows(Removed(s, id));
  }

}
