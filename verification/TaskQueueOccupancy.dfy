/** Core occupancy: in every run of the scheduler no core idles while a task waits. */
module TaskQueueOccupancy {
  import opened KeyedQueue
  import opened TaskQueue

  function Active(tasks: map<TaskId, Task>): set<TaskId> {
    set id | id in tasks && IsActive(tasks[id].state)
  }

  /** Cores that are counted as taken although no task has them. */
  function Leak(s: State): int {
    s.running - |Active(s.tasks)|
  }

  ghost predicate Occupied(s: State) {
    && Ordered(s.ready)
    && 0 <= Leak(s) && s.running <= s.cores
    && (forall id :: id in s.tasks && s.tasks[id].state == Ready ==> Queued(s.ready, id))
  }

  /** No core idles while an entry waits. */
  ghost predicate Busy(s: State) {
    s.ready != [] ==> s.running == s.cores
  }

  ghost predicate Inv(s: State) {
    Occupied(s) && Busy(s)
  }

  // ---- counting active tasks

  lemma ActiveUpdate(tasks: map<TaskId, Task>, id: TaskId, task: Task)
    ensures Active(tasks[id := task])
         == if IsActive(task.state) then Active(tasks) + {id} else Active(tasks) - {id}
  {
  }

  lemma ActiveRemove(tasks: map<TaskId, Task>, id: TaskId)
    ensures Active(tasks - {id}) == Active(tasks) - {id}
  {
  }

  lemma {:induction false} QueuedTail(q: seq<Entry<TaskId>>, id: TaskId)
    requires q != []
    ensures Queued(q, id) <==> q[0].value == id || Queued(q[1..], id)
  {
    if i :| 0 <= i < |q| && q[i].value == id {
      assert i > 0 ==> q[1..][i - 1].value == id;
    }
    if i :| 0 <= i < |q[1..]| && q[1..][i].value == id {
      assert q[i + 1].value == id;
    }
  }

  lemma QueuedInsert(q: seq<Entry<TaskId>>, e: Entry<TaskId>, id: TaskId)
    ensures Queued(Insert(q, e), id) <==> e.value == id || Queued(q, id)
  {
    InsertMembers(q, e);
    if Queued(Insert(q, e), id) {
      var i :| 0 <= i < |Insert(q, e)| && Insert(q, e)[i].value == id;
      assert Insert(q, e)[i] in Insert(q, e);
    }
    if i :| 0 <= i < |q| && q[i].value == id {
      assert q[i] in Insert(q, e);
    }
    assert e in Insert(q, e);
  }

  // ---- one entry taken

  /** A core is lost exactly when the entry taken belongs to a task that already has a core. */
  lemma PopLeaksIff(s: State)
    requires s.ready != []
    ensures Leak(s) <= Leak(Pop(s)) <= Leak(s) + 1
    ensures Leak(Pop(s)) == Leak(s) + 1
      <==> s.ready[0].value in s.tasks && IsActive(s.tasks[s.ready[0].value].state)
  {
    var id := s.ready[0].value;
    if id in s.tasks {
      ActiveUpdate(s.tasks, id, s.tasks[id].(state := ToRun));
      assert id in Active(s.tasks) ==> Active(s.tasks) + {id} == Active(s.tasks);
    }
  }

  lemma PopOccupied(s: State)
    requires Occupied(s) && s.ready != [] && s.running < s.cores
    ensures Occupied(Pop(s))
  {
    PopLeaksIff(s);
    forall id | id in Pop(s).tasks && Pop(s).tasks[id].state == Ready ensures Queued(s.ready[1..], id) {
      QueuedTail(s.ready, id);
    }
  }

  lemma {:induction false} ScheduleInv(s: State)
    requires Occupied(s)
    ensures Inv(Schedule(s)) && Leak(s) <= Leak(Schedule(s))
    ensures Schedule(s).cores == s.cores && Schedule(s).panicked == s.panicked
    decreases |s.ready|
  {
    if s.running < s.cores && s.ready != [] {
      PopOccupied(s);
      PopLeaksIff(s);
      ScheduleInv(Pop(s));
    }
  }

  // ---- the operations

  lemma NewInv(cores: nat)
    ensures Inv(New(cores)) && Leak(New(cores)) == 0
  {
    assert Active(map[]) == {};
  }

  lemma ResetInv(s: State)
    requires Inv(s)
    ensures Inv(MaybeReset(s)) && Leak(MaybeReset(s)) == Leak(s)
  {
    assert Active(MaybeReset(s).tasks) == Active(s.tasks);
  }

  lemma EnqueueOccupied(s: State, id: TaskId)
    requires Inv(s) && id in s.tasks && s.tasks[id].state == Idle
    ensures Occupied(Enqueue(s, id)) && Leak(Enqueue(s, id)) == Leak(s)
  {
    var t := Enqueue(s, id);
    var e := Entry(t.tasks[id].vruntime, id);
    ActiveUpdate(s.tasks, id, t.tasks[id]);
    assert Active(t.tasks) == Active(s.tasks);
    InsertKeepsOrder(s.ready, e);
    forall j | j in t.tasks && t.tasks[j].state == Ready ensures Queued(t.ready, j) {
      QueuedInsert(s.ready, e, j);
    }
  }

  lemma ResumeInv(s: State, id: TaskId)
    requires Inv(s) && id in s.tasks
    ensures Inv(Resume(s, id)) && Leak(s) <= Leak(Resume(s, id))
  {
    match s.tasks[id].state
    case Idle =>
      EnqueueOccupied(s, id);
      ScheduleInv(Enqueue(s, id));
    case Ready =>
    case ToRun =>
      ActiveUpdate(s.tasks, id, s.tasks[id].(state := Running));
      assert Active(Resume(s, id).tasks) == Active(s.tasks);
    case Running =>
  }

  lemma PollInv(s: State, id: TaskId)
    requires Inv(s)
    ensures Inv(Poll(s, id)) && Leak(s) <= Leak(Poll(s, id))
  {
    ResetInv(s);
    var t := MaybeReset(s);
    ActiveUpdate(t.tasks, id, Task(Idle, t.clock));
    assert id !in t.tasks ==> Active(Opened(t, id).tasks) == Active(t.tasks);
    ResumeInv(Opened(t, id), id);
  }

  lemma ParkedOccupied(s: State, id: TaskId, v: nat)
    requires Inv(s) && id in s.tasks && s.tasks[id].state == Running
    ensures Occupied(Parked(s, id, v)) && Leak(Parked(s, id, v)) == Leak(s)
  {
    ActiveUpdate(s.tasks, id, Task(Idle, s.tasks[id].vruntime + v));
    assert id in Active(s.tasks);
  }

  lemma ParkInv(s: State, id: TaskId, vruntime: nat)
    requires Inv(s)
    ensures Inv(Park(s, id, vruntime)) && Leak(s) <= Leak(Park(s, id, vruntime))
  {
    if id in s.tasks && s.tasks[id].state == Running {
      ParkedOccupied(s, id, Max(vruntime, 1));
      ScheduleInv(Parked(s, id, Max(vruntime, 1)));
    }
  }

  lemma RemovedOccupied(s: State, id: TaskId)
    requires Inv(s) && id in s.tasks && IsActive(s.tasks[id].state)
    ensures var t := s.(tasks := s.tasks - {id}, running := s.running - 1);
      Occupied(t) && Leak(t) == Leak(s)
  {
    ActiveRemove(s.tasks, id);
    assert id in Active(s.tasks);
  }

  lemma ExitInv(s: State, id: TaskId)
    requires Inv(s)
    ensures Inv(Exit(s, id)) && Leak(s) <= Leak(Exit(s, id))
  {
    if id in s.tasks {
      var t := s.(tasks := s.tasks - {id});
      if IsActive(s.tasks[id].state) {
        RemovedOccupied(s, id);
        ScheduleInv(t.(running := s.running - 1));
      } else {
        ActiveRemove(s.tasks, id);
        assert Active(t.tasks) == Active(s.tasks);
      }
    }
  }

  lemma StepInv(s: State, e: Event)
    requires Inv(s)
    ensures Inv(Step(s, e)) && Leak(s) <= Leak(Step(s, e))
  {
    match e
    case Polled(id) => PollInv(s, id);
    case Dropped(id, actual, weight) =>
      ParkInv(s.(guards := s.guards - multiset{id}), id, VRuntime(actual, weight));
    case Exited(id) => ExitInv(s, id);
  }

  /** In every run: tasks on a core <= cores taken <= cores, all cores are taken while an entry waits,
      every ready task has an entry, and a lost core never comes back. */
  lemma {:induction false} RunInv(s: State, events: seq<Event>)
    requires Inv(s)
    ensures Inv(Exec(s, events)) && Leak(s) <= Leak(Exec(s, events))
    decreases |events|
  {
    if events != [] {
      StepInv(s, events[0]);
      RunInv(Step(s, events[0]), events[1..]);
    }
  }
}
