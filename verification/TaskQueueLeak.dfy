/**
  The occupancy count is not exact in general: an id that comes back while an entry of its previous
  life is still queued can be handed two cores, and the second one is lost for good.
  */
module TaskQueueLeak {
  import opened KeyedQueue
  import opened TaskQueue
  import opened TaskQueueOccupancy
  import opened TaskQueuePanics
  import opened TaskQueueRuns

  lemma PollTakesCore(s: State, id: TaskId)
    requires s.clock <= HALF && id !in s.tasks && s.ready == [] && s.running < s.cores
    ensures Poll(s, id) == s.(tasks := s.tasks[id := Task(ToRun, s.clock)], running := s.running + 1,
                              dispatched := s.dispatched + [Entry(s.clock, id)])
  {
    var e := Entry(s.clock, id);
    var t := Enqueue(Opened(s, id), id);
    assert t.ready == Insert([], e) == [e];
    assert Pop(t).tasks == s.tasks[id := Task(ToRun, s.clock)];
    assert Schedule(t) == Schedule(Pop(t)) == Pop(t);
  }

  lemma PollQueues(s: State, id: TaskId)
    requires s.clock <= HALF && id !in s.tasks && s.running == s.cores
    ensures Poll(s, id) == s.(tasks := s.tasks[id := Task(Ready, s.clock)],
                              ready := Insert(s.ready, Entry(s.clock, id)))
  {
    var t := Enqueue(Opened(s, id), id);
    assert t.tasks == s.tasks[id := Task(Ready, s.clock)];
  }

  lemma PollQueuesIdle(s: State, id: TaskId, key: nat)
    requires s.clock <= HALF && id in s.tasks && s.tasks[id].state == Idle && s.running == s.cores
    requires key == Max(s.tasks[id].vruntime, s.clock)
    ensures Poll(s, id) == s.(tasks := s.tasks[id := Task(Ready, key)], ready := Insert(s.ready, Entry(key, id)))
  {
  }

  lemma ExitPassesCore(s: State, id: TaskId)
    requires id in s.tasks && IsActive(s.tasks[id].state) && s.running == s.cores
    requires s.ready != [] && s.ready[0].value in s.tasks && s.ready[0].value != id
    ensures Exit(s, id) == Pop(s.(tasks := s.tasks - {id}, running := s.running - 1))
  {
    var t := s.(tasks := s.tasks - {id}, running := s.running - 1);
    assert Schedule(t) == Schedule(Pop(t)) == Pop(t);
  }

  lemma BothCoresTaken(s: State, a: TaskId, b: TaskId)
    requires a != b && s == New(s.cores) && s.cores == 2
    ensures var u := Exec(s, [Polled(a), Polled(b)]);
      && u.tasks == map[a := Task(ToRun, 0), b := Task(ToRun, 0)]
      && u.ready == [] && u.clock == 0 && u.running == u.cores == 2 && !u.panicked && u.guards == multiset{}
    ensures AllDisciplined(s, [Polled(a), Polled(b)])
  {
    PollTakesCore(s, a);
    var s1 := Step(s, Polled(a));
    PollTakesCore(s1, b);
    var s2 := Step(s1, Polled(b));
    Two(s, Polled(a), s1, Polled(b), s2);
  }

  /** With every core taken, a task comes, leaves and comes back: it is queued twice. */
  lemma QueuedTwice(s: State, x: TaskId)
    requires x !in s.tasks && s.ready == [] && s.running == s.cores && s.clock <= HALF && !s.panicked
    ensures Exec(s, [Polled(x), Exited(x), Polled(x)])
         == s.(tasks := s.tasks[x := Task(Ready, s.clock)], ready := [Entry(s.clock, x), Entry(s.clock, x)])
    ensures x !in s.guards ==> AllDisciplined(s, [Polled(x), Exited(x), Polled(x)])
  {
    var e := Entry(s.clock, x);
    PollQueues(s, x);
    var s1 := Step(s, Polled(x));
    assert s1.ready == Insert([], e) == [e];
    var s2 := Step(s1, Exited(x));
    assert s2.tasks == s.tasks && s2.ready == [e];
    PollQueues(s2, x);
    var s3 := Step(s2, Polled(x));
    assert s3.ready == Insert([e], e) == [e, e];
    Three(s, Polled(x), s1, Exited(x), s2, Polled(x), s3);
  }

  /** A task queued twice is handed both cores and gives one back. */
  lemma TwoCoresForOne(s: State, a: TaskId, b: TaskId, x: TaskId, e: Entry<TaskId>)
    requires a != b && b != x && x != a && e.value == x
    requires s.tasks.Keys == {a, b, x} && IsActive(s.tasks[a].state) && IsActive(s.tasks[b].state)
    requires s.ready == [e, e] && s.running == s.cores && !s.panicked
    ensures var u := Exec(s, [Exited(a), Exited(b), Exited(x)]);
      u.tasks == map[] && u.running == s.running - 1
  {
    ExitPassesCore(s, a);
    var s1 := Step(s, Exited(a));
    assert s1.ready == [e];
    ExitPassesCore(s1, b);
    var s2 := Step(s1, Exited(b));
    assert s2.ready == [] && s2.tasks.Keys == {x};
    var s3 := Step(s2, Exited(x));
    assert s3.tasks == map[];
    Three(s, Exited(a), s1, Exited(b), s2, Exited(x), s3);
  }

  /** Eight calls after which no task is left and one of two cores is still counted as taken. */
  lemma CoreLost(a: TaskId, b: TaskId, x: TaskId)
    requires a != b && b != x && x != a
    ensures var s := Exec(New(2), [Polled(a), Polled(b)] + ([Polled(x), Exited(x), Polled(x)]
                                  + [Exited(a), Exited(b), Exited(x)]));
      s.tasks == map[] && s.running == 1
  {
    var early, mid, late := [Polled(a), Polled(b)], [Polled(x), Exited(x), Polled(x)], [Exited(a), Exited(b), Exited(x)];
    var s := New(2);
    BothCoresTaken(s, a, b);
    var u := Exec(s, early);
    QueuedTwice(u, x);
    TwoCoresForOne(Exec(u, mid), a, b, x, Entry(u.clock, x));
    Join(u, mid, late);
    Join(s, early, mid + late);
  }

  /** A task queued twice is handed a core and starts to run while its other entry waits. */
  lemma StartsWhileQueued(s: State, a: TaskId, x: TaskId, e: Entry<TaskId>)
    requires a != x && e.value == x && e.key <= HALF && !s.panicked && s.guards == multiset{}
    requires a in s.tasks && x in s.tasks && IsActive(s.tasks[a].state)
    requires s.ready == [e, e] && s.running == s.cores
    ensures Exec(s, [Exited(a), Polled(x)])
         == s.(tasks := (s.tasks - {a})[x := s.tasks[x].(state := Running)], ready := [e], clock := e.key,
               dispatched := s.dispatched + [e], guards := multiset{x})
    ensures AllDisciplined(s, [Exited(a), Polled(x)])
  {
    ExitPassesCore(s, a);
    var s1 := Step(s, Exited(a));
    assert s1 == s.(tasks := (s.tasks - {a})[x := s.tasks[x].(state := ToRun)], ready := [e], clock := e.key,
                    dispatched := s.dispatched + [e]);
    var s2 := Step(s1, Polled(x));
    Two(s, Exited(a), s1, Polled(x), s2);
  }

  /** The other entry is taken while the task runs: dropping its guard then panics. */
  lemma TakenWhileRunning(s: State, b: TaskId, x: TaskId, e: Entry<TaskId>, actual: nat)
    requires b != x && e.value == x && !s.panicked && x in s.guards
    requires b in s.tasks && x in s.tasks && IsActive(s.tasks[b].state) && s.ready == [e] && s.running == s.cores
    ensures Exec(s, [Exited(b), Dropped(x, actual, 1)]).panicked
    ensures AllDisciplined(s, [Exited(b), Dropped(x, actual, 1)])
  {
    ExitPassesCore(s, b);
    var s1 := Step(s, Exited(b));
    assert s1.tasks[x].state == ToRun && s1.guards == s.guards;
    Two(s, Exited(b), s1, Dropped(x, actual, 1), Step(s1, Dropped(x, actual, 1)));
  }

  /** Nine calls after which the scheduler has panicked, although no task with a guard was polled. */
  lemma StaleEntryPanics(a: TaskId, b: TaskId, x: TaskId, actual: nat)
    requires a != b && b != x && x != a
    ensures var events := [Polled(a), Polled(b)] + ([Polled(x), Exited(x), Polled(x)]
                          + ([Exited(a), Polled(x)] + [Exited(b), Dropped(x, actual, 1)]));
      AllDisciplined(New(2), events) && Exec(New(2), events).panicked
  {
    var early, mid := [Polled(a), Polled(b)], [Polled(x), Exited(x), Polled(x)];
    var late, last := [Exited(a), Polled(x)], [Exited(b), Dropped(x, actual, 1)];
    var s := New(2);
    BothCoresTaken(s, a, b);
    var u := Exec(s, early);
    QueuedTwice(u, x);
    var v := Exec(u, mid);
    StartsWhileQueued(v, a, x, Entry(u.clock, x));
    TakenWhileRunning(Exec(v, late), b, x, Entry(u.clock, x), actual);
    Join(v, late, last);
    Join(u, mid, late + last);
    Join(s, early, mid + (late + last));
  }

  /** A lost core never comes back, whatever happens next. */
  lemma LostForGood(s: State, events: seq<Event>)
    requires Inv(s) && 0 < Leak(s)
    ensures |Active(Exec(s, events).tasks)| < Exec(s, events).cores
    ensures Leak(s) <= Exec(s, events).running - |Active(Exec(s, events).tasks)|
  {
    RunInv(s, events);
  }
}
