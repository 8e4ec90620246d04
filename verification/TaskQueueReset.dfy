/** A run in which a clock reset leaves an entry far ahead of the clock. */
module TaskQueueReset {
  import opened KeyedQueue
  import opened TaskQueue
  import opened TaskQueueLeak
  import opened TaskQueuePanics
  import opened TaskQueueRuns

  function Key(s: State, id: TaskId): nat {
    if id in s.tasks then Max(s.tasks[id].vruntime, s.clock) else s.clock
  }

  function Turn(id: TaskId, cost: nat): seq<Event> {
    [Polled(id), Polled(id), Dropped(id, cost, 1)]
  }

  function AheadThenReset(a: TaskId, b: TaskId, x: TaskId, cost: nat): seq<Event> {
    (Turn(a, cost) + (Turn(a, cost) + Turn(b, cost))) + ([Polled(x)] + [Polled(a), Polled(b)] + [Exited(x), Polled(a)])
  }

  /** One core is free and no task waits. */
  predicate AllIdle(s: State) {
    && s.running + 1 == s.cores && s.ready == [] && !s.panicked && s.guards == multiset{}
    && (forall id :: id in s.tasks ==> s.tasks[id].state == Idle)
  }

  lemma ResumeStarts(s: State, id: TaskId, key: nat)
    requires AllIdle(s) && id in s.tasks && key == Max(s.tasks[id].vruntime, s.clock)
    ensures Resume(s, id) == s.(tasks := s.tasks[id := Task(ToRun, key)], clock := key, running := s.running + 1,
                                dispatched := s.dispatched + [Entry(key, id)])
  {
    var queued := Enqueue(s, id);
    assert queued.ready == Insert([], Entry(key, id)) == [Entry(key, id)];
    assert Pop(queued).tasks == s.tasks[id := Task(ToRun, key)];
    assert Schedule(queued) == Schedule(Pop(queued)) == Pop(queued);
  }

  lemma PollStarts(s: State, id: TaskId)
    requires AllIdle(s) && s.clock <= HALF
    ensures Poll(s, id) == s.(tasks := s.tasks[id := Task(ToRun, Key(s, id))], clock := Key(s, id),
                              running := s.running + 1, dispatched := s.dispatched + [Entry(Key(s, id), id)])
  {
    var t := Opened(s, id);
    ResumeStarts(t, id, Key(s, id));
    assert t.tasks[id := Task(ToRun, Key(s, id))] == s.tasks[id := Task(ToRun, Key(s, id))];
  }

  lemma PollRuns(s: State, id: TaskId)
    requires s.clock <= HALF && id in s.tasks && s.tasks[id].state == ToRun
    ensures Poll(s, id) == s.(tasks := s.tasks[id := s.tasks[id].(state := Running)], guards := s.guards + multiset{id})
  {
  }

  lemma DropEnds(s: State, id: TaskId, cost: nat)
    requires id in s.tasks && s.tasks[id].state == Running && s.ready == []
    requires 1 <= cost && s.tasks[id].vruntime + cost <= MAX
    ensures DropGuard(s, id, cost)
         == s.(tasks := s.tasks[id := Task(Idle, s.tasks[id].vruntime + cost)], running := s.running - 1,
               guards := s.guards - multiset{id})
  {
  }

  lemma PollTwiceAndDrop(s: State, id: TaskId, key: nat, cost: nat)
    requires AllIdle(s) && s.clock <= HALF && key == Key(s, id) <= HALF && 1 <= cost && key + cost <= MAX
    ensures var s1 := Poll(s, id);
      var s2 := Poll(s1, id);
      && id in s1.tasks && id in s2.tasks && !s1.panicked && !s2.panicked
      && s1.guards == multiset{} && s2.guards == multiset{id}
      && DropGuard(s2, id, cost) == s.(tasks := s.tasks[id := Task(Idle, key + cost)], clock := key,
                                       dispatched := s.dispatched + [Entry(key, id)])
  {
    PollStarts(s, id);
    var s1 := Poll(s, id);
    PollRuns(s1, id);
    var s2 := Poll(s1, id);
    DropEnds(s2, id, cost);
    assert s2.guards - multiset{id} == s.guards;
    assert s2.tasks[id := Task(Idle, key + cost)] == s.tasks[id := Task(Idle, key + cost)];
  }

  /** One task runs once on an idle scheduler. */
  lemma TurnEffect(s: State, id: TaskId, key: nat, cost: nat)
    requires AllIdle(s) && s.clock <= HALF && key == Key(s, id) <= HALF && 1 <= cost && key + cost <= MAX
    ensures Exec(s, Turn(id, cost))
         == s.(tasks := s.tasks[id := Task(Idle, key + cost)], clock := key,
               dispatched := s.dispatched + [Entry(key, id)])
    ensures AllFresh(s, Turn(id, cost)) && AllDisciplined(s, Turn(id, cost))
  {
    PollTwiceAndDrop(s, id, key, cost);
    WholeCharge(cost);
    var s1 := Step(s, Polled(id));
    var s2 := Step(s1, Polled(id));
    assert Fresh(s, Polled(id)) && Fresh(s1, Polled(id));
    assert Disciplined(s2, Dropped(id, cost, 1));
    Three(s, Polled(id), s1, Polled(id), s2, Dropped(id, cost, 1), Step(s2, Dropped(id, cost, 1)));
  }

  lemma WholeCharge(cost: nat)
    requires 1 <= cost
    ensures VRuntime(cost, 1) == cost
  {
  }

  /** Two tasks have each run up to twice the largest charge. */
  lemma RunAhead(s: State, a: TaskId, b: TaskId, c: nat)
    requires AllIdle(s) && s.clock == 0 && s.tasks == map[] && a != b && 1 <= c <= HALF
    ensures var events := Turn(a, c) + (Turn(a, c) + Turn(b, c));
      var t := Exec(s, events);
      && AllFresh(s, events) && AllDisciplined(s, events)
      && AllIdle(t) && t.clock == c
      && t.tasks == map[a := Task(Idle, 2 * c), b := Task(Idle, 2 * c)]
  {
    TurnEffect(s, a, 0, c);
    var s1 := Exec(s, Turn(a, c));
    TurnEffect(s1, a, c, c);
    var s2 := Exec(s1, Turn(a, c));
    assert s2.tasks == map[a := Task(Idle, 2 * c)];
    TurnEffect(s2, b, c, c);
    Join(s1, Turn(a, c), Turn(b, c));
    Join(s, Turn(a, c), Turn(a, c) + Turn(b, c));
  }

  lemma TwoQueue(s: State, a: TaskId, b: TaskId, ahead: nat)
    requires a != b && s.clock <= HALF && s.clock <= ahead && s.ready == [] && s.running == s.cores && !s.panicked
    requires s.guards == multiset{}
    requires a in s.tasks && s.tasks[a] == Task(Idle, ahead) && b in s.tasks && s.tasks[b] == Task(Idle, ahead)
    ensures Exec(s, [Polled(a), Polled(b)])
         == s.(tasks := s.tasks[a := Task(Ready, ahead)][b := Task(Ready, ahead)],
               ready := [Entry(ahead, a), Entry(ahead, b)])
    ensures AllFresh(s, [Polled(a), Polled(b)]) && AllDisciplined(s, [Polled(a), Polled(b)])
  {
    var ea, eb := Entry(ahead, a), Entry(ahead, b);
    PollQueuesIdle(s, a, ahead);
    var s1 := Step(s, Polled(a));
    assert s1.ready == Insert([], ea) == [ea];
    PollQueuesIdle(s1, b, ahead);
    var s2 := Step(s1, Polled(b));
    assert s2.ready == Insert([ea], eb) == [ea, eb];
    Two(s, Polled(a), s1, Polled(b), s2);
  }

  /** A third task holds the core while both queue up. */
  lemma BothQueue(s: State, a: TaskId, b: TaskId, x: TaskId, ahead: nat)
    requires a != b && b != x && x != a && s.clock <= HALF && s.clock <= ahead
    requires AllIdle(s) && s.tasks == map[a := Task(Idle, ahead), b := Task(Idle, ahead)]
    ensures var events := [Polled(x)] + [Polled(a), Polled(b)];
      var t := Exec(s, events);
      && AllFresh(s, events) && AllDisciplined(s, events)
      && !t.panicked && t.running == t.cores && t.guards == multiset{}
      && t.ready == [Entry(ahead, a), Entry(ahead, b)]
      && a in t.tasks && x in t.tasks && t.tasks[x].state == ToRun
  {
    PollTakesCore(s, x);
    var s1 := Step(s, Polled(x));
    TwoQueue(s1, a, b, ahead);
    assert Fresh(s, Polled(x));
    First(s, Polled(x), s1, [Polled(a), Polled(b)]);
  }

  lemma PollResets(s: State, id: TaskId)
    requires s.clock > HALF && id in s.tasks && s.tasks[id].state == ToRun
    ensures Poll(s, id).clock == 0 && Poll(s, id).ready == s.ready
  {
  }

  /** It leaves, the first of the two gets the core, and its poll resets the clock. */
  lemma LeaveAndReset(s: State, a: TaskId, b: TaskId, x: TaskId, ahead: nat)
    requires a != b && b != x && x != a && HALF < ahead
    requires !s.panicked && s.running == s.cores && s.ready == [Entry(ahead, a), Entry(ahead, b)]
    requires s.guards == multiset{}
    requires a in s.tasks && x in s.tasks && IsActive(s.tasks[x].state)
    ensures var events := [Exited(x), Polled(a)];
      && AllFresh(s, events) && AllDisciplined(s, events)
      && Exec(s, events).clock == 0 && Exec(s, events).ready == [Entry(ahead, b)]
  {
    ExitPassesCore(s, x);
    var s1 := Step(s, Exited(x));
    assert s1.ready == [Entry(ahead, b)] && s1.clock == ahead && s1.tasks[a].state == ToRun && !s1.panicked;
    PollResets(s1, a);
    Two(s, Exited(x), s1, Polled(a), Step(s1, Polled(a)));
  }

  lemma TurnCosts(id: TaskId, c: nat)
    requires 1 <= c
    ensures CostsAtMost(Turn(id, c), c)
  {
    WholeCharge(c);
  }

  lemma CostsJoin(early: seq<Event>, late: seq<Event>, c: nat)
    requires CostsAtMost(early, c) && CostsAtMost(late, c)
    ensures CostsAtMost(early + late, c)
  {
  }

  lemma AheadThenResetCosts(a: TaskId, b: TaskId, x: TaskId, c: nat)
    requires 1 <= c
    ensures CostsAtMost(AheadThenReset(a, b, x, c), c)
  {
    TurnCosts(a, c);
    TurnCosts(b, c);
    CostsJoin(Turn(a, c), Turn(b, c), c);
    CostsJoin(Turn(a, c), Turn(a, c) + Turn(b, c), c);
    CostsJoin(Turn(a, c) + (Turn(a, c) + Turn(b, c)), [Polled(x)] + [Polled(a), Polled(b)] + [Exited(x), Polled(a)], c);
  }

  /** With charges of at most c, for any c with c <= MAX / 2 < 2c, such as 2^126, a run of 14 calls on one
      core and without stale entries ends with an entry that waits 2c ahead of the clock. */
  lemma LagBrokenByReset(s: State, a: TaskId, b: TaskId, x: TaskId, c: nat)
    requires a != b && b != x && x != a && c <= HALF < 2 * c
    requires s.cores == 1 && s == New(s.cores)
    ensures var events := AheadThenReset(a, b, x, c);
      var t := Exec(s, events);
      && Feasible(s, events) && AllDisciplined(s, events) && AllFresh(s, events) && CostsAtMost(events, c)
      && t.ready == [Entry(2 * c, b)] && t.ready[0].key > t.clock + c
  {
    var early := Turn(a, c) + (Turn(a, c) + Turn(b, c));
    var mid, late := [Polled(x)] + [Polled(a), Polled(b)], [Exited(x), Polled(a)];
    RunAhead(s, a, b, c);
    var u := Exec(s, early);
    BothQueue(u, a, b, x, 2 * c);
    LeaveAndReset(Exec(u, mid), a, b, x, 2 * c);
    Join(u, mid, late);
    Join(s, early, mid + late);
    AheadThenResetCosts(a, b, x, c);
    DisciplinedFeasible(s, early + (mid + late));
  }
}
