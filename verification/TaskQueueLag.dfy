/** Waiting tasks are never far ahead of the clock, so no task starves; a clock reset breaks this. */
module TaskQueueLag {
  import opened KeyedQueue
  import opened TaskQueue
  import opened TaskQueueOccupancy
  import opened TaskQueueClock

  /** Every waiting key is within `c` of the clock and is the virtual runtime of its task. */
  ghost predicate Lag(s: State, c: nat) {
    && (forall i :: 0 <= i < |s.ready| ==> s.ready[i].key <= s.clock + c)
    && (forall i :: 0 <= i < |s.ready| && s.ready[i].value in s.tasks ==>
          s.tasks[s.ready[i].value].vruntime == s.ready[i].key)
  }

  /** No poll of the run finds the clock past the half-way mark. */
  predicate NoReset(s: State, events: seq<Event>)
    decreases |events|
  {
    events != [] ==> (events[0].Polled? ==> s.clock <= HALF) && NoReset(Step(s, events[0]), events[1..])
  }

  lemma PopLag(s: State, c: nat)
    requires Ordered(s.ready) && Unique(s) && Timely(s, c) && Lag(s, c) && s.ready != []
    ensures Lag(Pop(s), c)
  {
    PopTimely(s, c);
    var t := Pop(s);
    forall i | 0 <= i < |t.ready| ensures t.ready[i] == s.ready[i + 1] && t.ready[i].value != s.ready[0].value {
    }
  }

  lemma {:induction false} ScheduleLag(s: State, c: nat)
    requires Occupied(s) && Unique(s) && Timely(s, c) && Lag(s, c)
    ensures Lag(Schedule(s), c)
    decreases |s.ready|
  {
    if s.running < s.cores && s.ready != [] {
      PopLag(s, c);
      PopTimely(s, c);
      PopOccupied(s);
      ScheduleLag(Pop(s), c);
    }
  }

  lemma EnqueueLag(s: State, id: TaskId, c: nat)
    requires Unique(s) && Timely(s, c) && Lag(s, c) && id in s.tasks && s.tasks[id].state == Idle
    ensures Lag(Enqueue(s, id), c)
  {
    var t := Enqueue(s, id);
    var e := Entry(Max(s.tasks[id].vruntime, s.clock), id);
    InsertMembers(s.ready, e);
    assert forall i :: 0 <= i < |s.ready| ==> s.ready[i].value != id;
    forall i | 0 <= i < |t.ready|
      ensures t.ready[i].key <= t.clock + c
      ensures t.ready[i].value in t.tasks ==> t.tasks[t.ready[i].value].vruntime == t.ready[i].key
    {
      assert t.ready[i] in t.ready;
      if t.ready[i] != e {
        var k :| 0 <= k < |s.ready| && s.ready[k] == t.ready[i];
      }
    }
  }

  lemma ResumeLag(s: State, id: TaskId, c: nat)
    requires Exact(s, c) && Lag(s, c) && s.clock <= HALF && id in s.tasks
    ensures Lag(Resume(s, id), c) && s.clock <= Resume(s, id).clock
  {
    if s.tasks[id].state == Idle {
      EnqueueOccupied(s, id);
      EnqueueTimely(s, id, c);
      EnqueueLag(s, id, c);
      ScheduleLag(Enqueue(s, id), c);
      ScheduleTimely(Enqueue(s, id), c);
    }
  }

  lemma OpenedLag(s: State, id: TaskId, c: nat)
    requires Lag(s, c) && (id !in s.tasks ==> !Queued(s.ready, id))
    ensures Lag(Opened(s, id), c)
  {
    if id !in s.tasks {
      forall i | 0 <= i < |s.ready| ensures s.ready[i].value != id {
      }
    }
  }

  lemma ParkedLag(s: State, id: TaskId, v: nat, c: nat)
    requires Unique(s) && Lag(s, c) && id in s.tasks && s.tasks[id].state == Running
    ensures Lag(Parked(s, id, v), c)
  {
    assert forall i :: 0 <= i < |s.ready| ==> s.ready[i].value != id;
  }

  lemma RemovedLag(s: State, t: State, id: TaskId, c: nat)
    requires Lag(s, c) && t == s.(tasks := s.tasks - {id}, running := t.running)
    ensures Lag(t, c)
  {
  }

  lemma ParkLag(s: State, id: TaskId, v: nat, c: nat)
    requires Exact(s, c) && Lag(s, c) && Max(v, 1) <= c
    ensures Lag(Park(s, id, v), c) && s.clock <= Park(s, id, v).clock
  {
    if id in s.tasks && s.tasks[id].state == Running {
      ParkedOccupied(s, id, Max(v, 1));
      ParkedTimely(s, id, Max(v, 1), c);
      ParkedLag(s, id, Max(v, 1), c);
      ScheduleLag(Parked(s, id, Max(v, 1)), c);
      ScheduleTimely(Parked(s, id, Max(v, 1)), c);
    }
  }

  lemma ExitLag(s: State, id: TaskId, c: nat)
    requires Exact(s, c) && Lag(s, c)
    ensures Lag(Exit(s, id), c) && s.clock <= Exit(s, id).clock
  {
    if id in s.tasks && IsActive(s.tasks[id].state) {
      var t := s.(tasks := s.tasks - {id}, running := s.running - 1);
      RemovedOccupied(s, id);
      RemovedTimely(s, id, c);
      RemovedLag(s, t, id, c);
      ScheduleLag(t, c);
      ScheduleTimely(t, c);
    }
  }

  lemma StepLag(s: State, e: Event, c: nat)
    requires Exact(s, c) && Lag(s, c) && Fresh(s, e) && (e.Polled? ==> s.clock <= HALF)
    requires e.Dropped? ==> VRuntime(e.actual, e.weight) <= c
    ensures Lag(Step(s, e), c) && s.clock <= Step(s, e).clock
  {
    match e
    case Polled(id) =>
      OpenedTimely(s, id, c);
      OpenedLag(s, id, c);
      ResumeLag(Opened(s, id), id, c);
    case Dropped(id, actual, weight) =>
      ParkLag(s.(guards := s.guards - multiset{id}), id, VRuntime(actual, weight), c);
    case Exited(id) => ExitLag(s, id, c);
  }

  /** Without resets every waiting key lies in [clock, clock + c] and the clock never goes back. */
  lemma {:induction false} RunLag(s: State, events: seq<Event>, c: nat)
    requires Exact(s, c) && Lag(s, c)
    requires AllFresh(s, events) && CostsAtMost(events, c) && NoReset(s, events)
    ensures Exact(Exec(s, events), c) && Lag(Exec(s, events), c)
    ensures s.clock <= Exec(s, events).clock
    decreases |events|
  {
    if events != [] {
      StepLag(s, events[0], c);
      StepExact(s, events[0], c);
      RunLag(Step(s, events[0]), events[1..], c);
    }
  }

  lemma BoundedLag(cores: nat, events: seq<Event>, c: nat)
    requires AllFresh(New(cores), events) && CostsAtMost(events, c) && NoReset(New(cores), events)
    ensures var s := Exec(New(cores), events);
      forall i :: 0 <= i < |s.ready| ==> s.clock <= s.ready[i].key <= s.clock + c
  {
    NewInv(cores);
    RunLag(New(cores), events, c);
  }

  /** A reset rebases the tasks and not the queue, so the bound survives it exactly when nothing waits. */
  lemma LagSurvivesResetIff(s: State, c: nat)
    requires Exact(s, c) && s.clock > HALF && c <= 0x4000_0000_0000_0000_0000_0000_0000_0000
    ensures (forall i :: 0 <= i < |s.ready| ==> MaybeReset(s).ready[i].key <= MaybeReset(s).clock + c)
      <==> s.ready == []
  {
    if s.ready != [] {
      assert MaybeReset(s).ready[0].key > MaybeReset(s).clock + c;
    }
  }

  // ---- starvation

  /** How many turns the task had. */
  function Count(q: seq<Entry<TaskId>>, id: TaskId): nat {
    if q == [] then 0 else Count(q[..|q| - 1], id) + if q[|q| - 1].value == id then 1 else 0
  }

  /** The same, with `least` for every turn. */
  function Tally(q: seq<Entry<TaskId>>, id: TaskId, least: nat): nat {
    if q == [] then 0 else Tally(q[..|q| - 1], id, least) + if q[|q| - 1].value == id then least else 0
  }

  lemma {:induction false} TallyIsProduct(q: seq<Entry<TaskId>>, id: TaskId, least: nat)
    ensures Tally(q, id, least) == least * Count(q, id)
  {
    if q != [] {
      TallyIsProduct(q[..|q| - 1], id, least);
      var n := Count(q[..|q| - 1], id);
      assert least * (n + 1) == least * n + least;
    }
  }

  /** The smallest key the task can queue under next, if its runs are charged `least` or more, and at least
      `start`. */
  function Next(s: State, id: TaskId, start: nat, least: nat): nat {
    if id !in s.tasks then start
    else Max(start, s.tasks[id].vruntime + if IsActive(s.tasks[id].state) then least else 0)
  }

  /** Since the clock showed `start` the task's turns are worth at most Next - start, all of them at most at
      `key`. */
  ghost predicate Turns(s: State, id: TaskId, before: nat, start: nat, key: nat, least: nat) {
    && start <= s.clock
    && Tally(s.dispatched, id, least) - before <= Next(s, id, start, least) - start
    && Tally(s.dispatched, id, least) - before <= key - start + least
  }

  lemma PopTurns(s: State, id: TaskId, before: nat, start: nat, e: Entry<TaskId>, c: nat, least: nat)
    requires Ordered(s.ready) && Unique(s) && Timely(s, c) && Lag(s, c)
    requires s.ready != [] && e in s.ready && Turns(s, id, before, start, e.key, least)
    ensures Turns(Pop(s), id, before, start, e.key, least)
  {
    PopTimely(s, c);
    var t, first := Pop(s), s.ready[0];
    assert first.key <= e.key;
    if first.value in s.tasks {
      assert t.dispatched[..|t.dispatched| - 1] == s.dispatched;
      assert s.tasks[first.value] == Task(Ready, first.key);
    }
  }

  lemma {:induction false} ScheduleTurns(s: State, id: TaskId, before: nat, start: nat, e: Entry<TaskId>, c: nat, least: nat)
    requires Occupied(s) && Unique(s) && Timely(s, c) && Lag(s, c)
    requires e in Schedule(s).ready && Turns(s, id, before, start, e.key, least)
    ensures e in s.ready && Turns(Schedule(s), id, before, start, e.key, least)
    decreases |s.ready|
  {
    if s.running < s.cores && s.ready != [] {
      ScheduleKeeps(Pop(s), e);
      PopTurns(s, id, before, start, e, c, least);
      PopLag(s, c);
      PopTimely(s, c);
      PopOccupied(s);
      ScheduleTurns(Pop(s), id, before, start, e, c, least);
    }
  }

  lemma {:induction false} ScheduleKeeps(s: State, e: Entry<TaskId>)
    requires e in Schedule(s).ready
    ensures e in s.ready
    decreases |s.ready|
  {
    if s.running < s.cores && s.ready != [] {
      ScheduleKeeps(Pop(s), e);
    }
  }

  lemma EnqueueTurns(s: State, j: TaskId, id: TaskId, before: nat, start: nat, key: nat, least: nat)
    requires j in s.tasks && s.tasks[j].state == Idle && Turns(s, id, before, start, key, least)
    ensures Turns(Enqueue(s, j), id, before, start, key, least)
  {
    assert Next(s, id, start, least) <= Next(Enqueue(s, j), id, start, least);
  }

  lemma ParkedTurns(s: State, j: TaskId, v: nat, id: TaskId, before: nat, start: nat, key: nat, least: nat)
    requires j in s.tasks && s.tasks[j].state == Running && (j == id ==> least <= v) && Turns(s, id, before, start, key, least)
    ensures Turns(Parked(s, j, v), id, before, start, key, least)
  {
    assert Next(s, id, start, least) <= Next(Parked(s, j, v), id, start, least);
  }

  lemma RemovedTurns(s: State, t: State, j: TaskId, id: TaskId, before: nat, start: nat, key: nat, least: nat)
    requires t == s.(tasks := s.tasks - {j}, running := t.running) && j != id && Turns(s, id, before, start, key, least)
    ensures Turns(t, id, before, start, key, least)
  {
    assert Next(s, id, start, least) == Next(t, id, start, least);
  }

  lemma ResumeTurns(s: State, j: TaskId, id: TaskId, before: nat, start: nat, e: Entry<TaskId>, c: nat, least: nat)
    requires Exact(s, c) && Lag(s, c) && s.clock <= HALF && j in s.tasks
    requires Turns(s, id, before, start, e.key, least) && e in Resume(s, j).ready
    ensures Turns(Resume(s, j), id, before, start, e.key, least)
  {
    match s.tasks[j].state
    case Idle =>
      EnqueueOccupied(s, j);
      EnqueueTimely(s, j, c);
      EnqueueLag(s, j, c);
      EnqueueTurns(s, j, id, before, start, e.key, least);
      ScheduleTurns(Enqueue(s, j), id, before, start, e, c, least);
    case Ready =>
    case ToRun => assert Next(s, id, start, least) == Next(Resume(s, j), id, start, least);
    case Running =>
  }

  lemma PollTurns(s: State, j: TaskId, id: TaskId, before: nat, start: nat, e: Entry<TaskId>, c: nat, least: nat)
    requires Exact(s, c) && Lag(s, c) && s.clock <= HALF && Fresh(s, Polled(j))
    requires Turns(s, id, before, start, e.key, least) && e in Poll(s, j).ready
    ensures Turns(Poll(s, j), id, before, start, e.key, least)
  {
    OpenedTimely(s, j, c);
    OpenedLag(s, j, c);
    var t := Opened(s, j);
    assert Turns(t, id, before, start, e.key, least) by {
      assert t.dispatched == s.dispatched && t.clock == s.clock;
      assert Next(s, id, start, least) <= Next(t, id, start, least);
    }
    ResumeTurns(t, j, id, before, start, e, c, least);
  }

  lemma ParkTurns(s: State, j: TaskId, v: nat, id: TaskId, before: nat, start: nat, e: Entry<TaskId>, c: nat, least: nat)
    requires Exact(s, c) && Lag(s, c) && Max(v, 1) <= c && (j == id ==> least <= Max(v, 1))
    requires Turns(s, id, before, start, e.key, least) && e in Park(s, j, v).ready
    ensures Turns(Park(s, j, v), id, before, start, e.key, least)
  {
    if j in s.tasks && s.tasks[j].state == Running && s.tasks[j].vruntime + Max(v, 1) <= MAX {
      var t := Parked(s, j, Max(v, 1));
      ParkedOccupied(s, j, Max(v, 1));
      ParkedTimely(s, j, Max(v, 1), c);
      ParkedLag(s, j, Max(v, 1), c);
      ParkedTurns(s, j, Max(v, 1), id, before, start, e.key, least);
      ScheduleTurns(t, id, before, start, e, c, least);
    }
  }

  lemma ExitTurns(s: State, j: TaskId, id: TaskId, before: nat, start: nat, e: Entry<TaskId>, c: nat, least: nat)
    requires Exact(s, c) && Lag(s, c) && j != id
    requires Turns(s, id, before, start, e.key, least) && e in Exit(s, j).ready
    ensures Turns(Exit(s, j), id, before, start, e.key, least)
  {
    if j in s.tasks && IsActive(s.tasks[j].state) {
      var t := s.(tasks := s.tasks - {j}, running := s.running - 1);
      RemovedOccupied(s, j);
      RemovedTimely(s, j, c);
      RemovedLag(s, t, j, c);
      RemovedTurns(s, t, j, id, before, start, e.key, least);
      assert Exit(s, j) == Schedule(t);
      ScheduleTurns(t, id, before, start, e, c, least);
    }
  }

  lemma StepTurns(s: State, ev: Event, id: TaskId, before: nat, start: nat, e: Entry<TaskId>, c: nat, least: nat)
    requires Exact(s, c) && Lag(s, c) && Fresh(s, ev) && (ev.Polled? ==> s.clock <= HALF)
    requires ev.Dropped? ==> VRuntime(ev.actual, ev.weight) <= c
    requires ev.Dropped? && ev.id == id ==> least <= VRuntime(ev.actual, ev.weight)
    requires ev != Exited(id) && Turns(s, id, before, start, e.key, least) && e in Step(s, ev).ready
    ensures Turns(Step(s, ev), id, before, start, e.key, least)
  {
    if !s.panicked {
      match ev
      case Polled(j) => PollTurns(s, j, id, before, start, e, c, least);
      case Dropped(j, actual, weight) =>
        ParkTurns(s.(guards := s.guards - multiset{j}), j, VRuntime(actual, weight), id, before, start, e, c, least);
      case Exited(j) => ExitTurns(s, j, id, before, start, e, c, least);
    }
  }

  /** The entry is in the queue in every state of the run. */
  ghost predicate Waits(s: State, events: seq<Event>, e: Entry<TaskId>)
    decreases |events|
  {
    e in s.ready && (events != [] ==> Waits(Step(s, events[0]), events[1..], e))
  }

  /** Every run of the task is charged `least` or more. */
  predicate ChargesAtLeast(events: seq<Event>, id: TaskId, least: nat) {
    forall i :: 0 <= i < |events| && events[i].Dropped? && events[i].id == id ==>
      least <= VRuntime(events[i].actual, events[i].weight)
  }

  lemma {:induction false} RunTurns(s: State, events: seq<Event>, id: TaskId, before: nat, start: nat,
                                    e: Entry<TaskId>, c: nat, least: nat)
    requires Exact(s, c) && Lag(s, c) && Turns(s, id, before, start, e.key, least)
    requires AllFresh(s, events) && CostsAtMost(events, c) && NoReset(s, events)
    requires Waits(s, events, e) && Exited(id) !in events && ChargesAtLeast(events, id, least)
    ensures Turns(Exec(s, events), id, before, start, e.key, least)
    decreases |events|
  {
    if events != [] {
      var t := Step(s, events[0]);
      assert e in t.ready;
      StepTurns(s, events[0], id, before, start, e, c, least);
      StepLag(s, events[0], c);
      StepExact(s, events[0], c);
      RunTurns(t, events[1..], id, before, start, e, c, least);
    }
  }

  lemma {:induction false} SplitRun(s: State, before: seq<Event>, events: seq<Event>)
    requires AllFresh(s, before + events) && NoReset(s, before + events)
    ensures AllFresh(s, before) && NoReset(s, before)
    ensures AllFresh(Exec(s, before), events) && NoReset(Exec(s, before), events)
    decreases |before|
  {
    if before == [] {
      assert before + events == events;
    } else {
      assert (before + events)[1..] == before[1..] + events;
      SplitRun(Step(s, before[0]), before[1..], events);
    }
  }

  lemma TurnsBound(cores: nat, before: seq<Event>, events: seq<Event>, e: Entry<TaskId>, id: TaskId, c: nat, least: nat)
    requires AllFresh(New(cores), before + events) && NoReset(New(cores), before + events)
    requires CostsAtMost(before + events, c) && ChargesAtLeast(events, id, least)
    requires Waits(Exec(New(cores), before), events, e) && Exited(id) !in events
    ensures var s := Exec(New(cores), before);
      var t := Exec(s, events);
      Tally(t.dispatched, id, least) - Tally(s.dispatched, id, least) <= e.key - s.clock + least
  {
    NewInv(cores);
    SplitRun(New(cores), before, events);
    assert CostsAtMost(before, c) by {
      assert forall i :: 0 <= i < |before| ==> (before + events)[i] == before[i];
    }
    assert CostsAtMost(events, c) by {
      assert forall i :: 0 <= i < |events| ==> (before + events)[|before| + i] == events[i];
    }
    RunLag(New(cores), before, c);
    var s := Exec(New(cores), before);
    var i :| 0 <= i < |s.ready| && s.ready[i] == e;
    RunTurns(s, events, id, Tally(s.dispatched, id, least), s.clock, e, c, least);
  }

  /** No starvation.  Take any run without resets and any stretch of it over which an entry e waits.
      A task that does not exit over the stretch gets at most e.key - clock + 1 turns during it. */
  lemma NoStarvation(cores: nat, before: seq<Event>, events: seq<Event>, e: Entry<TaskId>, id: TaskId, c: nat)
    requires AllFresh(New(cores), before + events) && NoReset(New(cores), before + events)
    requires CostsAtMost(before + events, c)
    requires Waits(Exec(New(cores), before), events, e) && Exited(id) !in events
    ensures var s := Exec(New(cores), before);
      var t := Exec(s, events);
      Count(t.dispatched, id) - Count(s.dispatched, id) <= e.key - s.clock + 1
  {
    var s := Exec(New(cores), before);
    TurnsBound(cores, before, events, e, id, c, 1);
    TallyIsProduct(s.dispatched, id, 1);
    TallyIsProduct(Exec(s, events).dispatched, id, 1);
  }
}
