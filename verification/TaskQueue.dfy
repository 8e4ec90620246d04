/**
  The virtual-runtime task scheduler: tasks take turns on a number of virtual cores, the one that
  has run least first.

  Every operation of the locked scheduler is a function on its state.  Two components of the state
  stand for what the callers see: `guards` holds the tasks whose running guard is alive and
  `dispatched` lists the queue entries that were given a core, in order.
  */
module TaskQueue {
  import opened KeyedQueue

  // Task ids are only ever compared for equality.
  type TaskId = nat

  datatype RunState = Idle | Ready | ToRun | Running

  datatype Task = Task(state: RunState, vruntime: nat)

  // `running` is unsigned in the source; it is an integer here so that the subtractions on it can
  // be proved not to underflow.  After a panic nothing changes any more.
  datatype State = State(
    tasks: map<TaskId, Task>,
    ready: seq<Entry<TaskId>>,
    clock: nat,
    cores: nat,
    running: int,
    guards: multiset<TaskId>,
    dispatched: seq<Entry<TaskId>>,
    panicked: bool)

  // The largest virtual time, 2^128 - 1; arithmetic beyond it panics, as it does with overflow checks on.
  const MAX: nat := 0xffff_ffff_ffff_ffff_ffff_ffff_ffff_ffff
  const HALF: nat := MAX / 2

  function Max(a: nat, b: nat): nat {
    if a < b then b else a
  }

  predicate IsActive(state: RunState) {
    state == ToRun || state == Running
  }

  function New(cores: nat): State {
    State(map[], [], 0, cores, 0, multiset{}, [], false)
  }

  function SetTask(s: State, id: TaskId, task: Task): State {
    s.(tasks := s.tasks[id := task])
  }

  /** Takes the first entry; it gets a core unless its task is gone. */
  function Pop(s: State): State
    requires s.ready != []
  {
    var first := s.ready[0];
    if first.value in s.tasks then
      s.(ready := s.ready[1..],
         running := s.running + 1,
         clock := first.key,
         tasks := s.tasks[first.value := s.tasks[first.value].(state := ToRun)],
         dispatched := s.dispatched + [first])
    else s.(ready := s.ready[1..])
  }

  /** Hands out cores until all are taken or nothing waits. */
  function Schedule(s: State): State
    decreases |s.ready|
  {
    if s.running < s.cores && s.ready != [] then Schedule(Pop(s)) else s
  }

  function Rebased(vruntime: nat, clock: nat): nat {
    if vruntime < clock then 0 else vruntime - clock
  }

  function MaybeReset(s: State): State {
    if s.clock > HALF then
      s.(tasks := map id | id in s.tasks :: s.tasks[id].(vruntime := Rebased(s.tasks[id].vruntime, s.clock)),
         clock := 0)
    else s
  }

  function Opened(s: State, id: TaskId): State {
    if id in s.tasks then s else SetTask(s, id, Task(Idle, s.clock))
  }

  function Enqueue(s: State, id: TaskId): State
    requires id in s.tasks
  {
    var key := Max(s.tasks[id].vruntime, s.clock);
    SetTask(s, id, Task(Ready, key)).(ready := Insert(s.ready, Entry(key, id)))
  }

  /** A poll by a task that has its record: it queues up, keeps waiting or takes the core it was given. */
  function Resume(s: State, id: TaskId): State
    requires id in s.tasks
  {
    match s.tasks[id].state
    case Idle => Schedule(Enqueue(s, id))
    case Ready => s
    case ToRun => SetTask(s, id, s.tasks[id].(state := Running)).(guards := s.guards + multiset{id})
    case Running => s.(panicked := true)
  }

  function Poll(s: State, id: TaskId): State {
    Resume(Opened(MaybeReset(s), id), id)
  }

  function Parked(s: State, id: TaskId, vruntime: nat): State
    requires id in s.tasks
  {
    SetTask(s, id, Task(Idle, s.tasks[id].vruntime + vruntime)).(running := s.running - 1)
  }

  function Park(s: State, id: TaskId, vruntime: nat): State {
    if id !in s.tasks then s
    else if s.tasks[id].state != Running || s.tasks[id].vruntime + Max(vruntime, 1) > MAX then
      s.(panicked := true)
    else Schedule(Parked(s, id, Max(vruntime, 1)))
  }

  /** The virtual runtime a guard charges. */
  function VRuntime(actual: nat, weight: nat): nat {
    Max(actual / Max(weight, 1), 1)
  }

  function DropGuard(s: State, id: TaskId, vruntime: nat): State {
    Park(s.(guards := s.guards - multiset{id}), id, vruntime)
  }

  /** An active task is gone and its core is free. */
  function Removed(s: State, id: TaskId): State {
    s.(tasks := s.tasks - {id}, running := s.running - 1)
  }

  function Exit(s: State, id: TaskId): State {
    if id !in s.tasks then s
    else if IsActive(s.tasks[id].state) then Schedule(Removed(s, id))
    else s.(tasks := s.tasks - {id})
  }

  datatype Event =
    | Polled(id: TaskId)
    | Dropped(id: TaskId, actual: nat, weight: nat)
    | Exited(id: TaskId)

  function Step(s: State, e: Event): State {
    if s.panicked then s
    else match e
      case Polled(id) => Poll(s, id)
      case Dropped(id, actual, weight) => DropGuard(s, id, VRuntime(actual, weight))
      case Exited(id) => Exit(s, id)
  }

  predicate Enabled(s: State, e: Event) {
    e.Dropped? ==> e.id in s.guards
  }

  function Exec(s: State, events: seq<Event>): State
    decreases |events|
  {
    if events == [] then s else Exec(Step(s, events[0]), events[1..])
  }

  predicate Feasible(s: State, events: seq<Event>)
    decreases |events|
  {
    events == [] || (Enabled(s, events[0]) && Feasible(Step(s, events[0]), events[1..]))
  }

  predicate Queued(q: seq<Entry<TaskId>>, id: TaskId) {
    exists i :: 0 <= i < |q| && q[i].value == id
  }

  // ---- conditions a caller can check before a call

  /** The id does not come back while an entry from its previous life is still queued. */
  predicate Fresh(s: State, e: Event) {
    e.Polled? && e.id !in s.tasks ==> !Queued(s.ready, e.id)
  }

  predicate AllFresh(s: State, events: seq<Event>)
    decreases |events|
  {
    events != [] ==> Fresh(s, events[0]) && AllFresh(Step(s, events[0]), events[1..])
  }

  predicate CostsAtMost(events: seq<Event>, bound: nat) {
    forall i :: 0 <= i < |events| && events[i].Dropped? ==> VRuntime(events[i].actual, events[i].weight) <= bound
  }
}
