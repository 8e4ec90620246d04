/**
  The fair request queue: start-time fair queueing with a bounded backlog.

  Every operation of the locked scheduler is a function on its state.  Two components of the
  state stand for what the scheduler has handed to its callers: `started` lists the requests that
  were sent a serving guard, in order, and `guards` holds the flows of the guards still alive.
  */
module FairQueue {
  import opened KeyedQueue

  // Flow ids are only ever compared for equality.
  type FlowId = nat

  datatype Counters = Counters(total: nat, dropped: nat, time: nat)

  const NO_COUNTERS := Counters(0, 0, 0)

  // `finish` and `serving` are unsigned in the source; they are integers here so that the
  // subtractions on them can be proved not to underflow.
  datatype Flow = Flow(finish: int, average: nat, active: nat, counters: Counters)

  // A request; its start tag is the key it is queued under.
  datatype Job = Job(flow: FlowId, cost: nat)

  type Request = Entry<Job>

  datatype State = State(
    flows: map<FlowId, Flow>,
    backlog: seq<Request>,
    cap: nat,
    depth: nat,
    serving: int,
    vtime: nat,
    counters: Counters,
    started: seq<Request>,
    guards: multiset<FlowId>)

  // `Panicked`: the state is never looked at again.
  datatype Outcome = Started | Queued | Overloaded | Panicked

  function Max(a: int, b: int): int {
    if a < b then b else a
  }

  function New(cap: nat, depth: nat): State {
    State(map[], [], cap, depth, 0, 0, NO_COUNTERS, [], multiset{})
  }

  function FinishOf(s: State, f: FlowId): int {
    if f in s.flows then s.flows[f].finish else 0
  }

  function AverageOf(s: State, f: FlowId): nat {
    if f in s.flows then s.flows[f].average else 0
  }

  function CountersOf(s: State, f: FlowId): Counters {
    if f in s.flows then s.flows[f].counters else NO_COUNTERS
  }

  /** The start tag the next request of the flow gets. */
  function NextStart(s: State, f: FlowId): nat {
    Max(s.vtime, FinishOf(s, f))
  }

  /** The cost tag the next request of the flow gets. */
  function Charge(s: State, f: FlowId, weight: nat): nat {
    Max(AverageOf(s, f) / Max(weight, 1), 1)
  }

  /** The flow's record, created if there is none. */
  function FlowOf(s: State, f: FlowId, now: nat): Flow {
    if f in s.flows then s.flows[f] else Flow(0, 0, now, NO_COUNTERS)
  }

  function CountTotal(c: Counters): Counters {
    c.(total := c.total + 1)
  }

  function CountDropped(c: Counters): Counters {
    c.(dropped := c.dropped + 1)
  }

  /** An arrival: the flow's finish tag moves past the new request, which is counted. */
  function Tagged(s: State, f: FlowId, cost: nat, now: nat): State {
    var flow := FlowOf(s, f, now);
    s.(flows := s.flows[f := flow.(finish := NextStart(s, f) + cost, counters := CountTotal(flow.counters))],
       counters := CountTotal(s.counters))
  }

  function RolledBack(flow: Flow, cost: nat): Flow {
    flow.(finish := flow.finish - cost)
  }

  function Drop(s: State, f: FlowId): State
    requires f in s.flows
  {
    s.(flows := s.flows[f := s.flows[f].(counters := CountDropped(s.flows[f].counters))],
       counters := CountDropped(s.counters))
  }

  function Dispatch(s: State, r: Request): State {
    s.(serving := s.serving + 1,
       vtime := r.key,
       started := s.started + [r],
       guards := s.guards + multiset{r.value.flow})
  }

  /** A tagged request is served at once when a slot is free, and waits otherwise. */
  function Place(s: State, r: Request): (State, Outcome) {
    if s.serving < s.depth then (Dispatch(s, r), Started)
    else (s.(backlog := Insert(s.backlog, r)), Queued)
  }

  /** Takes the request with the largest start tag out of the backlog and rolls its flow's tag back. */
  function Retract(s: State): State
    requires s.backlog != []
  {
    var n := |s.backlog| - 1;
    var job := s.backlog[n].value;
    if job.flow in s.flows then
      s.(backlog := s.backlog[..n], flows := s.flows[job.flow := RolledBack(s.flows[job.flow], job.cost)])
    else s.(backlog := s.backlog[..n])
  }

  function Evict(s: State): State
    requires s.backlog != []
  {
    var f := s.backlog[|s.backlog| - 1].value.flow;
    if f in s.flows then Drop(Retract(s), f) else Retract(s)
  }

  function Reject(s: State, f: FlowId, cost: nat): State
    requires f in s.flows
  {
    Drop(s.(flows := s.flows[f := RolledBack(s.flows[f], cost)]), f)
  }

  /** The arrival of a request whose cost tag is known. */
  function Arrive(s: State, f: FlowId, cost: nat, now: nat): (State, Outcome) {
    var start := NextStart(s, f);
    var t := Tagged(s, f, cost, now);
    var r := Entry(start, Job(f, cost));
    if |s.backlog| < s.cap then Place(t, r)
    else if s.backlog == [] then (s, Panicked)
    else if start >= s.backlog[|s.backlog| - 1].key then (Reject(t, f, cost), Overloaded)
    else Place(Evict(t), r)
  }

  function Acquire(s: State, f: FlowId, weight: nat, now: nat): (State, Outcome) {
    Arrive(s, f, Charge(s, f, weight), now)
  }

  function TryPickupNext(s: State): State {
    if s.backlog == [] then s
    else Dispatch(s.(backlog := s.backlog[1..]), s.backlog[0])
  }

  function Averaged(average: nat, actual: nat): nat {
    (average * 4 + actual) / 5
  }

  function Clocked(c: Counters, actual: nat): Counters {
    c.(time := c.time + actual)
  }

  function Charged(s: State, f: FlowId, actual: nat): State {
    if f in s.flows then
      var g := s.flows[f];
      s.(flows := s.flows[f := g.(average := Averaged(g.average, actual), counters := Clocked(g.counters, actual))],
         counters := Clocked(s.counters, actual))
    else s.(counters := Clocked(s.counters, actual))
  }

  function Vacated(s: State, f: FlowId): State {
    s.(serving := s.serving - 1, guards := s.guards - multiset{f})
  }

  /** Dropping a guard: the flow's average cost is updated and the slot passes on. */
  function Release(s: State, f: FlowId, actual: nat): State {
    TryPickupNext(Vacated(Charged(s, f, actual), f))
  }

  /** A record survives while its age, measured from its creation, is below the given one. */
  predicate Young(flow: Flow, now: nat, age: nat) {
    (if now < flow.active then 0 else now - flow.active) < age
  }

  function Purge(s: State, now: nat, age: nat): State {
    s.(flows := map f | f in s.flows && Young(s.flows[f], now, age) :: s.flows[f])
  }

  datatype Event =
    | Acquired(flow: FlowId, weight: nat, now: nat)
    | Released(flow: FlowId, actual: nat)
    | Purged(now: nat, age: nat)

  function Step(s: State, e: Event): State {
    match e
    case Acquired(f, weight, now) => Acquire(s, f, weight, now).0
    case Released(f, actual) => Release(s, f, actual)
    case Purged(now, age) => Purge(s, now, age)
  }

  /** The waiting requests of one flow, in the order of their tags. */
  function Of(q: seq<Request>, f: FlowId): seq<Request> {
    if q == [] then []
    else if q[0].value.flow == f then [q[0]] + Of(q[1..], f)
    else Of(q[1..], f)
  }

  /** A purge is harmless when it keeps the record of every flow that has requests waiting. */
  ghost predicate PurgeSpares(s: State, now: nat, age: nat) {
    forall f :: Of(s.backlog, f) != [] && f in s.flows ==> Young(s.flows[f], now, age)
  }

  /** A guard is dropped once; purging is assumed to spare the flows that have requests waiting. */
  ghost predicate Enabled(s: State, e: Event) {
    match e
    case Acquired(_, _, _) => true
    case Released(f, _) => f in s.guards
    case Purged(now, age) => PurgeSpares(s, now, age)
  }

  function Exec(s: State, events: seq<Event>): State
    decreases |events|
  {
    if events == [] then s else Exec(Step(s, events[0]), events[1..])
  }

  ghost predicate Feasible(s: State, events: seq<Event>)
    decreases |events|
  {
    events == [] || (Enabled(s, events[0]) && Feasible(Step(s, events[0]), events[1..]))
  }

  /** The event does not purge the flow's record. */
  predicate KeepsRecord(s: State, e: Event, f: FlowId) {
    e.Purged? && f in s.flows ==> Young(s.flows[f], e.now, e.age)
  }

  predicate NeverForgotten(s: State, events: seq<Event>, f: FlowId)
    decreases |events|
  {
    events != [] ==> KeepsRecord(s, events[0], f) && NeverForgotten(Step(s, events[0]), events[1..], f)
  }
}
