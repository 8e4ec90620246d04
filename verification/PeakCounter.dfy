/**
  The allocator's usage counters: `current` follows the heap, `spike` is raised by every allocation
  with a compare-exchange loop and zeroed by every reading of the statistics, `peak` gathers the spikes.

  A step is one atomic operation of one thread, so a run is any interleaving.  `high` is the largest
  usage any allocation has reached, `done` the largest reached by an allocation that has left its
  loop; `live` holds the sizes of the blocks and `drift` what failed requests have left in `current`.
  */
module PeakCounter {

  type ThreadId = nat
  type Pointer = nat

  // An allocating thread: it has added its size, then it knows a value of `spike`.
  datatype Adding = Added(total: int) | Loaded(total: int, seen: int)

  // A reader of the statistics.  What it knew at its swap is kept for the statements.
  datatype Reading =
    | Swapped(spike: int, known: Known)
    | Compared(spike: int, currentPeak: int, known: Known)

  // What was true at a swap: `done`, `high`, and whether no allocation was in its loop.
  datatype Known = Known(low: int, high: int, quiet: bool)

  datatype Report = Report(peak: int, known: Known)

  datatype State = State(
    current: int,
    spike: int,
    peak: int,
    adding: map<ThreadId, Adding>,
    reading: map<ThreadId, Reading>,
    reports: seq<Report>,
    high: int,
    done: int,
    live: map<Pointer, nat>,
    drift: int)

  const NEW := State(0, 0, 0, map[], map[], [], 0, 0, map[], 0)

  function Max(a: int, b: int): int {
    if a < b then b else a
  }

  datatype Event =
    | Alloc(thread: ThreadId, pointer: Pointer, size: nat, ok: bool)
    | Dealloc(pointer: Pointer)
    | Realloc(thread: ThreadId, pointer: Pointer, newSize: nat, ok: bool)
    | LoadSpike(thread: ThreadId)
    | CompareExchange(thread: ThreadId)
    | SwapSpike(reader: ThreadId)
    | LoadPeak(reader: ThreadId)
    | StorePeak(reader: ThreadId)

  /** The first step of an allocation: the size is added and the new total remembered. */
  function FetchAdd(s: State, t: ThreadId, size: nat): State {
    var total := s.current + size;
    s.(current := total, adding := s.adding[t := Added(total)], high := Max(s.high, total))
  }

  function Leave(s: State, t: ThreadId, total: int): State {
    s.(adding := s.adding - {t}, done := Max(s.done, total))
  }

  function Exchange(s: State, t: ThreadId): State
    requires t in s.adding && s.adding[t].Loaded?
  {
    var Loaded(total, seen) := s.adding[t];
    if total <= seen then Leave(s, t, total)
    else if s.spike == seen then Leave(s.(spike := total), t, total)
    else s.(adding := s.adding[t := Loaded(total, s.spike)])
  }

  /** What a changed size does to the blocks, or to the drift when the request fails. */
  function Booked(s: State, p: Pointer, newSize: nat, ok: bool): State
    requires p in s.live
  {
    if ok then s.(live := s.live[p := newSize]) else s.(drift := s.drift + newSize - s.live[p])
  }

  function Resize(s: State, t: ThreadId, difference: int): State {
    if difference < 0 then s.(current := s.current + difference)
    else if difference > 0 then FetchAdd(s, t, difference)
    else s
  }

  function Step(s: State, e: Event): State {
    match e
    case Alloc(t, p, size, ok) =>
      if ok then FetchAdd(s, t, size).(live := s.live[p := size])
      else FetchAdd(s, t, size).(drift := s.drift + size)
    case Dealloc(p) =>
      if p in s.live then s.(current := s.current - s.live[p], live := s.live - {p}) else s
    case Realloc(t, p, newSize, ok) =>
      if p !in s.live then s else Resize(Booked(s, p, newSize, ok), t, newSize - s.live[p])
    case LoadSpike(t) =>
      if t in s.adding && s.adding[t].Added? then s.(adding := s.adding[t := Loaded(s.adding[t].total, s.spike)])
      else s
    case CompareExchange(t) =>
      if t in s.adding && s.adding[t].Loaded? then Exchange(s, t) else s
    case SwapSpike(r) =>
      s.(spike := 0, reading := s.reading[r := Swapped(s.spike, Known(s.done, s.high, s.adding == map[]))])
    case LoadPeak(r) =>
      if r in s.reading && s.reading[r].Swapped? then
        var x := s.reading[r];
        s.(reading := s.reading[r := Compared(x.spike, s.peak, x.known)])
      else s
    case StorePeak(r) =>
      if r in s.reading && s.reading[r].Compared? then
        var x := s.reading[r];
        var peak := Max(x.currentPeak, x.spike);
        s.(peak := peak, reading := s.reading - {r}, reports := s.reports + [Report(peak, x.known)])
      else s
  }

  /** A thread finishes one request before the next, fresh blocks are fresh, and the statistics are
      read by one reader at a time. */
  predicate Enabled(s: State, e: Event) {
    match e
    case Alloc(t, p, _, _) => t !in s.adding && p !in s.live
    case Realloc(t, _, _, _) => t !in s.adding
    case SwapSpike(_) => s.reading == map[]
    case _ => true
  }

  function Exec(s: State, events: seq<Event>): State
    decreases |events|
  {
    if events == [] then s else Exec(Step(s, events[0]), events[1..])
  }

  predicate Feasible(s: State, events: seq<Event>)
    decreases |events|
  {
    events == [] || (Enabled(s, events[0]) && Feasible(Step(s, events[0]), events[1..]))
  }

  /** A run given state by state. */
  lemma {:induction false} Unroll(s: State, events: seq<Event>, states: seq<State>)
    requires |states| == |events| + 1 && states[0] == s
    requires forall i :: 0 <= i < |events| ==> states[i + 1] == Step(states[i], events[i])
    ensures Exec(s, events) == states[|events|]
    decreases |events|
  {
    if events != [] {
      Unroll(states[1], events[1..], states[1..]);
    }
  }

  lemma {:induction false} Join(s: State, early: seq<Event>, late: seq<Event>)
    ensures Exec(s, early + late) == Exec(Exec(s, early), late)
    decreases |early|
  {
    if early == [] {
      assert early + late == late;
    } else {
      assert (early + late)[1..] == early[1..] + late;
      Join(Step(s, early[0]), early[1..], late);
    }
  }
}
