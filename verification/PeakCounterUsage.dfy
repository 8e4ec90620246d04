/** `current` against the blocks that are live. */
module PeakCounterUsage {
  import opened PeakCounter

  ghost function Total(m: map<Pointer, nat>): nat
    decreases |m|
  {
    if m == map[] then 0
    else
      var p :| p in m;
      m[p] + Total(m - {p})
  }

  lemma {:induction false} TotalWithout(m: map<Pointer, nat>, p: Pointer)
    requires p in m
    ensures Total(m) == m[p] + Total(m - {p})
    decreases |m|
  {
    var q :| q in m && Total(m) == m[q] + Total(m - {q});
    if q != p {
      TotalWithout(m - {q}, p);
      TotalWithout(m - {p}, q);
      assert m - {q} - {p} == m - {p} - {q};
    }
  }

  lemma TotalWith(m: map<Pointer, nat>, p: Pointer, size: nat)
    ensures Total(m[p := size]) == Total(m) + size - if p in m then m[p] else 0
  {
    TotalWithout(m[p := size], p);
    assert m[p := size] - {p} == m - {p};
    if p in m {
      TotalWithout(m, p);
    } else {
      assert m - {p} == m;
    }
  }

  /** `current` is the size of all live blocks plus what failed requests left behind. */
  ghost predicate Accounted(s: State) {
    s.current == Total(s.live) + s.drift
  }

  lemma StepAccounted(s: State, e: Event)
    requires Accounted(s) && Enabled(s, e)
    ensures Accounted(Step(s, e))
    ensures (e.Alloc? || e.Realloc? ==> e.ok) ==> Step(s, e).drift == s.drift
  {
    match e
    case Alloc(t, p, size, ok) => TotalWith(s.live, p, size);
    case Dealloc(p) =>
      if p in s.live {
        TotalWithout(s.live, p);
      }
    case Realloc(t, p, newSize, ok) => TotalWith(s.live, p, newSize);
    case _ =>
  }

  /** Without failed requests `current` is exactly the size of the live blocks. */
  lemma {:induction false} CurrentIsLiveSize(s: State, events: seq<Event>)
    requires Accounted(s) && Feasible(s, events)
    ensures Accounted(Exec(s, events))
    ensures (forall i :: 0 <= i < |events| && (events[i].Alloc? || events[i].Realloc?) ==> events[i].ok) ==>
      Exec(s, events).current == Total(Exec(s, events).live) + s.drift
    decreases |events|
  {
    if events != [] {
      StepAccounted(s, events[0]);
      CurrentIsLiveSize(Step(s, events[0]), events[1..]);
    }
  }
}
