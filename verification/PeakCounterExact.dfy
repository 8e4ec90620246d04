/** No total is lost between the spike, the peak and the reader that carries one to the other. */
module PeakCounterExact {
  import opened PeakCounter

  /** A value is safe when a counter, or the reader about to store it, is at least as large. */
  ghost predicate Safe(s: State, v: int) {
    v <= s.spike || v <= s.peak || exists r :: r in s.reading && v <= s.reading[r].spike
  }

  ghost predicate ReaderFits(s: State, x: Reading) {
    && 0 <= x.spike <= x.known.high <= s.high
    && s.peak <= x.known.high
    && (x.known.low <= x.spike || x.known.low <= s.peak)
    && (x.known.quiet ==> x.known.low == x.known.high)
    && (x.Compared? ==> x.currentPeak == s.peak)
  }

  ghost predicate AddingFits(s: State, a: Adding) {
    a.total <= s.high && (a.Loaded? ==> a.seen <= s.high && Safe(s, a.seen))
  }

  predicate Honest(r: Report) {
    r.known.low <= r.peak <= r.known.high && (r.known.quiet ==> r.peak == r.known.high)
  }

  ghost predicate Inv(s: State) {
    && 0 <= s.spike <= s.high && 0 <= s.peak <= s.high
    && (forall r, q :: r in s.reading && q in s.reading ==> r == q)
    && (forall r :: r in s.reading ==> ReaderFits(s, s.reading[r]))
    && (forall t :: t in s.adding ==> AddingFits(s, s.adding[t]))
    && s.done <= s.high && Safe(s, s.done)
    && (s.high <= s.done || exists t :: t in s.adding && s.adding[t].total == s.high)
    && (forall i :: 0 <= i < |s.reports| ==> Honest(s.reports[i]))
  }

  lemma FetchAddInv(s: State, t: ThreadId, size: nat)
    requires Inv(s) && t !in s.adding
    ensures Inv(FetchAdd(s, t, size))
  {
    var u := FetchAdd(s, t, size);
    forall v | Safe(s, v) ensures Safe(u, v) {
    }
    if s.high < u.high {
      assert u.adding[t].total == u.high;
    } else if s.high > s.done {
      var k :| k in s.adding && s.adding[k].total == s.high;
      assert k in u.adding && u.adding[k].total == u.high;
    }
  }

  lemma ExchangeInv(s: State, t: ThreadId)
    requires Inv(s) && t in s.adding && s.adding[t].Loaded?
    ensures Inv(Exchange(s, t))
  {
    var u := Exchange(s, t);
    var total, seen := s.adding[t].total, s.adding[t].seen;
    assert AddingFits(s, s.adding[t]);
    forall v | Safe(s, v) ensures Safe(u, v) {
    }
    assert total <= seen || s.spike == seen ==> Safe(u, total);
    if u.high > u.done {
      var k :| k in s.adding && s.adding[k].total == s.high;
      assert k in u.adding && u.adding[k].total == u.high;
    }
  }

  lemma SwapInv(s: State, r: ThreadId)
    requires Inv(s) && s.reading == map[]
    ensures Inv(Step(s, SwapSpike(r)))
  {
    var u := Step(s, SwapSpike(r));
    assert r in u.reading && u.reading[r].spike == s.spike;
    forall v | Safe(s, v) ensures Safe(u, v) {
    }
    assert Safe(s, s.done);
    forall t | t in u.adding ensures AddingFits(u, u.adding[t]) {
      assert AddingFits(s, s.adding[t]);
    }
  }

  lemma StoreInv(s: State, r: ThreadId)
    requires Inv(s) && r in s.reading && s.reading[r].Compared?
    ensures Inv(Step(s, StorePeak(r)))
  {
    var u := Step(s, StorePeak(r));
    assert ReaderFits(s, s.reading[r]);
    forall v | Safe(s, v) ensures Safe(u, v) {
      if q :| q in s.reading && v <= s.reading[q].spike {
        assert q == r;
      }
    }
    forall t | t in u.adding ensures AddingFits(u, u.adding[t]) {
      assert AddingFits(s, s.adding[t]);
    }
    assert u.reading == map[];
  }

  lemma LoadSpikeInv(s: State, t: ThreadId)
    requires Inv(s) && t in s.adding && s.adding[t].Added?
    ensures Inv(Step(s, LoadSpike(t)))
  {
    var u := Step(s, LoadSpike(t));
    forall v | Safe(s, v) ensures Safe(u, v) {
    }
    forall k | k in u.adding ensures AddingFits(u, u.adding[k]) {
      assert AddingFits(s, s.adding[k]);
    }
    if s.high > s.done {
      var k :| k in s.adding && s.adding[k].total == s.high;
      assert k in u.adding && u.adding[k].total == u.high;
    }
  }

  lemma LoadPeakInv(s: State, r: ThreadId)
    requires Inv(s) && r in s.reading && s.reading[r].Swapped?
    ensures Inv(Step(s, LoadPeak(r)))
  {
    var u := Step(s, LoadPeak(r));
    assert ReaderFits(s, s.reading[r]);
    forall v | Safe(s, v) ensures Safe(u, v) {
      if q :| q in s.reading && v <= s.reading[q].spike {
        assert q in u.reading && v <= u.reading[q].spike;
      }
    }
    forall k | k in u.adding ensures AddingFits(u, u.adding[k]) {
      assert AddingFits(s, s.adding[k]);
    }
  }

  /** The counters do not look at the blocks. */
  lemma InvFrame(s: State, u: State)
    requires Inv(s) && u == s.(live := u.live, drift := u.drift, current := u.current)
    ensures Inv(u)
  {
    forall v | Safe(s, v) ensures Safe(u, v) {
    }
    forall t | t in u.adding ensures AddingFits(u, u.adding[t]) {
      assert AddingFits(s, s.adding[t]);
    }
  }

  lemma AllocInv(s: State, e: Event)
    requires Inv(s) && Enabled(s, e) && e.Alloc?
    ensures Inv(Step(s, e))
  {
    var u := FetchAdd(s, e.thread, e.size);
    FetchAddInv(s, e.thread, e.size);
    InvFrame(u, Step(s, e));
  }

  lemma ResizeInv(s: State, t: ThreadId, difference: int)
    requires Inv(s) && t !in s.adding
    ensures Inv(Resize(s, t, difference))
  {
    if difference < 0 {
      InvFrame(s, Resize(s, t, difference));
    } else if difference > 0 {
      FetchAddInv(s, t, difference);
    }
  }

  lemma ReallocInv(s: State, e: Event)
    requires Inv(s) && Enabled(s, e) && e.Realloc? && e.pointer in s.live
    ensures Inv(Step(s, e))
  {
    var u := Booked(s, e.pointer, e.newSize, e.ok);
    InvFrame(s, u);
    ResizeInv(u, e.thread, e.newSize - s.live[e.pointer]);
  }

  lemma AddingStepInv(s: State, e: Event)
    requires Inv(s) && Enabled(s, e) && (e.LoadSpike? || e.CompareExchange? || e.Alloc? || e.Realloc? || e.Dealloc?)
    ensures Inv(Step(s, e))
  {
    match e
    case Alloc(_, _, _, _) => AllocInv(s, e);
    case Dealloc(_) => InvFrame(s, Step(s, e));
    case Realloc(_, p, _, _) =>
      if p in s.live {
        ReallocInv(s, e);
      }
    case LoadSpike(t) =>
      if t in s.adding && s.adding[t].Added? {
        LoadSpikeInv(s, t);
      }
    case CompareExchange(t) =>
      if t in s.adding && s.adding[t].Loaded? {
        ExchangeInv(s, t);
      }
  }

  lemma StepInv(s: State, e: Event)
    requires Inv(s) && Enabled(s, e)
    ensures Inv(Step(s, e))
  {
    match e
    case SwapSpike(r) => SwapInv(s, r);
    case LoadPeak(r) =>
      if r in s.reading && s.reading[r].Swapped? {
        LoadPeakInv(s, r);
      }
    case StorePeak(r) =>
      if r in s.reading && s.reading[r].Compared? {
        StoreInv(s, r);
      }
    case _ => AddingStepInv(s, e);
  }

  lemma {:induction false} RunInv(s: State, events: seq<Event>)
    requires Inv(s) && Feasible(s, events)
    ensures Inv(Exec(s, events))
    decreases |events|
  {
    if events != [] {
      StepInv(s, events[0]);
      RunInv(Step(s, events[0]), events[1..]);
    }
  }

  /** The peak is exact.  In every interleaving every report is at least the usage reached by any
      allocation that had left its loop when the spike was swapped, at most the usage reached by any
      allocation by then, and equal to it when no allocation was in its loop; and between reports
      nothing is lost from the counters. */
  lemma PeakIsExact(events: seq<Event>)
    requires Feasible(NEW, events)
    ensures var s := Exec(NEW, events);
      && (forall i :: 0 <= i < |s.reports| ==> Honest(s.reports[i]))
      && s.peak <= s.high && s.spike <= s.high
      && (s.adding == map[] && s.reading == map[] ==> Max(s.peak, s.spike) == s.high)
  {
    assert Inv(NEW);
    RunInv(NEW, events);
  }

  /** `high` is what it is called: no state of the run uses more ... */
  lemma {:induction false} NeverHigher(s: State, events: seq<Event>, k: nat)
    requires s.current <= s.high && k <= |events|
    ensures Exec(s, events[..k]).current <= Exec(s, events).high
    ensures s.high <= Exec(s, events).high
    decreases |events|
  {
    if events != [] {
      NeverHigher(Step(s, events[0]), events[1..], if k == 0 then 0 else k - 1);
      if k > 0 {
        assert events[..k][1..] == events[1..][..k - 1];
      }
    }
  }

  /** ... and some state of it uses that much. */
  lemma {:induction false} HighReached(s: State, events: seq<Event>) returns (k: nat)
    requires s.current <= s.high
    ensures k <= |events|
    ensures Exec(s, events).high == s.high || Exec(s, events[..k]).current == Exec(s, events).high
    decreases |events|
  {
    k := 0;
    if events != [] {
      var u := Step(s, events[0]);
      var j := HighReached(u, events[1..]);
      k := j + 1;
      assert events[..k][1..] == events[1..][..j];
      if Exec(s, events).high == u.high && u.high != s.high {
        k := 1;
        assert events[..1] == [events[0]];
        assert Exec(s, [events[0]]) == u;
      }
    }
  }

  predicate ElsewhereAtLeast(s: State, r: ThreadId, v: int) {
    v <= s.spike || exists q :: q in s.reading && q != r && v <= s.reading[q].spike
  }

  /** With any number of readers, a reader that stores its maximum loses no value from the counters
      exactly when that maximum is not below the peak it overwrites, or the peak is held elsewhere. */
  lemma StoreKeepsIff(s: State, r: ThreadId)
    requires r in s.reading && s.reading[r].Compared?
    ensures (forall v :: Safe(s, v) ==> Safe(Step(s, StorePeak(r)), v))
      <==> s.peak <= Max(s.reading[r].currentPeak, s.reading[r].spike) || ElsewhereAtLeast(s, r, s.peak)
  {
    var u := Step(s, StorePeak(r));
    if s.peak <= Max(s.reading[r].currentPeak, s.reading[r].spike) || ElsewhereAtLeast(s, r, s.peak) {
      forall v | Safe(s, v) ensures Safe(u, v) {
        if q :| q in s.reading && q != r && (v <= s.reading[q].spike || v <= s.peak <= s.reading[q].spike) {
          assert q in u.reading && v <= u.reading[q].spike;
        }
      }
    } else {
      assert Safe(s, s.peak);
      assert !Safe(u, s.peak);
    }
  }

  /** With two readers at once a peak can be lost for good. */
  lemma TwoReadersLosePeak(s: State, a: ThreadId, b: ThreadId)
    requires a != b && s.reading == map[] && 0 == s.peak < s.spike
    ensures var u := Exec(s, [SwapSpike(a), LoadPeak(a), SwapSpike(b), LoadPeak(b), StorePeak(a), StorePeak(b)]);
      u.peak == 0 && u.spike == 0 && u.high == s.high && u.reading == map[] && u.adding == s.adding
  {
    var es := [SwapSpike(a), LoadPeak(a), SwapSpike(b), LoadPeak(b), StorePeak(a), StorePeak(b)];
    var s1 := Step(s, es[0]);
    var s2 := Step(s1, es[1]);
    var s3 := Step(s2, es[2]);
    var s4 := Step(s3, es[3]);
    assert s4.peak == 0 && s4.spike == 0 && s4.reading.Keys == {a, b} && s4.reading[b].spike == 0;
    assert s4.reading[a].Compared? && s4.reading[b].Compared? && s4.reading[b].currentPeak == 0;
    var s5 := Step(s4, es[4]);
    var s6 := Step(s5, es[5]);
    Unroll(s, es, [s, s1, s2, s3, s4, s5, s6]);
  }

  // ---- calls that nothing disturbs

  lemma UndisturbedAdd(s: State, t: ThreadId, p: Pointer, size: nat)
    requires t !in s.adding
    ensures var u := Exec(s, [Alloc(t, p, size, true), LoadSpike(t), CompareExchange(t)]);
      && u.current == s.current + size
      && u.spike == Max(s.spike, u.current)
      && u.peak == s.peak && u.adding == s.adding && u.reading == s.reading && u.high == Max(s.high, u.current)
  {
    var es := [Alloc(t, p, size, true), LoadSpike(t), CompareExchange(t)];
    var s1 := Step(s, es[0]);
    var s2 := Step(s1, es[1]);
    var s3 := Step(s2, es[2]);
    Unroll(s, es, [s, s1, s2, s3]);
  }

  lemma UndisturbedStats(s: State, r: ThreadId)
    requires r !in s.reading
    ensures var u := Exec(s, [SwapSpike(r), LoadPeak(r), StorePeak(r)]);
      && u.current == s.current && u.spike == 0
      && u.peak == Max(s.peak, s.spike) && u.reading == s.reading
      && |u.reports| == |s.reports| + 1 && u.reports[|s.reports|].peak == u.peak
  {
    var es := [SwapSpike(r), LoadPeak(r), StorePeak(r)];
    var s1 := Step(s, es[0]);
    var s2 := Step(s1, es[1]);
    var s3 := Step(s2, es[2]);
    Unroll(s, es, [s, s1, s2, s3]);
  }

  /** One undisturbed allocation of a new allocator and then two readers at once: no counter knows the usage. */
  lemma PeakLostFromNew(t: ThreadId, p: Pointer, size: nat, a: ThreadId, b: ThreadId)
    requires a != b && 0 < size
    ensures var u := Exec(NEW, [Alloc(t, p, size, true), LoadSpike(t), CompareExchange(t)]
                               + [SwapSpike(a), LoadPeak(a), SwapSpike(b), LoadPeak(b), StorePeak(a), StorePeak(b)]);
      u.adding == map[] && u.reading == map[] && Max(u.peak, u.spike) == 0 < size == u.high
  {
    var s := NEW;
    UndisturbedAdd(s, t, p, size);
    var add := [Alloc(t, p, size, true), LoadSpike(t), CompareExchange(t)];
    TwoReadersLosePeak(Exec(s, add), a, b);
    Join(s, add, [SwapSpike(a), LoadPeak(a), SwapSpike(b), LoadPeak(b), StorePeak(a), StorePeak(b)]);
  }
}
