/** Runs given state by state or put together from two. */
module TaskQueueRuns {
  import opened TaskQueue
  import opened TaskQueuePanics

  /** A first event and the rest of a run. */
  lemma First(s: State, e: Event, t: State, rest: seq<Event>)
    requires t == Step(s, e)
    ensures Exec(s, [e] + rest) == Exec(t, rest)
    ensures Fresh(s, e) && AllFresh(t, rest) ==> AllFresh(s, [e] + rest)
    ensures Disciplined(s, e) && AllDisciplined(t, rest) ==> AllDisciplined(s, [e] + rest)
  {
    assert ([e] + rest)[1..] == rest;
  }

  lemma Two(s0: State, e0: Event, s1: State, e1: Event, s2: State)
    requires s1 == Step(s0, e0) && s2 == Step(s1, e1)
    ensures Exec(s0, [e0, e1]) == s2
    ensures Fresh(s0, e0) && Fresh(s1, e1) ==> AllFresh(s0, [e0, e1])
    ensures Disciplined(s0, e0) && Disciplined(s1, e1) ==> AllDisciplined(s0, [e0, e1])
  {
    assert [e0, e1] == [e0] + ([e1] + []);
    First(s1, e1, s2, []);
    First(s0, e0, s1, [e1] + []);
  }

  lemma Three(s0: State, e0: Event, s1: State, e1: Event, s2: State, e2: Event, s3: State)
    requires s1 == Step(s0, e0) && s2 == Step(s1, e1) && s3 == Step(s2, e2)
    ensures Exec(s0, [e0, e1, e2]) == s3
    ensures Fresh(s0, e0) && Fresh(s1, e1) && Fresh(s2, e2) ==> AllFresh(s0, [e0, e1, e2])
    ensures Disciplined(s0, e0) && Disciplined(s1, e1) && Disciplined(s2, e2) ==> AllDisciplined(s0, [e0, e1, e2])
  {
    assert [e0, e1, e2] == [e0] + [e1, e2];
    Two(s1, e1, s2, e2, s3);
    First(s0, e0, s1, [e1, e2]);
  }

  lemma {:induction false} Join(s: State, early: seq<Event>, late: seq<Event>)
    ensures Exec(s, early + late) == Exec(Exec(s, early), late)
    ensures AllFresh(s, early) && AllFresh(Exec(s, early), late) ==> AllFresh(s, early + late)
    ensures AllDisciplined(s, early) && AllDisciplined(Exec(s, early), late) ==> AllDisciplined(s, early + late)
    decreases |early|
  {
    if early == [] {
      assert early + late == late;
    } else {
      assert (early + late)[1..] == early[1..] + late;
      Join(Step(s, early[0]), early[1..], late);
    }
  }

  /** Disciplined callers drop only guards they have. */
  lemma {:induction false} DisciplinedFeasible(s: State, events: seq<Event>)
    requires AllDisciplined(s, events)
    ensures Feasible(s, events)
    decreases |events|
  {
    if events != [] {
      DisciplinedFeasible(Step(s, events[0]), events[1..]);
    }
  }
}
