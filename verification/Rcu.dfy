/**
  Dispatching blocks on a copy.  A request takes the lock, copies the whole state, marks the original
  as dispatching and releases the lock; the blocks run on the copy; then the lock is taken again, the
  copy is written back and the side effects that arrived meanwhile are applied to it.

  A step is what happens under one hold of the lock.  What blocks and effects do to the rest of the
  state is left open: `dispatch` and `apply` are any two functions.
  */
module Rcu {

  const MAX_PENDING := 64

  datatype Phactory<C, E> = Phactory(core: C, rcuDispatching: bool, pendingEffects: seq<E>)

  // The copy a request works on while it does not hold the lock.
  datatype Flight<C, B, E> = NoFlight | Flight(copy: Phactory<C, E>, blocks: B)

  datatype World<C, B, E> = World(phactory: Phactory<C, E>, flight: Flight<C, B, E>)

  datatype Code<!C, !B, !E> = Code(dispatch: (C, B) -> C, apply: (C, E) -> C)

  datatype Event<B, E> =
    | Begin(blocks: B, noRcu: bool)
    | Finish
    | Effect(effect: E)

  function ApplyEffect<C, B, E>(code: Code<C, B, E>, p: Phactory<C, E>, e: E): Phactory<C, E> {
    if p.rcuDispatching then
      if |p.pendingEffects| >= MAX_PENDING then p
      else p.(pendingEffects := p.pendingEffects + [e])
    else p.(core := code.apply(p.core, e))
  }

  function ApplyEffects<C, B, E>(code: Code<C, B, E>, p: Phactory<C, E>, effects: seq<E>): Phactory<C, E>
    decreases |effects|
  {
    if effects == [] then p else ApplyEffects(code, ApplyEffect(code, p, effects[0]), effects[1..])
  }

  predicate Refused<C, E>(p: Phactory<C, E>) {
    p.rcuDispatching
  }

  function WriteBack<C, B, E>(code: Code<C, B, E>, p: Phactory<C, E>, copy: Phactory<C, E>): Phactory<C, E> {
    ApplyEffects(code, copy, p.pendingEffects)
  }

  function Step<C, B, E>(code: Code<C, B, E>, w: World<C, B, E>, e: Event<B, E>): World<C, B, E> {
    match e
    case Begin(blocks, noRcu) =>
      if Refused(w.phactory) then w
      else if noRcu then w.(phactory := w.phactory.(core := code.dispatch(w.phactory.core, blocks)))
      else World(w.phactory.(rcuDispatching := true), Flight(w.phactory, blocks))
    case Finish =>
      if w.flight.NoFlight? then w
      else
        var copy := w.flight.copy.(core := code.dispatch(w.flight.copy.core, w.flight.blocks));
        World(WriteBack(code, w.phactory, copy), NoFlight)
    case Effect(effect) => w.(phactory := ApplyEffect(code, w.phactory, effect))
  }

  function Exec<C, B, E>(code: Code<C, B, E>, w: World<C, B, E>, events: seq<Event<B, E>>): World<C, B, E>
    decreases |events|
  {
    if events == [] then w else Exec(code, Step(code, w, events[0]), events[1..])
  }

  function New<C, B, E>(core: C): World<C, B, E> {
    World(Phactory(core, false, []), NoFlight)
  }

  // ---- the sequential reading: one log of actions, no copy, no pending list

  datatype Action<B, E> = Dispatched(blocks: B) | Applied(effect: E)

  datatype Mode<B, E> = Idle | Flying(blocks: B, arrived: seq<E>)

  datatype History<B, E> = History(log: seq<Action<B, E>>, mode: Mode<B, E>)

  function NewHistory<B, E>(): History<B, E> {
    History([], Idle)
  }

  function Act<C, B, E>(code: Code<C, B, E>, core: C, a: Action<B, E>): C {
    match a
    case Dispatched(blocks) => code.dispatch(core, blocks)
    case Applied(effect) => code.apply(core, effect)
  }

  function Replay<C, B, E>(code: Code<C, B, E>, core: C, log: seq<Action<B, E>>): C
    decreases |log|
  {
    if log == [] then core else Act(code, Replay(code, core, log[..|log| - 1]), log[|log| - 1])
  }

  function FirstArrived<E>(arrived: seq<E>): (first: seq<E>)
    ensures first <= arrived && |first| <= MAX_PENDING
    ensures |first| < MAX_PENDING ==> first == arrived
  {
    if |arrived| <= MAX_PENDING then arrived else arrived[..MAX_PENDING]
  }

  function AppliedAll<B, E>(effects: seq<E>): (log: seq<Action<B, E>>)
    ensures |log| == |effects|
    ensures forall i :: 0 <= i < |effects| ==> log[i] == Applied(effects[i])
  {
    seq(|effects|, i requires 0 <= i < |effects| => Applied(effects[i]))
  }

  /** A dispatch takes effect when it ends, and the first 64 effects that arrived during it follow it. */
  function Record<B, E>(h: History<B, E>, e: Event<B, E>): History<B, E> {
    match e
    case Begin(blocks, noRcu) =>
      if h.mode.Flying? then h
      else if noRcu then h.(log := h.log + [Dispatched(blocks)])
      else h.(mode := Flying(blocks, []))
    case Finish =>
      if h.mode.Idle? then h
      else History(h.log + [Dispatched(h.mode.blocks)] + AppliedAll(FirstArrived(h.mode.arrived)), Idle)
    case Effect(effect) =>
      match h.mode
      case Idle => h.(log := h.log + [Applied(effect)])
      case Flying(blocks, arrived) => h.(mode := Flying(blocks, arrived + [effect]))
  }

  function Recorded<B, E>(h: History<B, E>, events: seq<Event<B, E>>): History<B, E>
    decreases |events|
  {
    if events == [] then h else Recorded(Record(h, events[0]), events[1..])
  }

  /** The world and the history agree. */
  ghost predicate Agree<C, B, E>(code: Code<C, B, E>, core: C, w: World<C, B, E>, h: History<B, E>) {
    && w.phactory.core == Replay(code, core, h.log)
    && match h.mode
       case Idle => w.flight.NoFlight? && !w.phactory.rcuDispatching && w.phactory.pendingEffects == []
       case Flying(blocks, arrived) =>
         && w.phactory.rcuDispatching
         && w.flight == Flight(w.phactory.(rcuDispatching := false, pendingEffects := []), blocks)
         && w.phactory.pendingEffects == FirstArrived(arrived)
  }

  lemma ReplayOne<C, B, E>(code: Code<C, B, E>, core: C, log: seq<Action<B, E>>, a: Action<B, E>)
    ensures Replay(code, core, log + [a]) == Act(code, Replay(code, core, log), a)
  {
    assert (log + [a])[..|log|] == log;
  }

  lemma {:induction false} EffectsAppliedInOrder<C, B, E>(code: Code<C, B, E>, core: C, log: seq<Action<B, E>>,
                                                          p: Phactory<C, E>, effects: seq<E>)
    requires !p.rcuDispatching && p.core == Replay(code, core, log)
    ensures ApplyEffects(code, p, effects) == p.(core := Replay(code, core, log + AppliedAll(effects)))
    decreases |effects|
  {
    if effects == [] {
      assert log + AppliedAll<B, E>(effects) == log;
    } else {
      var a: Action<B, E> := Applied(effects[0]);
      ReplayOne(code, core, log, a);
      EffectsAppliedInOrder(code, core, log + [a], ApplyEffect(code, p, effects[0]), effects[1..]);
      assert log + [a] + AppliedAll<B, E>(effects[1..]) == log + AppliedAll<B, E>(effects);
    }
  }

  lemma EffectAgrees<C, B, E>(code: Code<C, B, E>, core: C, w: World<C, B, E>, h: History<B, E>, e: Event<B, E>)
    requires Agree(code, core, w, h) && e.Effect?
    ensures Agree(code, core, Step(code, w, e), Record(h, e))
  {
    match h.mode
    case Idle => ReplayOne(code, core, h.log, Applied(e.effect));
    case Flying(blocks, arrived) =>
      var longer := arrived + [e.effect];
      if |arrived| < MAX_PENDING {
        assert FirstArrived(longer) == longer;
      } else {
        assert longer[..MAX_PENDING] == arrived[..MAX_PENDING];
        assert FirstArrived(longer) == FirstArrived(arrived);
      }
  }

  lemma FinishAgrees<C, B, E>(code: Code<C, B, E>, core: C, w: World<C, B, E>, h: History<B, E>)
    requires Agree(code, core, w, h) && h.mode.Flying?
    ensures Agree(code, core, Step(code, w, Finish), Record(h, Finish))
  {
    var copy := w.flight.copy.(core := code.dispatch(w.flight.copy.core, w.flight.blocks));
    ReplayOne(code, core, h.log, Dispatched(h.mode.blocks));
    EffectsAppliedInOrder(code, core, h.log + [Dispatched(h.mode.blocks)], copy, w.phactory.pendingEffects);
  }

  lemma StepAgrees<C, B, E>(code: Code<C, B, E>, core: C, w: World<C, B, E>, h: History<B, E>, e: Event<B, E>)
    requires Agree(code, core, w, h)
    ensures Agree(code, core, Step(code, w, e), Record(h, e))
  {
    match e
    case Begin(blocks, noRcu) => ReplayOne(code, core, h.log, Dispatched(blocks));
    case Finish =>
      if h.mode.Flying? {
        FinishAgrees(code, core, w, h);
      }
    case Effect(_) => EffectAgrees(code, core, w, h, e);
  }

  lemma {:induction false} RunAgrees<C, B, E>(code: Code<C, B, E>, core: C, w: World<C, B, E>, h: History<B, E>,
                                              events: seq<Event<B, E>>)
    requires Agree(code, core, w, h)
    ensures Agree(code, core, Exec(code, w, events), Recorded(h, events))
    decreases |events|
  {
    if events != [] {
      StepAgrees(code, core, w, h, events[0]);
      RunAgrees(code, core, Step(code, w, events[0]), Record(h, events[0]), events[1..]);
    }
  }

  /** Dispatching on a copy refines dispatching in place.  After any run the state is the one a single
      log of dispatches and effects leads to; at most one copy is out, it is the current state, and
      effects wait only while it is out. */
  lemma RefinesSequential<C, B, E>(code: Code<C, B, E>, core: C, events: seq<Event<B, E>>)
    ensures var w := Exec(code, New<C, B, E>(core), events);
      var h := Recorded(NewHistory<B, E>(), events);
      && w.phactory.core == Replay(code, core, h.log)
      && (w.flight.Flight? ==> w.phactory.rcuDispatching && w.flight.copy.core == w.phactory.core)
      && (!w.phactory.rcuDispatching ==> w.flight.NoFlight? && w.phactory.pendingEffects == [])
      && (h.mode.Flying? ==> w.phactory.pendingEffects == FirstArrived(h.mode.arrived))
  {
    RunAgrees(code, core, New<C, B, E>(core), NewHistory<B, E>(), events);
  }

  // ---- what happens to the effects

  function Effects<B, E>(log: seq<Action<B, E>>): seq<E>
    decreases |log|
  {
    if log == [] then []
    else Effects(log[..|log| - 1]) + match log[|log| - 1] case Applied(e) => [e] case Dispatched(_) => []
  }

  function Arrivals<B, E>(events: seq<Event<B, E>>): seq<E>
    decreases |events|
  {
    if events == [] then [] else (if events[0].Effect? then [events[0].effect] else []) + Arrivals(events[1..])
  }

  /** The effects of a history that are applied or will be. */
  function Taken<B, E>(h: History<B, E>): seq<E> {
    Effects(h.log) + if h.mode.Flying? then FirstArrived(h.mode.arrived) else []
  }

  predicate Room<B, E>(h: History<B, E>) {
    match h.mode
    case Idle => true
    case Flying(_, arrived) => |arrived| < MAX_PENDING
  }

  // Every effect finds room.
  predicate Roomy<B, E>(h: History<B, E>, events: seq<Event<B, E>>)
    decreases |events|
  {
    events == [] ||
    ((events[0].Effect? ==> Room(h)) && Roomy(Record(h, events[0]), events[1..]))
  }

  lemma EffectsOne<B, E>(log: seq<Action<B, E>>, a: Action<B, E>)
    ensures Effects(log + [a]) == Effects(log) + match a case Applied(e) => [e] case Dispatched(_) => []
  {
    assert (log + [a])[..|log|] == log;
  }

  lemma AppliedNext<B, E>(log: seq<Action<B, E>>, front: seq<E>, last: E)
    ensures log + AppliedAll(front + [last]) == (log + AppliedAll(front)) + [Applied(last)]
  {
  }

  lemma {:induction false} EffectsOfApplied<B, E>(log: seq<Action<B, E>>, effects: seq<E>)
    ensures Effects(log + AppliedAll(effects)) == Effects(log) + effects
    decreases |effects|
  {
    if effects == [] {
      assert log + AppliedAll<B, E>(effects) == log;
    } else {
      var front, last := effects[..|effects| - 1], effects[|effects| - 1];
      assert effects == front + [last];
      EffectsOfApplied(log, front);
      AppliedNext(log, front, last);
      EffectsOne(log + AppliedAll(front), Applied(last));
    }
  }

  /** An effect is taken exactly when there is room for it; nothing else changes what is taken. */
  lemma TakenStep<B, E>(h: History<B, E>, e: Event<B, E>)
    ensures e.Effect? ==> Taken(Record(h, e)) == Taken(h) + if Room(h) then [e.effect] else []
    ensures !e.Effect? ==> Taken(Record(h, e)) == Taken(h)
  {
    match e
    case Begin(blocks, noRcu) => EffectsOne(h.log, Dispatched(blocks));
    case Finish =>
      if h.mode.Flying? {
        EffectsOne(h.log, Dispatched(h.mode.blocks));
        EffectsOfApplied(h.log + [Dispatched(h.mode.blocks)], FirstArrived(h.mode.arrived));
      }
    case Effect(effect) => TakenEffect(h, effect);
  }

  lemma TakenEffect<B, E>(h: History<B, E>, effect: E)
    ensures Taken(Record(h, Effect(effect))) == Taken(h) + if Room(h) then [effect] else []
  {
    match h.mode
    case Idle => EffectsOne(h.log, Applied(effect));
    case Flying(blocks, arrived) =>
      if |arrived| >= MAX_PENDING {
        assert (arrived + [effect])[..MAX_PENDING] == arrived[..MAX_PENDING];
      }
  }

  /** When no dispatch sees more than 64 effects, every effect is applied or waiting, once and in the
      order of arrival. */
  lemma {:induction false} EveryEffectOnce<B, E>(h: History<B, E>, events: seq<Event<B, E>>)
    requires Roomy(h, events)
    ensures Taken(Recorded(h, events)) == Taken(h) + Arrivals(events)
    decreases |events|
  {
    if events != [] {
      TakenStep(h, events[0]);
      EveryEffectOnce(Record(h, events[0]), events[1..]);
    }
  }

  /** And only then: one effect without room is missing from what is taken. */
  lemma {:induction false} TakenAtMostArrived<B, E>(h: History<B, E>, events: seq<Event<B, E>>)
    ensures |Taken(Recorded(h, events))| <= |Taken(h)| + |Arrivals(events)|
    ensures |Taken(Recorded(h, events))| == |Taken(h)| + |Arrivals(events)| <==> Roomy(h, events)
    decreases |events|
  {
    if events != [] {
      TakenStep(h, events[0]);
      TakenAtMostArrived(Record(h, events[0]), events[1..]);
    }
  }

  // ---- one dispatch and the effects that arrive during it

  function Arriving<B, E>(effects: seq<E>): seq<Event<B, E>>
    decreases |effects|
  {
    if effects == [] then [Finish] else [Effect(effects[0])] + Arriving(effects[1..])
  }

  lemma {:induction false} ArrivingArrives<B, E>(effects: seq<E>)
    ensures Arrivals(Arriving<B, E>(effects)) == effects
    decreases |effects|
  {
    if effects == [] {
      assert Arriving<B, E>(effects)[1..] == [];
    } else {
      assert Arriving<B, E>(effects)[1..] == Arriving<B, E>(effects[1..]);
      ArrivingArrives<B, E>(effects[1..]);
    }
  }

  lemma {:induction false} FlightRecorded<B, E>(h: History<B, E>, effects: seq<E>)
    requires h.mode.Flying?
    ensures Recorded(h, Arriving(effects))
         == Record(h.(mode := Flying(h.mode.blocks, h.mode.arrived + effects)), Finish)
    decreases |effects|
  {
    var events := Arriving<B, E>(effects);
    if effects == [] {
      assert h.mode.arrived + effects == h.mode.arrived;
      assert Recorded(Record(h, Finish), events[1..]) == Record(h, Finish);
    } else {
      assert events[1..] == Arriving<B, E>(effects[1..]);
      assert h.mode.arrived + [effects[0]] + effects[1..] == h.mode.arrived + effects;
      FlightRecorded(Record(h, events[0]), effects[1..]);
    }
  }

  /** Of the effects that arrive during one dispatch those beyond the 64th are lost. */
  lemma LateEffectsLost<C, B, E>(code: Code<C, B, E>, core: C, blocks: B, effects: seq<E>)
    requires |effects| > MAX_PENDING
    ensures var events := [Begin(blocks, false)] + Arriving<B, E>(effects);
      var log := [Dispatched(blocks)] + AppliedAll<B, E>(effects[..MAX_PENDING]);
      && Arrivals(events) == effects
      && Recorded(NewHistory<B, E>(), events) == History(log, Idle)
      && Effects(log) == effects[..MAX_PENDING]
      && Exec(code, New<C, B, E>(core), events).phactory.core == Replay(code, core, log)
  {
    var events := [Begin(blocks, false)] + Arriving<B, E>(effects);
    var begun: seq<Action<B, E>> := [Dispatched(blocks)];
    assert events[1..] == Arriving<B, E>(effects);
    ArrivingArrives<B, E>(effects);
    FlightRecorded<B, E>(History([], Flying(blocks, [])), effects);
    assert [] + effects == effects;
    assert [] + begun == begun;
    assert Effects(begun) == [] by {
      assert begun[..0] == [];
    }
    EffectsOfApplied(begun, effects[..MAX_PENDING]);
    RefinesSequential(code, core, events);
  }

  // ---- the state in place

  class Service<!C, !B, !E> {
    const code: Code<C, B, E>
    var core: C
    var rcuDispatching: bool
    var pendingEffects: seq<E>

    constructor (code: Code<C, B, E>, core: C)
      ensures this.code == code && Value() == New<C, B, E>(core).phactory
    {
      this.code := code;
      this.core, rcuDispatching, pendingEffects := core, false, [];
    }

    function Value(): Phactory<C, E>
      reads this
    {
      Phactory(core, rcuDispatching, pendingEffects)
    }

    method ApplySideEffects(effect: E)
      modifies this
      ensures Value() == ApplyEffect(code, old(Value()), effect)
    {
      if rcuDispatching {
        if |pendingEffects| >= MAX_PENDING {
          return;
        }
        pendingEffects := pendingEffects + [effect];
        return;
      }
      core := code.apply(core, effect);
    }

    /** The first hold of the lock; the copy, if any, is returned. */
    method BeginDispatch(blocks: B, noRcu: bool) returns (ok: bool, flight: Flight<C, B, E>)
      modifies this
      ensures ok == !Refused(old(Value()))
      ensures forall before: Flight<C, B, E> ::
        Step(code, World(old(Value()), before), Begin(blocks, noRcu))
        == World(Value(), if ok && !noRcu then flight else before)
      ensures !ok || noRcu ==> flight == NoFlight
    {
      flight := NoFlight;
      ok := !rcuDispatching;
      if ok {
        if noRcu {
          core := code.dispatch(core, blocks);
        } else {
          flight := Flight(Value(), blocks);
          rcuDispatching := true;
        }
      }
    }

    /** The second hold of the lock: the copy replaces the state and the waiting effects are applied. */
    method FinishDispatch(copy: Phactory<C, E>)
      modifies this
      ensures Value() == WriteBack(code, old(Value()), copy)
    {
      var waiting := pendingEffects;
      core, rcuDispatching, pendingEffects := copy.core, copy.rcuDispatching, copy.pendingEffects;
      var i := 0;
      while i < |waiting|
        invariant 0 <= i <= |waiting|
        invariant ApplyEffects(code, Value(), waiting[i..]) == WriteBack(code, old(Value()), copy)
      {
        assert waiting[i..][1..] == waiting[i + 1..];
        ApplySideEffects(waiting[i]);
        i := i + 1;
      }
    }
  }
}
