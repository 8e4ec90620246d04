/** What the chain itself sends: at once, or at the beginning of the next block. */
module MqOnchain {
  import opened MqMessages
  import MqPallet
  import opened MqProtocol

  /** A block begins: what was queued is handed out in order, and what was published before is cleared. */
  lemma BlockDispatchesQueued(w: World)
    requires w.chain.blockStart <= |w.chain.received| && w.chain.outbound == Offchain(w.chain.received[w.chain.blockStart..])
    ensures var c := Step(w, BlockStarted).chain;
      && c.received == w.chain.received + w.chain.queued
      && c.queued == [] && c.outbound == Offchain(w.chain.queued)
      && c.blockStart == |w.chain.received| && c.ingress == w.chain.ingress
  {
    var start := w.chain.(outbound := [], queued := [], blockStart := |w.chain.received|);
    assert start.received[start.blockStart..] == [];
    MqPallet.DispatchAllEffect(start, w.chain.queued);
    assert (w.chain.received + w.chain.queued)[|w.chain.received|..] == w.chain.queued;
  }

  /** The messages that do not come from off-chain senders. */
  function Onchain(q: seq<Message>): seq<Message> {
    if q == [] then []
    else if IsOffchain(q[|q| - 1].sender) then Onchain(q[..|q| - 1])
    else Onchain(q[..|q| - 1]) + [q[|q| - 1]]
  }

  lemma {:induction false} OnchainConcat(a: seq<Message>, b: seq<Message>)
    ensures Onchain(a + b) == Onchain(a) + Onchain(b)
  {
    if b == [] {
      assert a + b == a;
    } else {
      assert (a + b)[..|a + b| - 1] == a + b[..|b| - 1];
      OnchainConcat(a, b[..|b| - 1]);
    }
  }

  lemma {:induction false} OnchainAll(q: seq<Message>)
    requires forall m :: m in q ==> !IsOffchain(m.sender)
    ensures Onchain(q) == q
  {
    if q != [] {
      OnchainAll(q[..|q| - 1]);
    }
  }

  lemma OnchainOne(q: seq<Message>, m: Message)
    ensures Onchain(q + [m]) == if IsOffchain(m.sender) then Onchain(q) else Onchain(q) + [m]
  {
    assert (q + [m])[..|q|] == q;
  }

  // ---- what is due, read off the calls

  datatype Due = Due(handedOut: seq<Message>, waiting: seq<Message>)

  function After(d: Due, e: Event): Due {
    match e
    case OnchainPushed(m) => d.(handedOut := d.handedOut + [m])
    case OnchainQueued(m) => d.(waiting := d.waiting + [m])
    case BlockStarted => Due(d.handedOut + d.waiting, [])
    case _ => d
  }

  function AfterAll(d: Due, events: seq<Event>): Due
    decreases |events|
  {
    if events == [] then d else AfterAll(After(d, events[0]), events[1..])
  }

  ghost predicate Matches(c: MqPallet.State, d: Due) {
    && Onchain(c.received) == d.handedOut && c.queued == d.waiting
    && (forall m :: m in c.queued ==> !IsOffchain(m.sender))
  }

  lemma StepMatches(w: World, e: Event, log: Log, d: Due)
    requires Delivered(w, log) && Enabled(w, e, log) && Matches(w.chain, d)
    ensures Matches(Step(w, e).chain, After(d, e))
  {
    match e
    case Relayed(m, _) => OnchainOne(w.chain.received, m.message);
    case OnchainPushed(m) => OnchainOne(w.chain.received, m);
    case BlockStarted =>
      BlockDispatchesQueued(w);
      OnchainConcat(w.chain.received, w.chain.queued);
      OnchainAll(w.chain.queued);
    case _ =>
  }

  lemma {:induction false} RunMatches(w: World, events: seq<Event>, log: Log, d: Due)
    requires Delivered(w, log) && Feasible(w, events, log) && Matches(w.chain, d)
    ensures Matches(Exec(w, events).chain, AfterAll(d, events))
    decreases |events|
  {
    if events != [] {
      StepMatches(w, events[0], log, d);
      StepDelivered(w, events[0], log);
      RunMatches(Step(w, events[0]), events[1..], log, After(d, events[0]));
    }
  }

  /** In every run the messages received from on-chain senders are those pushed, in order, and those queued, in
      order and at the beginning of the block after; the others still wait. */
  lemma OnchainInOrder(events: seq<Event>, log: Log)
    requires Feasible(GENESIS, events, log)
    ensures var c, d := Exec(GENESIS, events).chain, AfterAll(Due([], []), events);
      Onchain(c.received) == d.handedOut && c.queued == d.waiting
  {
    GenesisDelivered(log);
    RunMatches(GENESIS, events, log, Due([], []));
  }
}
