/**
  The whole path from the workers to the chain: any number of replicas that send as the same origins,
  a relayer that may copy, reorder, repeat, drop and forge, and the chain.

  The k-th message of origin o is `log(o, k)`; replicas agree on it.  `signed` holds everything a
  replica ever signed; the signature check passes nothing else.  `lossy` holds the channels that have
  been in dummy mode, or were loaded from one that had.
  */
module MqProtocol {
  import opened MqMessages
  import opened SendQueue
  import MqPallet

  type ReplicaId = nat
  type Log = (Origin, nat) -> Message

  datatype Dump = Dump(origin: Origin, channel: Channel, lossy: bool)

  datatype World = World(
    queues: map<ReplicaId, Queue>,
    dumps: seq<Dump>,
    signed: set<(Message, nat)>,
    lossy: set<(ReplicaId, Origin)>,
    chain: MqPallet.State)

  const GENESIS := World(map[], [], {}, {}, MqPallet.GENESIS)

  datatype Event =
    | Pushed(replica: ReplicaId, message: Message, signature: string)
    | DummySet(replica: ReplicaId, origin: Origin, dummy: bool)
    | Purged(replica: ReplicaId, view: map<Origin, nat>)
    | Dumped(replica: ReplicaId, origin: Origin)
    | Loaded(replica: ReplicaId, dump: nat)
    | Relayed(signedMessage: SignedMessage, authentic: bool)
    | OnchainPushed(message: Message)
    | OnchainQueued(message: Message)
    | BlockStarted

  function QueueOf(w: World, r: ReplicaId): Queue {
    if r in w.queues then w.queues[r] else map[]
  }

  function ChannelAt(w: World, r: ReplicaId, o: Origin): Channel {
    ChannelOf(QueueOf(w, r), o)
  }

  /** A replica's view of the chain defaults to zero for unknown senders. */
  function Seen(view: map<Origin, nat>, o: Origin): nat {
    if o in view then view[o] else 0
  }

  function SetQueue(w: World, r: ReplicaId, q: Queue): World {
    w.(queues := w.queues[r := q])
  }

  function Push(w: World, r: ReplicaId, m: Message, signature: string): World {
    var ch := ChannelAt(w, r, m.sender);
    SetQueue(w, r, Enqueue(QueueOf(w, r), m.sender, (k: nat) => SignedMessage(m, k, signature)))
      .(signed := if ch.dummy then w.signed else w.signed + {(m, ch.sequence)})
  }

  function ChangeDummy(w: World, r: ReplicaId, o: Origin, dummy: bool): World {
    SetQueue(w, r, SetDummy(QueueOf(w, r), o, dummy))
      .(lossy := if dummy then w.lossy + {(r, o)} else w.lossy)
  }

  function Load(w: World, r: ReplicaId, d: Dump): World {
    SetQueue(w, r, QueueOf(w, r)[d.origin := d.channel])
      .(lossy := if d.lossy then w.lossy + {(r, d.origin)} else w.lossy - {(r, d.origin)})
  }

  function Step(w: World, e: Event): World {
    match e
    case Pushed(r, m, signature) => Push(w, r, m, signature)
    case DummySet(r, o, dummy) => ChangeDummy(w, r, o, dummy)
    case Purged(r, view) => SetQueue(w, r, Purge(QueueOf(w, r), o => Seen(view, o)))
    case Dumped(r, o) =>
      if o in QueueOf(w, r) then w.(dumps := w.dumps + [Dump(o, QueueOf(w, r)[o], (r, o) in w.lossy)]) else w
    case Loaded(r, i) => if i < |w.dumps| then Load(w, r, w.dumps[i]) else w
    case Relayed(m, authentic) => w.(chain := MqPallet.Sync(w.chain, m, authentic))
    case OnchainPushed(m) => w.(chain := MqPallet.Dispatch(w.chain, m))
    case OnchainQueued(m) => w.(chain := w.chain.(queued := w.chain.queued + [m]))
    case BlockStarted => w.(chain := MqPallet.Initialize(w.chain))
  }

  /** Replicas agree on the log, purge by a view of the chain's present or past, signatures cannot be
      forged, and the chain's own senders are not off-chain ones. */
  ghost predicate Enabled(w: World, e: Event, log: Log) {
    match e
    case Pushed(r, m, _) => m == log(m.sender, ChannelAt(w, r, m.sender).sequence)
    case Purged(_, view) => forall o :: Seen(view, o) <= MqPallet.Expected(w.chain, o)
    case Relayed(m, authentic) => authentic ==> (m.message, m.sequence) in w.signed
    case OnchainPushed(m) => !IsOffchain(m.sender)
    case OnchainQueued(m) => !IsOffchain(m.sender)
    case _ => true
  }

  function Exec(w: World, events: seq<Event>): World
    decreases |events|
  {
    if events == [] then w else Exec(Step(w, events[0]), events[1..])
  }

  ghost predicate Feasible(w: World, events: seq<Event>, log: Log)
    decreases |events|
  {
    events == [] || (Enabled(w, events[0], log) && Feasible(Step(w, events[0]), events[1..], log))
  }

  function Prefix(log: Log, o: Origin, n: nat): seq<Message> {
    seq(n, (k: nat) => log(o, k))
  }

  // ---- what every step keeps: the chain

  ghost predicate Delivered(w: World, log: Log) {
    && (forall p :: p in w.signed ==> p.0 == log(p.0.sender, p.1))
    && (forall o :: IsOffchain(o) ==> From(w.chain.received, o) == Prefix(log, o, MqPallet.Expected(w.chain, o)))
    && (forall m :: m in w.chain.queued ==> !IsOffchain(m.sender))
    && w.chain.blockStart <= |w.chain.received|
    && w.chain.outbound == Offchain(w.chain.received[w.chain.blockStart..])
  }

  lemma PrefixNext(log: Log, o: Origin, n: nat)
    ensures Prefix(log, o, n + 1) == Prefix(log, o, n) + [log(o, n)]
  {
  }

  lemma RelayReceives(w: World, m: SignedMessage, log: Log, o: Origin)
    requires Delivered(w, log) && Enabled(w, Relayed(m, true), log) && IsOffchain(o)
    requires MqPallet.Judge(w.chain, m, true) == MqPallet.Accepted
    ensures var d := MqPallet.Sync(w.chain, m, true); From(d.received, o) == Prefix(log, o, MqPallet.Expected(d, o))
  {
    assert (m.message, m.sequence) in w.signed;
    FromAppend(w.chain.received, m.message, o);
    PrefixNext(log, o, MqPallet.Expected(w.chain, o));
  }

  lemma RelayDelivers(w: World, m: SignedMessage, authentic: bool, log: Log)
    requires Delivered(w, log) && Enabled(w, Relayed(m, authentic), log)
    ensures Delivered(Step(w, Relayed(m, authentic)), log)
  {
    var c := w.chain;
    if MqPallet.Judge(c, m, authentic) == MqPallet.Accepted {
      var sender := m.message.sender;
      MqPallet.DispatchEffect(c.(ingress := c.ingress[sender := MqPallet.Expected(c, sender) + 1]), m.message);
      var d := MqPallet.Sync(c, m, authentic);
      forall o | IsOffchain(o) ensures From(d.received, o) == Prefix(log, o, MqPallet.Expected(d, o)) {
        RelayReceives(w, m, log, o);
      }
    }
  }

  lemma ChainSteps(w: World, e: Event, log: Log)
    requires Delivered(w, log) && Enabled(w, e, log)
    requires e.OnchainPushed? || e.OnchainQueued? || e.BlockStarted?
    ensures Delivered(Step(w, e), log)
  {
    var c := w.chain;
    match e
    case OnchainPushed(m) =>
      MqPallet.DispatchEffect(c, m);
      forall o | IsOffchain(o) ensures From(c.received + [m], o) == From(c.received, o) {
        FromAppend(c.received, m, o);
      }
    case OnchainQueued(m) =>
    case BlockStarted =>
      var d := c.(outbound := [], queued := [], blockStart := |c.received|);
      assert d.received[d.blockStart..] == [];
      MqPallet.DispatchAllEffect(d, c.queued);
      forall o | IsOffchain(o) ensures From(c.received + c.queued, o) == From(c.received, o) {
        FromConcatOther(c.received, c.queued, o);
      }
  }

  lemma StepDelivered(w: World, e: Event, log: Log)
    requires Delivered(w, log) && Enabled(w, e, log)
    ensures Delivered(Step(w, e), log)
  {
    match e
    case Relayed(m, authentic) => RelayDelivers(w, m, authentic, log);
    case OnchainPushed(_) => ChainSteps(w, e, log);
    case OnchainQueued(_) => ChainSteps(w, e, log);
    case BlockStarted => ChainSteps(w, e, log);
    case _ =>
  }

  lemma {:induction false} RunDelivered(w: World, events: seq<Event>, log: Log)
    requires Delivered(w, log) && Feasible(w, events, log)
    ensures Delivered(Exec(w, events), log)
    decreases |events|
  {
    if events != [] {
      StepDelivered(w, events[0], log);
      RunDelivered(Step(w, events[0]), events[1..], log);
    }
  }

  lemma GenesisDelivered(log: Log)
    ensures Delivered(GENESIS, log)
  {
  }

  /** Exactly once and in order: whatever replicas and relayer do, what the chain has received from an
      off-chain origin is the beginning of that origin's log, as long as the sequence number it
      expects next; and what a block publishes is its off-chain messages, in order. */
  lemma ExactlyOnceInOrder(events: seq<Event>, log: Log, o: Origin)
    requires Feasible(GENESIS, events, log) && IsOffchain(o)
    ensures var c := Exec(GENESIS, events).chain;
      && From(c.received, o) == Prefix(log, o, MqPallet.Expected(c, o))
      && c.blockStart <= |c.received|
      && c.outbound == Offchain(c.received[c.blockStart..])
  {
    GenesisDelivered(log);
    RunDelivered(GENESIS, events, log);
  }

  // ---- what every step keeps: the replicas

  /** The channel holds its latest messages without a gap, back to one the chain has taken already. */
  ghost predicate Complete(ch: Channel, o: Origin, taken: nat, signed: set<(Message, nat)>, log: Log) {
    && !ch.dummy
    && ch.sequence - |ch.messages| <= taken
    && Consecutive(ch.messages, o, ch.sequence - |ch.messages|, signed, log)
  }

  ghost predicate Consecutive(q: seq<SignedMessage>, o: Origin, first: int, signed: set<(Message, nat)>, log: Log) {
    && 0 <= first
    && (forall i :: 0 <= i < |q| ==> q[i].sequence == first + i)
    && (forall i :: 0 <= i < |q| ==>
          && q[i].message == log(o, q[i].sequence) && q[i].message.sender == o
          && (q[i].message, q[i].sequence) in signed)
  }

  lemma {:induction false} RetainedConsecutive(q: seq<SignedMessage>, o: Origin, first: int, next: nat,
                                               signed: set<(Message, nat)>, log: Log)
    requires Consecutive(q, o, first, signed, log)
    ensures var kept := Retained(q, next);
      && |kept| <= |q|
      && Consecutive(kept, o, first + |q| - |kept|, signed, log)
      && (first + |q| - |kept| <= first || first + |q| - |kept| <= next)
  {
    if q != [] {
      assert Consecutive(q[1..], o, first + 1, signed, log);
      RetainedConsecutive(q[1..], o, first + 1, next, signed, log);
      if first >= next {
        RetainedAll(q[1..], next);
        assert q == [q[0]] + q[1..];
      }
    }
  }

  lemma {:induction false} RetainedAll(q: seq<SignedMessage>, next: nat)
    requires forall i :: 0 <= i < |q| ==> q[i].sequence >= next
    ensures Retained(q, next) == q
  {
    if q != [] {
      RetainedAll(q[1..], next);
    }
  }

  ghost predicate CompleteAt(w: World, r: ReplicaId, o: Origin, log: Log) {
    (r, o) !in w.lossy ==> Complete(ChannelAt(w, r, o), o, MqPallet.Expected(w.chain, o), w.signed, log)
  }

  ghost predicate CompleteDump(w: World, d: Dump, log: Log) {
    !d.lossy ==> Complete(d.channel, d.origin, MqPallet.Expected(w.chain, d.origin), w.signed, log)
  }

  ghost predicate Kept(w: World, log: Log) {
    && (forall r, o :: CompleteAt(w, r, o, log))
    && (forall i :: 0 <= i < |w.dumps| ==> CompleteDump(w, w.dumps[i], log))
  }

  lemma ExpectedGrows(w: World, e: Event, o: Origin)
    ensures MqPallet.Expected(w.chain, o) <= MqPallet.Expected(Step(w, e).chain, o)
    ensures w.signed <= Step(w, e).signed
  {
    if e.BlockStarted? {
      var c := w.chain;
      DispatchKeepsIngress(c.(outbound := [], queued := [], blockStart := |c.received|), c.queued);
    }
  }

  lemma {:induction false} DispatchKeepsIngress(c: MqPallet.State, q: seq<Message>)
    ensures MqPallet.DispatchAll(c, q).ingress == c.ingress
    decreases |q|
  {
    if q != [] {
      DispatchKeepsIngress(c, q[..|q| - 1]);
    }
  }

  lemma PushComplete(w: World, r: ReplicaId, m: Message, signature: string, log: Log)
    requires CompleteAt(w, r, m.sender, log) && Enabled(w, Pushed(r, m, signature), log)
    ensures CompleteAt(Push(w, r, m, signature), r, m.sender, log)
  {
    if (r, m.sender) !in w.lossy {
      var ch := ChannelAt(w, r, m.sender);
      var ch' := ChannelAt(Push(w, r, m, signature), r, m.sender);
      assert ch'.messages == ch.messages + [SignedMessage(m, ch.sequence, signature)];
    }
  }

  lemma PurgeComplete(w: World, r: ReplicaId, view: map<Origin, nat>, o: Origin, log: Log)
    requires CompleteAt(w, r, o, log) && Enabled(w, Purged(r, view), log)
    ensures CompleteAt(Step(w, Purged(r, view)), r, o, log)
  {
    var ch := ChannelAt(w, r, o);
    if (r, o) !in w.lossy {
      assert Seen(view, o) <= MqPallet.Expected(w.chain, o);
      RetainedConsecutive(ch.messages, o, ch.sequence - |ch.messages|, Seen(view, o), w.signed, log);
    }
  }

  lemma StepCompleteAt(w: World, e: Event, log: Log, r: ReplicaId, o: Origin)
    requires Kept(w, log) && Enabled(w, e, log)
    ensures CompleteAt(Step(w, e), r, o, log)
  {
    assert CompleteAt(w, r, o, log);
    ExpectedGrows(w, e, o);
    var w' := Step(w, e);
    match e
    case Pushed(r', m, signature) =>
      if r' == r && m.sender == o {
        PushComplete(w, r, m, signature, log);
      }
    case Purged(r', view) =>
      if r' == r {
        PurgeComplete(w, r, view, o, log);
      }
    case Loaded(r', i) =>
      if i < |w.dumps| {
        assert CompleteDump(w, w.dumps[i], log);
      }
    case _ =>
  }

  lemma StepKept(w: World, e: Event, log: Log)
    requires Kept(w, log) && Enabled(w, e, log)
    ensures Kept(Step(w, e), log)
  {
    var w' := Step(w, e);
    forall r, o ensures CompleteAt(w', r, o, log) {
      StepCompleteAt(w, e, log, r, o);
    }
    forall i | 0 <= i < |w'.dumps| ensures CompleteDump(w', w'.dumps[i], log) {
      ExpectedGrows(w, e, w'.dumps[i].origin);
      if i < |w.dumps| {
        assert CompleteDump(w, w.dumps[i], log);
      } else {
        assert CompleteAt(w, e.replica, e.origin, log);
      }
    }
  }

  lemma {:induction false} RunKept(w: World, events: seq<Event>, log: Log)
    requires Kept(w, log) && Feasible(w, events, log)
    ensures Kept(Exec(w, events), log)
    decreases |events|
  {
    if events != [] {
      StepKept(w, events[0], log);
      RunKept(Step(w, events[0]), events[1..], log);
    }
  }

  /** No message is lost to purging.  A replica whose channel was never in dummy mode holds every
      message from the one the chain wants next up to the last one it sent; relaying the one the chain
      wants next is accepted exactly when its destination is valid. */
  lemma NothingLost(events: seq<Event>, log: Log, r: ReplicaId, o: Origin, k: nat)
    requires Feasible(GENESIS, events, log) && IsOffchain(o)
    requires (r, o) !in Exec(GENESIS, events).lossy
    requires MqPallet.Expected(Exec(GENESIS, events).chain, o) <= k < ChannelAt(Exec(GENESIS, events), r, o).sequence
    ensures var w := Exec(GENESIS, events);
      exists m :: m in ChannelAt(w, r, o).messages && m.sequence == k && m.message == log(o, k)
        && (log(o, k), k) in w.signed
        && (k == MqPallet.Expected(w.chain, o) ==>
              (MqPallet.Judge(w.chain, m, true) == MqPallet.Accepted <==> IsValidTopic(log(o, k).destination)))
  {
    assert Kept(GENESIS, log);
    RunKept(GENESIS, events, log);
    var w := Exec(GENESIS, events);
    assert CompleteAt(w, r, o, log);
    var ch := ChannelAt(w, r, o);
    var m := ch.messages[k - (ch.sequence - |ch.messages|)];
    assert m in ch.messages && m.sequence == k;
  }

  // ---- a message the chain refuses holds up its origin for ever

  lemma {:induction false} InvalidDestinationBlocks(w: World, events: seq<Event>, log: Log, o: Origin, n: nat)
    requires Delivered(w, log) && Feasible(w, events, log)
    requires MqPallet.Expected(w.chain, o) <= n && !IsValidTopic(log(o, n).destination)
    ensures MqPallet.Expected(Exec(w, events).chain, o) <= n
    decreases |events|
  {
    if events != [] {
      var w' := Step(w, events[0]);
      StepDelivered(w, events[0], log);
      if events[0].BlockStarted? {
        var c := w.chain;
        DispatchKeepsIngress(c.(outbound := [], queued := [], blockStart := |c.received|), c.queued);
      }
      assert MqPallet.Expected(w'.chain, o) <= n;
      InvalidDestinationBlocks(w', events[1..], log, o, n);
    }
  }

  /** A replica sends a message to an invalid destination as the first one of its origin.  The relayed message
      is refused for its destination, and the chain receives nothing from the origin whatever happens next. */
  lemma InvalidFirstMessage(r: ReplicaId, m: Message, signature: string, more: seq<Event>, log: Log)
    requires IsOffchain(m.sender) && !IsValidTopic(m.destination) && log(m.sender, 0) == m
    requires Feasible(Push(GENESIS, r, m, signature), more, log)
    ensures Enabled(GENESIS, Pushed(r, m, signature), log)
    ensures var w := Push(GENESIS, r, m, signature);
      && SignedMessage(m, 0, signature) in ChannelAt(w, r, m.sender).messages
      && Enabled(w, Relayed(SignedMessage(m, 0, signature), true), log)
      && MqPallet.Judge(w.chain, SignedMessage(m, 0, signature), true) == MqPallet.BadDestination
      && MqPallet.Expected(Exec(w, more).chain, m.sender) == 0
      && From(Exec(w, more).chain.received, m.sender) == []
  {
    var w := Push(GENESIS, r, m, signature);
    assert ChannelAt(w, r, m.sender).messages == [SignedMessage(m, 0, signature)];
    GenesisDelivered(log);
    StepDelivered(GENESIS, Pushed(r, m, signature), log);
    InvalidDestinationBlocks(w, more, log, m.sender, 0);
    RunDelivered(w, more, log);
  }
}
