/**
  How replicas number what they send.  The numbers are those of the calls, read off the list of events:
  a message that is dropped in dummy mode uses up its number like any other.
  */
module MqNumbering {
  import opened MqMessages
  import opened SendQueue
  import opened MqProtocol

  predicate Sends(e: Event, r: ReplicaId, o: Origin) {
    e.Pushed? && e.replica == r && e.message.sender == o
  }

  /** How often the replica sends as the origin. */
  function Sent(events: seq<Event>, r: ReplicaId, o: Origin): nat {
    if events == [] then 0
    else (if Sends(events[0], r, o) then 1 else 0) + Sent(events[1..], r, o)
  }

  /** The mode the origin's channel is left in. */
  function Mode(events: seq<Event>, r: ReplicaId, o: Origin, dummy: bool): bool
    decreases |events|
  {
    if events == [] then dummy
    else
      var e := events[0];
      Mode(events[1..], r, o, if e.DummySet? && e.replica == r && e.origin == o then e.dummy else dummy)
  }

  /** The messages sent while not in dummy mode, each with its place among all that were sent; `n` were sent
      before. */
  function Numbered(events: seq<Event>, r: ReplicaId, o: Origin, dummy: bool, n: nat): seq<SignedMessage>
    decreases |events|
  {
    if events == [] then []
    else
      var e, rest := events[0], events[1..];
      if Sends(e, r, o) then
        (if dummy then [] else [SignedMessage(e.message, n, e.signature)]) + Numbered(rest, r, o, dummy, n + 1)
      else if e.DummySet? && e.replica == r && e.origin == o then Numbered(rest, r, o, e.dummy, n)
      else Numbered(rest, r, o, dummy, n)
  }

  lemma NumberedFirst(events: seq<Event>, r: ReplicaId, o: Origin, dummy: bool, n: nat)
    requires events != []
    ensures var e := events[0];
      Numbered(events, r, o, dummy, n)
        == Numbered([e], r, o, dummy, n)
           + Numbered(events[1..], r, o, Mode([e], r, o, dummy), n + if Sends(e, r, o) then 1 else 0)
  {
    assert [events[0]][1..] == [];
  }

  predicate Loads(e: Event, r: ReplicaId) {
    e.Loaded? && e.replica == r
  }

  predicate Purges(e: Event, r: ReplicaId) {
    e.Purged? && e.replica == r
  }

  lemma StepNumbers(w: World, e: Event, r: ReplicaId, o: Origin)
    requires !Loads(e, r)
    ensures ChannelAt(Step(w, e), r, o).sequence == ChannelAt(w, r, o).sequence + if Sends(e, r, o) then 1 else 0
    ensures ChannelAt(Step(w, e), r, o).dummy == Mode([e], r, o, ChannelAt(w, r, o).dummy)
  {
    assert [e][1..] == [];
  }

  /** In every run, since its last load, a replica's sequence grows by one for every message it sends as the
      origin, in dummy mode or not, and its mode is the one last set. */
  lemma {:induction false} SequenceCountsSends(w: World, events: seq<Event>, r: ReplicaId, o: Origin)
    requires forall e :: e in events ==> !Loads(e, r)
    ensures ChannelAt(Exec(w, events), r, o).sequence == ChannelAt(w, r, o).sequence + Sent(events, r, o)
    ensures ChannelAt(Exec(w, events), r, o).dummy == Mode(events, r, o, ChannelAt(w, r, o).dummy)
    decreases |events|
  {
    if events != [] {
      StepNumbers(w, events[0], r, o);
      assert [events[0]][1..] == [];
      SequenceCountsSends(Step(w, events[0]), events[1..], r, o);
    }
  }

  lemma StepKeepsNumbered(w: World, e: Event, r: ReplicaId, o: Origin)
    requires !Loads(e, r) && !Purges(e, r)
    ensures var ch := ChannelAt(w, r, o);
      ChannelAt(Step(w, e), r, o).messages == ch.messages + Numbered([e], r, o, ch.dummy, ch.sequence)
  {
    assert [e][1..] == [];
    if Sends(e, r, o) {
      assert Numbered([], r, o, false, 0) == [];
    }
  }

  lemma HoldsMore(ch: Channel, next: Channel, events: seq<Event>, r: ReplicaId, o: Origin)
    requires events != [] && next.dummy == Mode([events[0]], r, o, ch.dummy)
    requires next.sequence == ch.sequence + if Sends(events[0], r, o) then 1 else 0
    requires next.messages == ch.messages + Numbered([events[0]], r, o, ch.dummy, ch.sequence)
    ensures next.messages + Numbered(events[1..], r, o, next.dummy, next.sequence)
         == ch.messages + Numbered(events, r, o, ch.dummy, ch.sequence)
  {
    NumberedFirst(events, r, o, ch.dummy, ch.sequence);
  }

  /** As long as it does not purge, it holds exactly the messages it sent while not in dummy mode, in order and
      each under its place among all that it sent. */
  lemma {:induction false} HoldsNumbered(w: World, events: seq<Event>, r: ReplicaId, o: Origin)
    requires forall e :: e in events ==> !Loads(e, r) && !Purges(e, r)
    ensures var ch := ChannelAt(w, r, o);
      ChannelAt(Exec(w, events), r, o).messages == ch.messages + Numbered(events, r, o, ch.dummy, ch.sequence)
    decreases |events|
  {
    if events != [] {
      var e, ch := events[0], ChannelAt(w, r, o);
      StepKeepsNumbered(w, e, r, o);
      StepNumbers(w, e, r, o);
      HoldsNumbered(Step(w, e), events[1..], r, o);
      HoldsMore(ch, ChannelAt(Step(w, e), r, o), events, r, o);
    }
  }

  /** A dump is the channel as it is, and a load puts it back as it was, on whatever replica. */
  lemma LoadRestoresDump(w: World, r: ReplicaId, o: Origin, between: seq<Event>, q: ReplicaId)
    requires o in QueueOf(w, r)
    ensures var v := Exec(Step(w, Dumped(r, o)), between);
      ChannelAt(Step(v, Loaded(q, |w.dumps|)), q, o) == ChannelAt(w, r, o)
  {
    DumpsStay(Step(w, Dumped(r, o)), between);
  }

  lemma {:induction false} DumpsStay(w: World, events: seq<Event>)
    ensures w.dumps <= Exec(w, events).dumps
    decreases |events|
  {
    if events != [] {
      DumpsStay(Step(w, events[0]), events[1..]);
    }
  }

  /** From genesis: the numbers start at zero. */
  lemma NewReplicaNumbers(events: seq<Event>, r: ReplicaId, o: Origin)
    requires forall e :: e in events ==> !Loads(e, r)
    ensures ChannelAt(Exec(GENESIS, events), r, o).sequence == Sent(events, r, o)
    ensures (forall e :: e in events ==> !Purges(e, r)) ==>
      ChannelAt(Exec(GENESIS, events), r, o).messages == Numbered(events, r, o, false, 0)
  {
    SequenceCountsSends(GENESIS, events, r, o);
    if forall e :: e in events ==> !Purges(e, r) {
      HoldsNumbered(GENESIS, events, r, o);
    }
  }
}
