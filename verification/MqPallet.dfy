/** The message queue on the chain. */
module MqPallet {
  import opened MqMessages

  // `received` lists every message handed to the subscribers since genesis and `blockStart` says how
  // many of them are from earlier blocks.
  datatype State = State(
    ingress: map<Origin, nat>,
    queued: seq<Message>,
    outbound: seq<Message>,
    received: seq<Message>,
    blockStart: nat)

  const GENESIS := State(map[], [], [], [], 0)

  datatype Verdict = Accepted | BadSender | BadDestination | BadSequence | BadSignature

  /** The next sequence number the chain takes from an origin. */
  function Expected(s: State, o: Origin): nat {
    if o in s.ingress then s.ingress[o] else 0
  }

  function Dispatch(s: State, m: Message): State {
    s.(received := s.received + [m],
       outbound := if IsOffchainTopic(m.destination) then s.outbound + [m] else s.outbound)
  }

  function DispatchAll(s: State, q: seq<Message>): State
    decreases |q|
  {
    if q == [] then s else Dispatch(DispatchAll(s, q[..|q| - 1]), q[|q| - 1])
  }

  /** `authentic` is the answer of the signature check, which is only asked last. */
  function Judge(s: State, m: SignedMessage, authentic: bool): Verdict {
    if !IsOffchain(m.message.sender) then BadSender
    else if !IsValidTopic(m.message.destination) then BadDestination
    else if m.sequence != Expected(s, m.message.sender) then BadSequence
    else if !authentic then BadSignature
    else Accepted
  }

  function Sync(s: State, m: SignedMessage, authentic: bool): State {
    if Judge(s, m, authentic) == Accepted then
      Dispatch(s.(ingress := s.ingress[m.message.sender := m.sequence + 1]), m.message)
    else s
  }

  function Initialize(s: State): State {
    DispatchAll(s.(outbound := [], queued := [], blockStart := |s.received|), s.queued)
  }

  lemma {:induction false} DispatchAllEffect(s: State, q: seq<Message>)
    requires s.blockStart <= |s.received| && s.outbound == Offchain(s.received[s.blockStart..])
    ensures var t := DispatchAll(s, q);
      && t.received == s.received + q
      && t.blockStart == s.blockStart && t.ingress == s.ingress && t.queued == s.queued
      && t.outbound == Offchain(t.received[t.blockStart..])
    decreases |q|
  {
    if q == [] {
      assert s.received + q == s.received;
    } else {
      var last := q[|q| - 1];
      DispatchAllEffect(s, q[..|q| - 1]);
      var t := DispatchAll(s, q[..|q| - 1]);
      assert s.received + q == t.received + [last];
      DispatchEffect(t, last);
    }
  }

  lemma DispatchEffect(s: State, m: Message)
    requires s.blockStart <= |s.received| && s.outbound == Offchain(s.received[s.blockStart..])
    ensures Dispatch(s, m).outbound == Offchain(Dispatch(s, m).received[s.blockStart..])
  {
    OffchainAppend(s.received[s.blockStart..], m);
    assert (s.received + [m])[s.blockStart..] == s.received[s.blockStart..] + [m];
  }

  class Storage {
    var offchainIngress: map<Origin, nat>
    var queuedOutboundMessage: seq<Message>
    var outboundMessages: seq<Message>
    ghost var received: seq<Message>
    ghost var blockStart: nat

    ghost function Value(): State
      reads this
    {
      State(offchainIngress, queuedOutboundMessage, outboundMessages, received, blockStart)
    }

    constructor ()
      ensures Value() == GENESIS
    {
      offchainIngress, queuedOutboundMessage, outboundMessages := map[], [], [];
      received, blockStart := [], 0;
    }

    method SyncOffchainMessage(m: SignedMessage, authentic: bool) returns (verdict: Verdict)
      modifies this
      ensures verdict == Judge(old(Value()), m, authentic)
      ensures Value() == Sync(old(Value()), m, authentic)
    {
      var sender := m.message.sender;
      if !IsOffchain(sender) {
        return BadSender;
      }
      if !IsValidTopic(m.message.destination) {
        return BadDestination;
      }
      var expected := if sender in offchainIngress then offchainIngress[sender] else 0;
      if m.sequence != expected {
        return BadSequence;
      }
      if !authentic {
        return BadSignature;
      }
      offchainIngress := offchainIngress[sender := expected + 1];
      DispatchMessage(m.message);
      return Accepted;
    }

    method DispatchMessage(m: Message)
      modifies this
      ensures Value() == Dispatch(old(Value()), m)
    {
      received := received + [m];
      if IsOffchainTopic(m.destination) {
        outboundMessages := outboundMessages + [m];
      }
    }

    method QueueBoundMessage(m: Message)
      modifies this
      ensures Value() == old(Value()).(queued := old(Value()).queued + [m])
    {
      queuedOutboundMessage := queuedOutboundMessage + [m];
    }

    method OnInitialize()
      modifies this
      ensures Value() == Initialize(old(Value()))
    {
      outboundMessages := [];
      var messages := queuedOutboundMessage;
      queuedOutboundMessage := [];
      blockStart := |received|;
      ghost var s := Value();
      for i := 0 to |messages|
        invariant Value() == DispatchAll(s, messages[..i])
      {
        assert messages[..i + 1][..i] == messages[..i];
        DispatchMessage(messages[i]);
      }
      assert messages[..|messages|] == messages;
    }
  }

  /** Exactly when each verdict is given: the first check that fails decides, and the signature is checked last. */
  lemma VerdictIff(s: State, m: SignedMessage, authentic: bool)
    ensures var v, sender := Judge(s, m, authentic), m.message.sender;
      var expected := m.sequence == if sender in s.ingress then s.ingress[sender] else 0;
      && (v == BadSender <==> !IsOffchain(sender))
      && (v == BadDestination <==> IsOffchain(sender) && !IsValidTopic(m.message.destination))
      && (v == BadSequence <==> IsOffchain(sender) && IsValidTopic(m.message.destination) && !expected)
      && (v == BadSignature <==> IsOffchain(sender) && IsValidTopic(m.message.destination) && expected && !authentic)
      && (v == Accepted <==> IsOffchain(sender) && IsValidTopic(m.message.destination) && expected && authentic)
  {
  }

}
