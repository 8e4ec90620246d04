/** The worker's outgoing queue: numbered messages per sender, kept until the chain has taken them. */
module SendQueue {
  import opened MqMessages

  datatype Channel = Channel(sequence: nat, messages: seq<SignedMessage>, dummy: bool)

  const EMPTY := Channel(0, [], false)

  type Queue = map<Origin, Channel>

  function ChannelOf(q: Queue, o: Origin): Channel {
    if o in q then q[o] else EMPTY
  }

  function Enqueued(ch: Channel, sign: nat -> SignedMessage): Channel {
    if ch.dummy then ch.(sequence := ch.sequence + 1)
    else Channel(ch.sequence + 1, ch.messages + [sign(ch.sequence)], false)
  }

  function Enqueue(q: Queue, o: Origin, sign: nat -> SignedMessage): Queue {
    q[o := Enqueued(ChannelOf(q, o), sign)]
  }

  function SetDummy(q: Queue, o: Origin, dummy: bool): Queue {
    q[o := ChannelOf(q, o).(dummy := dummy)]
  }

  /** The messages from sequence `next` on. */
  function Retained(messages: seq<SignedMessage>, next: nat): seq<SignedMessage> {
    if messages == [] then []
    else if messages[0].sequence >= next then [messages[0]] + Retained(messages[1..], next)
    else Retained(messages[1..], next)
  }

  function Purge(q: Queue, next: Origin -> nat): Queue {
    map o | o in q :: q[o].(messages := Retained(q[o].messages, next(o)))
  }

  lemma {:induction false} RetainedAppend(a: seq<SignedMessage>, m: SignedMessage, next: nat)
    ensures Retained(a + [m], next)
         == if m.sequence >= next then Retained(a, next) + [m] else Retained(a, next)
  {
    if a == [] {
      assert a + [m] == [m];
      assert [m][1..] == [];
    } else {
      assert (a + [m])[1..] == a[1..] + [m];
      RetainedAppend(a[1..], m, next);
    }
  }

  lemma {:induction false} RetainedMembers(a: seq<SignedMessage>, next: nat)
    ensures forall m :: m in Retained(a, next) <==> m in a && m.sequence >= next
  {
    if a != [] {
      RetainedMembers(a[1..], next);
    }
  }

  class MessageSendQueue {
    var inner: Queue

    constructor ()
      ensures inner == map[]
    {
      inner := map[];
    }

    method EnqueueMessage(sender: Origin, sign: nat -> SignedMessage)
      modifies this
      ensures inner == Enqueue(old(inner), sender, sign)
    {
      var entry := if sender in inner then inner[sender] else EMPTY;
      if !entry.dummy {
        entry := entry.(messages := entry.messages + [sign(entry.sequence)]);
      }
      entry := entry.(sequence := entry.sequence + 1);
      inner := inner[sender := entry];
    }

    method SetDummyMode(sender: Origin, dummy: bool)
      modifies this
      ensures inner == SetDummy(old(inner), sender, dummy)
    {
      var entry := if sender in inner then inner[sender] else EMPTY;
      inner := inner[sender := entry.(dummy := dummy)];
    }

    method Retain(messages: seq<SignedMessage>, next: nat) returns (kept: seq<SignedMessage>)
      ensures kept == Retained(messages, next)
      ensures forall m :: m in kept <==> m in messages && m.sequence >= next
    {
      kept := [];
      for i := 0 to |messages|
        invariant kept == Retained(messages[..i], next)
      {
        assert messages[..i + 1] == messages[..i] + [messages[i]];
        RetainedAppend(messages[..i], messages[i], next);
        if messages[i].sequence >= next {
          kept := kept + [messages[i]];
        }
      }
      assert messages[..|messages|] == messages;
      RetainedMembers(messages, next);
    }

    method PurgeAccepted(next: Origin -> nat)
      modifies this
      ensures inner == Purge(old(inner), next)
    {
      var todo := inner.Keys;
      while todo != {}
        invariant todo <= inner.Keys == old(inner).Keys
        invariant forall o :: o in todo ==> inner[o] == old(inner)[o]
        invariant forall o :: o in inner && o !in todo ==> inner[o] == Purge(old(inner), next)[o]
        decreases |todo|
      {
        var o :| o in todo;
        var kept := Retain(inner[o].messages, next(o));
        inner := inner[o := inner[o].(messages := kept)];
        todo := todo - {o};
      }
      assert inner == Purge(old(inner), next);
    }

    method DumpState(sender: Origin) returns (found: bool, state: Channel)
      ensures found <==> sender in inner
      ensures found ==> state == inner[sender]
    {
      found := sender in inner;
      state := if found then inner[sender] else EMPTY;
    }

    method LoadState(sender: Origin, state: Channel)
      modifies this
      ensures inner == old(inner)[sender := state]
    {
      inner := inner[sender := state];
    }
  }
}
