/** Message origins, topics and messages, as shared by the workers and the chain. */
module MqMessages {

  datatype Origin =
    | Pallet(name: string)
    | Contract(contract: nat)
    | Worker(key: nat)
    | AccountId(account: nat)
    | MultiLocation(location: string)
    | Gatekeeper
    | Cluster(cluster: nat)
    | Reserved

  predicate IsOffchain(o: Origin) {
    o.Cluster? || o.Contract? || o.Worker? || o.Gatekeeper?
  }

  type Path = string

  const RESERVED_BYTES := "~!@#$%&*_+-=|<>?,./;:'"

  predicate IsValidTopic(topic: Path) {
    topic != "" && topic[0] !in RESERVED_BYTES
  }

  predicate IsOffchainTopic(topic: Path) {
    IsValidTopic(topic) && topic[0] != '^'
  }

  datatype Message = Message(sender: Origin, destination: Path, payload: string)

  datatype SignedMessage = SignedMessage(message: Message, sequence: nat, signature: string)

  /** The messages of one sender. */
  function From(q: seq<Message>, o: Origin): seq<Message> {
    if q == [] then []
    else if q[|q| - 1].sender == o then From(q[..|q| - 1], o) + [q[|q| - 1]]
    else From(q[..|q| - 1], o)
  }

  /** The messages that off-chain components get to see. */
  function Offchain(q: seq<Message>): seq<Message> {
    if q == [] then []
    else if IsOffchainTopic(q[|q| - 1].destination) then Offchain(q[..|q| - 1]) + [q[|q| - 1]]
    else Offchain(q[..|q| - 1])
  }

  lemma FromAppend(q: seq<Message>, m: Message, o: Origin)
    ensures From(q + [m], o) == if m.sender == o then From(q, o) + [m] else From(q, o)
  {
    assert (q + [m])[..|q + [m]| - 1] == q;
  }

  lemma OffchainAppend(q: seq<Message>, m: Message)
    ensures Offchain(q + [m]) == if IsOffchainTopic(m.destination) then Offchain(q) + [m] else Offchain(q)
  {
    assert (q + [m])[..|q + [m]| - 1] == q;
  }

  lemma {:induction false} FromConcatOther(q: seq<Message>, r: seq<Message>, o: Origin)
    requires forall m :: m in r ==> m.sender != o
    ensures From(q + r, o) == From(q, o)
  {
    if r == [] {
      assert q + r == q;
    } else {
      assert q + r == (q + r[..|r| - 1]) + [r[|r| - 1]];
      FromAppend(q + r[..|r| - 1], r[|r| - 1], o);
      FromConcatOther(q, r[..|r| - 1], o);
    }
  }
}
