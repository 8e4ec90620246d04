/**
  The reference-counted node store of the trie backend, and the transactions consolidated into it.

  `hash` is the hash function of the trie.  A store is keyed by hashes; a transaction by hashes
  with a prefix in front.  The transaction type belongs to a foreign crate: it counts like the store
  but keeps entries whose count is zero.
  */
module NodeStore {

  type Byte = b: int | 0 <= b < 256
  type Bytes = seq<Byte>
  type Hash = h: Bytes | |h| == 32 witness ZERO_HASH
  const ZERO_HASH: Bytes := seq(32, _ => 0)

  // A key of a transaction ends in a hash.
  type Key = k: Bytes | 32 <= |k| witness ZERO_HASH

  type Hasher = Bytes -> Hash

  datatype Node = Node(value: Bytes, count: int)

  type Store = map<Hash, Node>
  type Transaction = map<Key, Node>

  datatype Option<T> = None | Some(value: T)

  // The null node is never stored: it is there by definition.
  const NULL_NODE: Bytes := [0]
  // The value of an entry that has only been removed so far.
  const PLACEHOLDER: Bytes := []

  // ---- counting up and down

  function EmplaceAt<K>(d: map<K, Node>, k: K, value: Bytes): map<K, Node> {
    if k !in d then d[k := Node(value, 1)]
    else if d[k].count == -1 then d - {k}
    else d[k := Node(if d[k].count <= 0 then value else d[k].value, d[k].count + 1)]
  }

  function RemoveAt<K>(d: map<K, Node>, k: K): map<K, Node> {
    if k !in d then d[k := Node(PLACEHOLDER, -1)]
    else if d[k].count == 1 then d - {k}
    else d[k := d[k].(count := d[k].count - 1)]
  }

  function Emplace(d: Store, h: Hash, value: Bytes): Store {
    if value == NULL_NODE then d else EmplaceAt(d, h, value)
  }

  function Insert(d: Store, value: Bytes, hash: Hasher): Store {
    Emplace(d, hash(value), value)
  }

  function Remove(d: Store, h: Hash, hash: Hasher): Store {
    if h == hash(NULL_NODE) then d else RemoveAt(d, h)
  }

  /** Also tells the value, if it was purged. */
  function RemoveAndPurge(d: Store, h: Hash, hash: Hasher): (Store, Option<Bytes>) {
    if h == hash(NULL_NODE) then (d, None)
    else (RemoveAt(d, h), if h in d && d[h].count == 1 then Some(d[h].value) else None)
  }

  function CountOf<K>(d: map<K, Node>, k: K): int {
    if k in d then d[k].count else 0
  }

  function Get(d: Store, h: Hash, hash: Hasher): Option<Bytes> {
    if h == hash(NULL_NODE) then Some(NULL_NODE)
    else if CountOf(d, h) > 0 then Some(d[h].value)
    else None
  }

  // ---- transactions

  datatype Prefix = Prefix(nibbles: Bytes, last: Option<Byte>)

  function PrefixedKey(h: Hash, prefix: Prefix): Key {
    prefix.nibbles + (if prefix.last.Some? then [prefix.last.value] else []) + h
  }

  function Stripped(k: Key): Hash {
    k[|k| - 32..]
  }

  /** Stripping a prefixed key gives the hash back, whatever the prefix; the nibbles come first. */
  lemma StrippedPrefixedKey(h: Hash, prefix: Prefix)
    ensures Stripped(PrefixedKey(h, prefix)) == h
    ensures prefix.nibbles <= PrefixedKey(h, prefix)
    ensures |PrefixedKey(h, prefix)| == |prefix.nibbles| + (if prefix.last.Some? then 1 else 0) + 32
  {
  }

  /** What a trie update does to its transaction. */
  datatype Op = Ins(prefix: Prefix, value: Bytes) | Rem(prefix: Prefix, key: Hash)

  function CountUp(t: Transaction, k: Key, value: Bytes): Transaction {
    if k !in t then t[k := Node(value, 1)]
    else t[k := Node(if t[k].count <= 0 then value else t[k].value, t[k].count + 1)]
  }

  function CountDown(t: Transaction, k: Key): Transaction {
    if k !in t then t[k := Node(PLACEHOLDER, -1)] else t[k := t[k].(count := t[k].count - 1)]
  }

  function Record(t: Transaction, op: Op, hash: Hasher): Transaction {
    match op
    case Ins(prefix, value) =>
      if value == NULL_NODE then t else CountUp(t, PrefixedKey(hash(value), prefix), value)
    case Rem(prefix, h) =>
      if h == hash(NULL_NODE) then t else CountDown(t, PrefixedKey(h, prefix))
  }

  function Recorded(ops: seq<Op>, hash: Hasher): Transaction {
    if ops == [] then map[] else Record(Recorded(ops[..|ops| - 1], hash), ops[|ops| - 1], hash)
  }

  function ReplayOne(d: Store, op: Op, hash: Hasher): Store {
    match op
    case Ins(_, value) => Insert(d, value, hash)
    case Rem(_, h) => Remove(d, h, hash)
  }

  /** The update done on the store itself, one operation after the other. */
  function Replay(d: Store, ops: seq<Op>, hash: Hasher): Store {
    if ops == [] then d else ReplayOne(Replay(d, ops[..|ops| - 1], hash), ops[|ops| - 1], hash)
  }

  // ---- consolidation

  function Merged(d: Store, h: Hash, n: Node): Store {
    if h !in d then d[h := n]
    else if d[h].count + n.count == 0 then d - {h}
    else d[h := Node(if d[h].count < 0 then n.value else d[h].value, d[h].count + n.count)]
  }

  /** Takes over the entries of a transaction in the order they are drained in. */
  function Consolidate(d: Store, entries: seq<(Key, Node)>): Store {
    if entries == [] then d
    else
      var last := entries[|entries| - 1];
      Merged(Consolidate(d, entries[..|entries| - 1]), Stripped(last.0), last.1)
  }

  /** The entries are those of the transaction, each once, in some order. */
  ghost predicate Drains(entries: seq<(Key, Node)>, t: Transaction) {
    && (t == map[] ==> entries == [])
    && (forall i :: 0 <= i < |entries| ==> entries[i].0 in t && t[entries[i].0] == entries[i].1)
    && (forall i, j :: 0 <= i < j < |entries| ==> entries[i].0 != entries[j].0)
    && (forall k :: k in t ==> exists i :: 0 <= i < |entries| && entries[i].0 == k)
  }
}
