/** Consolidating a transaction is replaying it, in whatever order the transaction is drained. */
module NodeStoreConsolidation {
  import opened NodeStore
  import opened NodeStoreDrain

  /** An entry that counts zero or more holds the value its key is the hash of. */
  ghost predicate Genuine(d: Store, hash: Hasher) {
    forall h :: h in d && 0 <= d[h].count ==> hash(d[h].value) == h
  }

  ghost predicate GenuineEntry(e: (Key, Node), hash: Hasher) {
    0 <= e.1.count ==> hash(e.1.value) == Stripped(e.0)
  }

  /** No two of the values collide.  Hashes are shorter than values, so this is asked of the values that
      occur and not of all. */
  ghost predicate Distinct(hash: Hasher, values: set<Bytes>) {
    forall a, b :: a in values && b in values && hash(a) == hash(b) ==> a == b
  }

  /** The values a store answers with come from the given ones. */
  ghost predicate From(d: Store, values: set<Bytes>) {
    forall h :: h in d && 0 <= d[h].count ==> d[h].value in values
  }

  ghost predicate EntryFrom(e: (Key, Node), values: set<Bytes>) {
    0 <= e.1.count ==> e.1.value in values
  }

  function Values(d: Store): set<Bytes> {
    set h | h in d && 0 <= d[h].count :: d[h].value
  }

  function Inserted(ops: seq<Op>): set<Bytes> {
    set i | 0 <= i < |ops| && ops[i].Ins? :: ops[i].value
  }

  // ---- the store alone

  lemma EmplaceCount<K>(d: map<K, Node>, k: K, value: Bytes, j: K)
    ensures CountOf(EmplaceAt(d, k, value), j) == CountOf(d, j) + if j == k then 1 else 0
  {
  }

  lemma RemoveCount<K>(d: map<K, Node>, k: K, j: K)
    ensures CountOf(RemoveAt(d, k), j) == CountOf(d, j) - if j == k then 1 else 0
  {
  }

  lemma MergedCount(d: Store, h: Hash, n: Node, j: Hash)
    ensures CountOf(Merged(d, h, n), j) == CountOf(d, j) + if j == h then n.count else 0
  {
  }

  lemma InsertGenuine(d: Store, value: Bytes, hash: Hasher)
    requires Genuine(d, hash)
    ensures Genuine(Insert(d, value, hash), hash)
  {
  }

  lemma RemoveGenuine(d: Store, h: Hash, hash: Hasher)
    requires Genuine(d, hash)
    ensures Genuine(Remove(d, h, hash), hash)
  {
  }

  lemma MergedGenuine(d: Store, e: (Key, Node), hash: Hasher)
    requires Genuine(d, hash) && GenuineEntry(e, hash)
    ensures Genuine(Merged(d, Stripped(e.0), e.1), hash)
  {
  }

  /** Genuine stores with the same counts answer the same hashes, each with a preimage of the hash. */
  lemma SameCountsSameHashes(a: Store, b: Store, hash: Hasher, h: Hash)
    requires Genuine(a, hash) && Genuine(b, hash) && CountOf(a, h) == CountOf(b, h)
    ensures Get(a, h, hash).Some? <==> Get(b, h, hash).Some?
    ensures Get(a, h, hash).Some? ==> hash(Get(a, h, hash).value) == h == hash(Get(b, h, hash).value)
  {
  }

  // ---- counts of a transaction

  function Effect(op: Op, h: Hash, hash: Hasher): int {
    match op
    case Ins(_, value) => if value != NULL_NODE && hash(value) == h then 1 else 0
    case Rem(_, key) => if key != hash(NULL_NODE) && key == h then -1 else 0
  }

  /** Insertions of a hash minus its removals. */
  function Net(ops: seq<Op>, h: Hash, hash: Hasher): int {
    if ops == [] then 0 else Net(ops[..|ops| - 1], h, hash) + Effect(ops[|ops| - 1], h, hash)
  }

  lemma {:induction false} ConsolidateCount(d: Store, entries: seq<(Key, Node)>, h: Hash)
    ensures CountOf(Consolidate(d, entries), h) == CountOf(d, h) + Sum(entries, h)
  {
    if entries != [] {
      var last := entries[|entries| - 1];
      ConsolidateCount(d, entries[..|entries| - 1], h);
      MergedCount(Consolidate(d, entries[..|entries| - 1]), Stripped(last.0), last.1, h);
    }
  }

  lemma {:induction false} ConsolidateGenuine(d: Store, entries: seq<(Key, Node)>, hash: Hasher)
    requires Genuine(d, hash) && forall e :: e in entries ==> GenuineEntry(e, hash)
    ensures Genuine(Consolidate(d, entries), hash)
  {
    if entries != [] {
      ConsolidateGenuine(d, entries[..|entries| - 1], hash);
      MergedGenuine(Consolidate(d, entries[..|entries| - 1]), entries[|entries| - 1], hash);
    }
  }

  lemma {:induction false} ReplayCount(d: Store, ops: seq<Op>, hash: Hasher, h: Hash)
    ensures CountOf(Replay(d, ops, hash), h) == CountOf(d, h) + Net(ops, h, hash)
  {
    if ops != [] {
      ReplayCount(d, ops[..|ops| - 1], hash, h);
      var before := Replay(d, ops[..|ops| - 1], hash);
      match ops[|ops| - 1]
      case Ins(_, value) => EmplaceCount(before, hash(value), value, h);
      case Rem(_, key) => RemoveCount(before, key, h);
    }
  }

  lemma {:induction false} ReplayGenuine(d: Store, ops: seq<Op>, hash: Hasher)
    requires Genuine(d, hash)
    ensures Genuine(Replay(d, ops, hash), hash)
  {
    if ops != [] {
      ReplayGenuine(d, ops[..|ops| - 1], hash);
      var before := Replay(d, ops[..|ops| - 1], hash);
      match ops[|ops| - 1]
      case Ins(_, value) => InsertGenuine(before, value, hash);
      case Rem(_, key) => RemoveGenuine(before, key, hash);
    }
  }

  ghost predicate WellKeyed(t: Transaction, hash: Hasher) {
    forall k :: k in t ==> GenuineEntry((k, t[k]), hash)
  }

  lemma CountUpWellKeyed(t: Transaction, k: Key, value: Bytes, hash: Hasher)
    requires WellKeyed(t, hash) && hash(value) == Stripped(k)
    ensures WellKeyed(CountUp(t, k, value), hash)
  {
    forall j | j in t ensures GenuineEntry((j, t[j]), hash) {
    }
  }

  lemma CountDownWellKeyed(t: Transaction, k: Key, hash: Hasher)
    requires WellKeyed(t, hash)
    ensures WellKeyed(CountDown(t, k), hash)
  {
    forall j | j in t ensures GenuineEntry((j, t[j]), hash) {
    }
  }

  lemma RecordWellKeyed(t: Transaction, op: Op, hash: Hasher)
    requires WellKeyed(t, hash)
    ensures WellKeyed(Record(t, op, hash), hash)
  {
    match op
    case Ins(prefix, value) =>
      StrippedPrefixedKey(hash(value), prefix);
      CountUpWellKeyed(t, PrefixedKey(hash(value), prefix), value, hash);
    case Rem(prefix, h) => CountDownWellKeyed(t, PrefixedKey(h, prefix), hash);
  }

  lemma {:induction false} RecordedWellKeyed(ops: seq<Op>, hash: Hasher)
    ensures WellKeyed(Recorded(ops, hash), hash)
  {
    if ops != [] {
      RecordedWellKeyed(ops[..|ops| - 1], hash);
      RecordWellKeyed(Recorded(ops[..|ops| - 1], hash), ops[|ops| - 1], hash);
    }
  }

  // ---- draining a recorded transaction

  /** However a recorded transaction is drained, its entries for a hash sum up to the insertions of
      that hash minus its removals. */
  lemma {:induction false} DrainedSum(ops: seq<Op>, entries: seq<(Key, Node)>, hash: Hasher, h: Hash)
    requires Drains(entries, Recorded(ops, hash))
    ensures Sum(entries, h) == Net(ops, h, hash)
  {
    RecordedWellKeyed(ops, hash);
    if ops != [] {
      var op, t := ops[|ops| - 1], Recorded(ops[..|ops| - 1], hash);
      RecordedWellKeyed(ops[..|ops| - 1], hash);
      var before := SomeDrain(t);
      DrainedSum(ops[..|ops| - 1], before, hash, h);
      RecordSum(t, op, entries, before, hash, h);
    }
  }

  lemma RecordSum(t: Transaction, op: Op, entries: seq<(Key, Node)>, before: seq<(Key, Node)>, hash: Hasher, h: Hash)
    requires Drains(before, t) && Drains(entries, Record(t, op, hash))
    ensures Sum(entries, h) == Sum(before, h) + Effect(op, h, hash)
  {
    match op
    case Ins(prefix, value) =>
      var k := PrefixedKey(hash(value), prefix);
      StrippedPrefixedKey(hash(value), prefix);
      if value == NULL_NODE {
        SumOrderFree(entries, before, t, h);
      } else {
        SumUpdate(t, k, CountUp(t, k, value)[k], entries, before, h);
      }
    case Rem(prefix, key) =>
      var k := PrefixedKey(key, prefix);
      StrippedPrefixedKey(key, prefix);
      if key == hash(NULL_NODE) {
        SumOrderFree(entries, before, t, h);
      } else {
        SumUpdate(t, k, CountDown(t, k)[k], entries, before, h);
      }
  }

  /** Consolidation refines replay.  For any genuine store, any trie update, any order in which its
      transaction is drained and any hash function, the consolidated store has the counts of the store
      on which the update's insertions and removals are replayed one by one, and the two answer the same
      hashes, each with a preimage. */
  lemma ConsolidateRefinesReplay(d: Store, ops: seq<Op>, entries: seq<(Key, Node)>, hash: Hasher, h: Hash)
    requires Genuine(d, hash) && Drains(entries, Recorded(ops, hash))
    ensures var c, r := Consolidate(d, entries), Replay(d, ops, hash);
      && Genuine(c, hash) && Genuine(r, hash)
      && CountOf(c, h) == CountOf(r, h)
      && (Get(c, h, hash).Some? <==> Get(r, h, hash).Some?)
      && (Get(c, h, hash).Some? ==> hash(Get(c, h, hash).value) == h == hash(Get(r, h, hash).value))
  {
    DrainedSum(ops, entries, hash, h);
    ConsolidateCount(d, entries, h);
    ReplayCount(d, ops, hash, h);
    RecordedWellKeyed(ops, hash);
    forall e | e in entries ensures GenuineEntry(e, hash) {
    }
    ConsolidateGenuine(d, entries, hash);
    ReplayGenuine(d, ops, hash);
    SameCountsSameHashes(Consolidate(d, entries), Replay(d, ops, hash), hash, h);
  }

  // ---- the answers, value for value

  lemma InsertFrom(d: Store, value: Bytes, hash: Hasher, values: set<Bytes>)
    requires From(d, values) && value in values
    ensures From(Insert(d, value, hash), values)
  {
  }

  lemma RemoveFrom(d: Store, h: Hash, hash: Hasher, values: set<Bytes>)
    requires From(d, values)
    ensures From(Remove(d, h, hash), values)
  {
  }

  lemma {:induction false} ReplayFrom(d: Store, ops: seq<Op>, hash: Hasher, values: set<Bytes>)
    requires From(d, values) && Inserted(ops) <= values
    ensures From(Replay(d, ops, hash), values)
  {
    if ops != [] {
      var n := |ops| - 1;
      InsertedFront(ops);
      ReplayFrom(d, ops[..n], hash, values);
      var before := Replay(d, ops[..n], hash);
      match ops[n]
      case Ins(_, value) => InsertFrom(before, value, hash, values);
      case Rem(_, key) => RemoveFrom(before, key, hash, values);
    }
  }

  lemma InsertedFront(ops: seq<Op>)
    requires ops != []
    ensures Inserted(ops[..|ops| - 1]) <= Inserted(ops)
    ensures ops[|ops| - 1].Ins? ==> ops[|ops| - 1].value in Inserted(ops)
  {
    var n := |ops| - 1;
    forall v | v in Inserted(ops[..n]) ensures v in Inserted(ops) {
      var i :| 0 <= i < n && ops[..n][i].Ins? && ops[..n][i].value == v;
      assert ops[i].Ins? && ops[i].value == v;
    }
  }

  lemma MergedFrom(d: Store, e: (Key, Node), values: set<Bytes>)
    requires From(d, values) && EntryFrom(e, values)
    ensures From(Merged(d, Stripped(e.0), e.1), values)
  {
  }

  lemma {:induction false} ConsolidateFrom(d: Store, entries: seq<(Key, Node)>, values: set<Bytes>)
    requires From(d, values) && forall e :: e in entries ==> EntryFrom(e, values)
    ensures From(Consolidate(d, entries), values)
  {
    if entries != [] {
      ConsolidateFrom(d, entries[..|entries| - 1], values);
      MergedFrom(Consolidate(d, entries[..|entries| - 1]), entries[|entries| - 1], values);
    }
  }

  ghost predicate RecordsFrom(t: Transaction, values: set<Bytes>) {
    forall k :: k in t ==> EntryFrom((k, t[k]), values)
  }

  lemma RecordFrom(t: Transaction, op: Op, hash: Hasher, values: set<Bytes>)
    requires RecordsFrom(t, values) && (op.Ins? ==> op.value in values)
    ensures RecordsFrom(Record(t, op, hash), values)
  {
    forall j | j in t ensures EntryFrom((j, t[j]), values) {
    }
  }

  lemma {:induction false} RecordedFrom(ops: seq<Op>, hash: Hasher, values: set<Bytes>)
    requires Inserted(ops) <= values
    ensures RecordsFrom(Recorded(ops, hash), values)
  {
    if ops != [] {
      InsertedFront(ops);
      RecordedFrom(ops[..|ops| - 1], hash, values);
      RecordFrom(Recorded(ops[..|ops| - 1], hash), ops[|ops| - 1], hash, values);
    }
  }

  /** And the answers are the same, value for value, unless two of the values that occur in the store and
      the update collide. */
  lemma ConsolidateAnswersReplay(d: Store, ops: seq<Op>, entries: seq<(Key, Node)>, hash: Hasher, h: Hash)
    requires Genuine(d, hash) && Drains(entries, Recorded(ops, hash))
    requires Distinct(hash, Values(d) + Inserted(ops))
    ensures Get(Consolidate(d, entries), h, hash) == Get(Replay(d, ops, hash), h, hash)
  {
    var values := Values(d) + Inserted(ops);
    ConsolidateRefinesReplay(d, ops, entries, hash, h);
    ReplayFrom(d, ops, hash, values);
    RecordedFrom(ops, hash, values);
    forall e | e in entries ensures EntryFrom(e, values) {
    }
    ConsolidateFrom(d, entries, values);
  }

  // ---- the hypothesis can be met

  /** A hash function without collisions among values of up to 31 bytes. */
  function Padded(v: Bytes): Hash {
    if |v| <= 31 then [|v|] + v + seq(31 - |v|, _ => 0) else ZERO_HASH
  }

  lemma PaddedDistinct(values: set<Bytes>)
    requires forall v :: v in values ==> |v| <= 31
    ensures Distinct(Padded, values)
  {
    forall a, b | a in values && b in values && Padded(a) == Padded(b) ensures a == b {
      assert Padded(a)[0] == |a| && Padded(b)[0] == |b|;
      assert a == Padded(a)[1..|a| + 1] && b == Padded(b)[1..|b| + 1];
    }
  }

  lemma ReplayTwo(d: Store, first: Op, second: Op, hash: Hasher)
    ensures Replay(d, [first, second], hash) == ReplayOne(ReplayOne(d, first, hash), second, hash)
  {
    var ops := [first, second];
    assert ops[..1] == [first] && ops[..1][..0] == [];
    assert Replay(d, ops[..1], hash) == ReplayOne(d, first, hash);
  }

  /** A store that holds v, an update that replaces it by w, and a drained transaction of that update. */
  lemma ReplacementMeetsHypotheses(v: Bytes, w: Bytes, prefix: Prefix, hash: Hasher)
    requires v != w && v != NULL_NODE && w != NULL_NODE && Distinct(hash, {v, w, NULL_NODE})
    ensures var d: Store, ops := map[hash(v) := Node(v, 1)], [Rem(prefix, hash(v)), Ins(prefix, w)];
      && Genuine(d, hash) && Distinct(hash, Values(d) + Inserted(ops))
      && (exists entries :: Drains(entries, Recorded(ops, hash)))
      && Replay(d, ops, hash) == map[hash(w) := Node(w, 1)]
  {
    var d: Store, ops := map[hash(v) := Node(v, 1)], [Rem(prefix, hash(v)), Ins(prefix, w)];
    assert Values(d) + Inserted(ops) <= {v, w};
    var entries := SomeDrain(Recorded(ops, hash));
    ReplayTwo(d, ops[0], ops[1], hash);
    assert hash(v) != hash(NULL_NODE) && hash(w) != hash(NULL_NODE);
    assert ReplayOne(d, ops[0], hash) == map[];
  }

  /** The hypothesis is needed: replacing a value by one that collides with it is seen by a replay and not
      by a consolidation. */
  lemma CollisionSplitsAnswers(v: Bytes, w: Bytes, prefix: Prefix, hash: Hasher)
    requires v != w && hash(v) == hash(w) != hash(NULL_NODE)
    ensures var d: Store, ops := map[hash(v) := Node(v, 1)], [Rem(prefix, hash(v)), Ins(prefix, w)];
      var entries := [(PrefixedKey(hash(v), prefix), Node(w, 0))];
      && Genuine(d, hash) && Drains(entries, Recorded(ops, hash))
      && Get(Replay(d, ops, hash), hash(v), hash) == Some(w)
      && Get(Consolidate(d, entries), hash(v), hash) == Some(v)
  {
    var d: Store, ops := map[hash(v) := Node(v, 1)], [Rem(prefix, hash(v)), Ins(prefix, w)];
    var k := PrefixedKey(hash(v), prefix);
    var entries := [(k, Node(w, 0))];
    assert ops[..1] == [ops[0]] && ops[..1][..0] == [];
    assert Recorded(ops[..1], hash) == map[k := Node(PLACEHOLDER, -1)];
    assert Recorded(ops, hash) == map[k := Node(w, 0)];
    assert entries[0].0 == k;
    ReplayTwo(d, ops[0], ops[1], hash);
    assert ReplayOne(d, ops[0], hash) == map[];
    StrippedPrefixedKey(hash(v), prefix);
    assert entries[..0] == [];
    assert Consolidate(d, entries) == d;
  }

  // ---- entries that count zero

  ghost predicate NoZeros(d: Store) {
    forall h :: h in d ==> d[h].count != 0
  }

  /** Insertions and removals leave no entry behind that counts zero. */
  lemma {:induction false} ReplayLeavesNoZeros(d: Store, ops: seq<Op>, hash: Hasher)
    requires NoZeros(d)
    ensures NoZeros(Replay(d, ops, hash))
  {
    if ops != [] {
      ReplayLeavesNoZeros(d, ops[..|ops| - 1], hash);
    }
  }

  /** Consolidating an entry leaves one that counts zero exactly when it counts zero itself and is new. */
  lemma MergedZeroIff(d: Store, h: Hash, n: Node)
    requires NoZeros(d)
    ensures (h in Merged(d, h, n) && Merged(d, h, n)[h].count == 0) <==> h !in d && n.count == 0
    ensures NoZeros(Merged(d, h, n)) <==> h in d || n.count != 0
  {
  }

  /** Removing and purging removes like a removal, and gives the value away exactly when it was the last one. */
  lemma PurgedIff(d: Store, h: Hash, hash: Hasher)
    ensures var (t, purged) := RemoveAndPurge(d, h, hash);
      && t == Remove(d, h, hash)
      && (purged.Some? <==> h != hash(NULL_NODE) && CountOf(d, h) == 1)
      && (purged.Some? ==> purged == Get(d, h, hash) && h !in t && Get(t, h, hash) == None)
  {
  }

}
