/** A checkpoint writes the nodes without their keys; loading hashes them back into place. */
module NodeStoreCheckpoint {
  import opened NodeStore
  import opened NodeStoreConsolidation

  /** The nodes are those of the store, in some order of the keys. */
  ghost predicate Lists(nodes: seq<Node>, keys: seq<Hash>, d: Store) {
    && |nodes| == |keys|
    && (forall i :: 0 <= i < |keys| ==> keys[i] in d && d[keys[i]] == nodes[i])
    && (forall i, j :: 0 <= i < j < |keys| ==> keys[i] != keys[j])
    && (forall h :: h in d ==> h in keys)
  }

  /** Each node is stored under the hash of its value; of two with the same hash the later one stays. */
  function Load(nodes: seq<Node>, hash: Hasher): Store {
    if nodes == [] then map[]
    else
      var last := nodes[|nodes| - 1];
      Load(nodes[..|nodes| - 1], hash)[hash(last.value) := last]
  }

  /** Every node is the preimage of its key. */
  ghost predicate Keyed(d: Store, hash: Hasher) {
    forall h :: h in d ==> hash(d[h].value) == h
  }

  lemma {:induction false} LoadKeyed(nodes: seq<Node>, hash: Hasher)
    ensures Keyed(Load(nodes, hash), hash)
  {
    if nodes != [] {
      LoadKeyed(nodes[..|nodes| - 1], hash);
    }
  }

  lemma {:induction false} LoadContents(nodes: seq<Node>, keys: seq<Hash>, hash: Hasher)
    requires |nodes| == |keys| && forall i :: 0 <= i < |nodes| ==> hash(nodes[i].value) == keys[i]
    requires forall i, j :: 0 <= i < j < |keys| ==> keys[i] != keys[j]
    ensures forall i :: 0 <= i < |keys| ==> keys[i] in Load(nodes, hash) && Load(nodes, hash)[keys[i]] == nodes[i]
    ensures forall h :: h in Load(nodes, hash) ==> h in keys
  {
    if nodes != [] {
      var n := |nodes| - 1;
      LoadContents(nodes[..n], keys[..n], hash);
      var d := Load(nodes[..n], hash);
      forall i | 0 <= i < n ensures keys[i] in d && d[keys[i]] == nodes[i] && keys[i] != keys[n] {
        assert keys[..n][i] == keys[i] && nodes[..n][i] == nodes[i];
      }
    }
  }

  /** The last node whose value has the given hash. */
  function LastWith(nodes: seq<Node>, h: Hash, hash: Hasher): Option<Node> {
    if nodes == [] then None
    else
      var last := nodes[|nodes| - 1];
      if hash(last.value) == h then Some(last) else LastWith(nodes[..|nodes| - 1], h, hash)
  }

  /** Of the nodes with the same hash the one written last is loaded. */
  lemma {:induction false} LoadsLast(nodes: seq<Node>, h: Hash, hash: Hasher)
    ensures (if h in Load(nodes, hash) then Some(Load(nodes, hash)[h]) else None) == LastWith(nodes, h, hash)
  {
    if nodes != [] {
      LoadsLast(nodes[..|nodes| - 1], h, hash);
    }
  }

  /** Writing a store and loading it gives the store back exactly when every node is the preimage of
      its key. */
  lemma CheckpointRoundTripIff(nodes: seq<Node>, keys: seq<Hash>, d: Store, hash: Hasher)
    requires Lists(nodes, keys, d)
    ensures Load(nodes, hash) == d <==> Keyed(d, hash)
  {
    LoadKeyed(nodes, hash);
    if Keyed(d, hash) {
      LoadContents(nodes, keys, hash);
      forall h | h in d ensures h in Load(nodes, hash) && Load(nodes, hash)[h] == d[h] {
        var i :| 0 <= i < |keys| && keys[i] == h;
      }
    }
  }

  /** A genuine store without negative counts survives a checkpoint. */
  lemma CheckpointOfSettledStore(nodes: seq<Node>, keys: seq<Hash>, d: Store, hash: Hasher)
    requires Lists(nodes, keys, d) && Genuine(d, hash) && forall h :: h in d ==> 0 <= d[h].count
    ensures Load(nodes, hash) == d
  {
    CheckpointRoundTripIff(nodes, keys, d, hash);
  }

  /** A removal that is ahead of its insertion is lost: the placeholder does not hash to its key. */
  lemma CheckpointMisplacesPlaceholder(h: Hash, hash: Hasher)
    requires h != hash(PLACEHOLDER) && h != hash(NULL_NODE)
    ensures var d := Remove(map[], h, hash);
      Genuine(d, hash) && Lists([d[h]], [h], d) && CountOf(Load([d[h]], hash), h) == 0 != CountOf(d, h)
  {
    var d := Remove(map[], h, hash);
    var one := [d[h]];
    assert Load(one[..0], hash) == map[];
    assert Load(one, hash) == map[hash(PLACEHOLDER) := d[h]];
  }

  // ---- proofs

  function LoadProof(proof: seq<Bytes>, hash: Hasher): Store {
    if proof == [] then map[] else Insert(LoadProof(proof[..|proof| - 1], hash), proof[|proof| - 1], hash)
  }

  /** The first node of the proof with the given hash. */
  function FirstWith(proof: seq<Bytes>, h: Hash, hash: Hasher): Option<Bytes> {
    if proof == [] then None
    else
      var n := |proof| - 1;
      var earlier := FirstWith(proof[..n], h, hash);
      if earlier.Some? then earlier else if hash(proof[n]) == h then Some(proof[n]) else None
  }

  lemma {:induction false} FirstWithMember(proof: seq<Bytes>, h: Hash, hash: Hasher)
    ensures FirstWith(proof, h, hash).None? <==> forall v :: v in proof ==> hash(v) != h
    ensures var first := FirstWith(proof, h, hash);
      first.Some? ==> first.value in proof && hash(first.value) == h
    decreases |proof|
  {
    if proof != [] {
      var n := |proof| - 1;
      assert proof == proof[..n] + [proof[n]];
      FirstWithMember(proof[..n], h, hash);
    }
  }

  lemma {:induction false} LoadProofContents(proof: seq<Bytes>, h: Hash, hash: Hasher)
    requires h != hash(NULL_NODE)
    ensures var d, first := LoadProof(proof, hash), FirstWith(proof, h, hash);
      && (h in d <==> first.Some?)
      && (h in d ==> 0 < d[h].count && d[h].value == first.value)
    decreases |proof|
  {
    if proof != [] {
      LoadProofContents(proof[..|proof| - 1], h, hash);
    }
  }

  /** A loaded proof answers the null node's hash with the null node, any other hash with the first of its
      nodes that has it, and no hash that none of them has. */
  lemma LoadedProofAnswers(proof: seq<Bytes>, h: Hash, hash: Hasher)
    ensures Get(LoadProof(proof, hash), h, hash)
         == if h == hash(NULL_NODE) then Some(NULL_NODE) else FirstWith(proof, h, hash)
  {
    if h != hash(NULL_NODE) {
      LoadProofContents(proof, h, hash);
    }
  }

  /** Unless nodes collide, a loaded proof answers with each of its nodes and with nothing else. */
  lemma LoadedProofHolds(proof: seq<Bytes>, hash: Hasher, v: Bytes)
    requires Distinct(hash, (set u | u in proof) + {v, NULL_NODE})
    ensures Get(LoadProof(proof, hash), hash(v), hash) == Some(v) <==> v in proof || v == NULL_NODE
  {
    LoadedProofAnswers(proof, hash(v), hash);
    FirstWithMember(proof, hash(v), hash);
  }
}
