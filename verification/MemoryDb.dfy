/** The node store itself: a map updated in place, each method proved against `NodeStore`. */
module MemoryDb {
  import opened NodeStore

  class MemoryDB {
    var data: Store
    const hash: Hasher

    constructor (hash: Hasher)
      ensures data == map[] && this.hash == hash
    {
      this.hash := hash;
      data := map[];
    }

    method Read(key: Hash) returns (value: Option<Bytes>)
      ensures value == Get(data, key, hash)
    {
      if key == hash(NULL_NODE) {
        return Some(NULL_NODE);
      }
      if key in data && data[key].count > 0 {
        return Some(data[key].value);
      }
      return None;
    }

    method Contains(key: Hash) returns (found: bool)
      ensures found <==> Get(data, key, hash).Some?
    {
      found := key == hash(NULL_NODE) || (key in data && data[key].count > 0);
    }

    method EmplaceNode(key: Hash, value: Bytes)
      modifies this
      ensures data == Emplace(old(data), key, value)
    {
      if value == NULL_NODE {
        return;
      }
      if key in data {
        var node := data[key];
        if node.count <= 0 {
          node := node.(value := value);
        }
        node := node.(count := node.count + 1);
        data := data[key := node];
        if node.count == 0 {
          data := data - {key};
        }
      } else {
        data := data[key := Node(value, 1)];
      }
    }

    method InsertValue(value: Bytes) returns (key: Hash)
      modifies this
      ensures key == hash(value) && data == Insert(old(data), value, hash)
    {
      key := hash(value);
      if value != NULL_NODE {
        EmplaceNode(key, value);
      }
    }

    method RemoveKey(key: Hash)
      modifies this
      ensures data == Remove(old(data), key, hash)
    {
      if key == hash(NULL_NODE) {
        return;
      }
      if key in data {
        var node := data[key];
        node := node.(count := node.count - 1);
        data := data[key := node];
        if node.count == 0 {
          data := data - {key};
        }
      } else {
        data := data[key := Node(PLACEHOLDER, -1)];
      }
    }

    method RemoveAndPurgeKey(key: Hash) returns (purged: Option<Bytes>)
      modifies this
      ensures (data, purged) == RemoveAndPurge(old(data), key, hash)
    {
      if key == hash(NULL_NODE) {
        return None;
      }
      if key in data {
        if data[key].count == 1 {
          purged := Some(data[key].value);
          data := data - {key};
        } else {
          purged := None;
          data := data[key := data[key].(count := data[key].count - 1)];
        }
      } else {
        purged := None;
        data := data[key := Node(PLACEHOLDER, -1)];
      }
    }

    /** `entries` is what draining the transaction yields. */
    method ConsolidateEntries(entries: seq<(Key, Node)>)
      modifies this
      ensures data == Consolidate(old(data), entries)
    {
      for i := 0 to |entries|
        invariant data == Consolidate(old(data), entries[..i])
      {
        assert entries[..i + 1][..i] == entries[..i];
        var (key, other) := entries[i];
        var h := Stripped(key);
        if h in data {
          var node := data[h];
          if node.count < 0 {
            node := node.(value := other.value);
          }
          node := node.(count := node.count + other.count);
          data := data[h := node];
          if node.count == 0 {
            data := data - {h};
          }
        } else {
          data := data[h := other];
        }
      }
      assert entries[..|entries|] == entries;
    }
  }
}
