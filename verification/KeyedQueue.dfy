/**
  The red-black tree both schedulers queue in: a multimap from virtual times to values, read
  from either end.  It is modelled as the sequence of its entries in key order; an entry goes
  in behind the entries whose key is equal to its own.
  */
module KeyedQueue {

  datatype Entry<V> = Entry(key: nat, value: V)

  ghost predicate Ordered<V>(q: seq<Entry<V>>) {
    forall i, j :: 0 <= i < j < |q| ==> q[i].key <= q[j].key
  }

  /** The place a new entry takes: the first one whose key is larger, or the end. */
  function Rank<V>(q: seq<Entry<V>>, key: nat): (i: nat)
    ensures i <= |q|
    ensures forall j :: 0 <= j < i ==> q[j].key <= key
    ensures i < |q| ==> key < q[i].key
  {
    if q == [] || key < q[0].key then 0 else 1 + Rank(q[1..], key)
  }

  function Insert<V>(q: seq<Entry<V>>, e: Entry<V>): seq<Entry<V>> {
    var i := Rank(q, e.key);
    q[..i] + [e] + q[i..]
  }

  lemma InsertAt<V>(q: seq<Entry<V>>, e: Entry<V>, k: nat)
    requires k <= |q|
    ensures |Insert(q, e)| == |q| + 1
    ensures var i := Rank(q, e.key); Insert(q, e)[k] == if k < i then q[k] else if k == i then e else q[k - 1]
  {
  }

  lemma InsertKeepsOrder<V>(q: seq<Entry<V>>, e: Entry<V>)
    requires Ordered(q)
    ensures Ordered(Insert(q, e))
  {
    var r := Insert(q, e);
    forall j, k | 0 <= j < k < |r| ensures r[j].key <= r[k].key {
      InsertAt(q, e, j);
      InsertAt(q, e, k);
    }
  }

  lemma InsertMembers<V>(q: seq<Entry<V>>, e: Entry<V>)
    ensures forall x :: x in Insert(q, e) <==> x in q || x == e
  {
    var i := Rank(q, e.key);
    assert q == q[..i] + q[i..];
  }
}
