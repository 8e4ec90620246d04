/** What draining a transaction yields does not depend on the order. */
module NodeStoreDrain {
  import opened NodeStore

  /** The counts of the entries whose key strips to h. */
  function Sum(entries: seq<(Key, Node)>, h: Hash): int
  {
    if entries == [] then 0
    else
      var last := entries[|entries| - 1];
      Sum(entries[..|entries| - 1], h) + if Stripped(last.0) == h then last.1.count else 0
  }

  lemma {:induction false} SumConcat(a: seq<(Key, Node)>, b: seq<(Key, Node)>, h: Hash)
    ensures Sum(a + b, h) == Sum(a, h) + Sum(b, h)
  {
    if b == [] {
      assert a + b == a;
    } else {
      assert (a + b)[..|a + b| - 1] == a + b[..|b| - 1];
      SumConcat(a, b[..|b| - 1], h);
    }
  }

  lemma SumAround(entries: seq<(Key, Node)>, i: nat, h: Hash)
    requires i < |entries|
    ensures Sum(entries, h)
         == Sum(entries[..i] + entries[i + 1..], h) + if Stripped(entries[i].0) == h then entries[i].1.count else 0
  {
    assert entries == entries[..i] + [entries[i]] + entries[i + 1..];
    SumConcat(entries[..i] + [entries[i]], entries[i + 1..], h);
    SumConcat(entries[..i], [entries[i]], h);
    SumConcat(entries[..i], entries[i + 1..], h);
    var one: seq<(Key, Node)> := [entries[i]];
    assert |one[..0]| == 0;
  }

  lemma WithoutAt(entries: seq<(Key, Node)>, i: nat, j: nat)
    requires i < |entries| && j < |entries| - 1
    ensures (entries[..i] + entries[i + 1..])[j] == entries[if j < i then j else j + 1]
  {
  }

  /** Without one entry, a drained sequence drains the transaction without that key. */
  lemma DrainsWithout(entries: seq<(Key, Node)>, t: Transaction, i: nat)
    requires Drains(entries, t) && i < |entries|
    ensures Drains(entries[..i] + entries[i + 1..], t - {entries[i].0})
  {
    var k := entries[i].0;
    var rest, u := entries[..i] + entries[i + 1..], t - {k};
    forall j | 0 <= j < |rest| ensures rest[j].0 in u && u[rest[j].0] == rest[j].1 {
      WithoutAt(entries, i, j);
    }
    forall j, l | 0 <= j < l < |rest| ensures rest[j].0 != rest[l].0 {
      WithoutAt(entries, i, j);
      WithoutAt(entries, i, l);
    }
    assert rest != [] ==> rest[0].0 in u;
    forall q | q in u ensures exists j :: 0 <= j < |rest| && rest[j].0 == q {
      var j :| 0 <= j < |entries| && entries[j].0 == q;
      WithoutAt(entries, i, if j < i then j else j - 1);
      assert rest[if j < i then j else j - 1].0 == q;
    }
  }

  /** What is left when the entry of one key is taken out. */
  lemma TakeOut(entries: seq<(Key, Node)>, t: Transaction, k: Key, h: Hash) returns (rest: seq<(Key, Node)>)
    requires Drains(entries, t) && k in t
    ensures Drains(rest, t - {k}) && |rest| < |entries|
    ensures Sum(entries, h) == Sum(rest, h) + if Stripped(k) == h then t[k].count else 0
  {
    var i :| 0 <= i < |entries| && entries[i].0 == k;
    SumAround(entries, i, h);
    DrainsWithout(entries, t, i);
    rest := entries[..i] + entries[i + 1..];
  }

  /** The order of draining does not matter to the counts. */
  lemma {:induction false} SumOrderFree(a: seq<(Key, Node)>, b: seq<(Key, Node)>, t: Transaction, h: Hash)
    requires Drains(a, t) && Drains(b, t)
    ensures Sum(a, h) == Sum(b, h)
    decreases |a|
  {
    if a == [] {
      assert t == map[];
    } else {
      var k := a[0].0;
      var restA := TakeOut(a, t, k, h);
      var restB := TakeOut(b, t, k, h);
      SumOrderFree(restA, restB, t - {k}, h);
    }
  }

  lemma DrainsAppend(entries: seq<(Key, Node)>, t: Transaction, k: Key, n: Node)
    requires Drains(entries, t) && k !in t
    ensures Drains(entries + [(k, n)], t[k := n])
  {
    var more, u := entries + [(k, n)], t[k := n];
    assert k in u;
    forall q | q in u ensures exists i :: 0 <= i < |more| && more[i].0 == q {
      if q == k {
        assert more[|entries|].0 == k;
      } else {
        var i :| 0 <= i < |entries| && entries[i].0 == q;
        assert more[i].0 == q;
      }
    }
  }

  lemma UpdateWithout(t: Transaction, k: Key, n: Node)
    ensures t[k := n] - {k} == t - {k}
    ensures k !in t ==> t - {k} == t
  {
  }

  /** If one key's entry changes, so do the counts of the hash it strips to, by the difference. */
  lemma SumUpdate(t: Transaction, k: Key, n: Node, entries: seq<(Key, Node)>, before: seq<(Key, Node)>, h: Hash)
    requires Drains(before, t) && Drains(entries, t[k := n])
    ensures Sum(entries, h) == Sum(before, h) + if Stripped(k) == h then n.count - CountOf(t, k) else 0
  {
    var rest := TakeOut(entries, t[k := n], k, h);
    var others := before;
    if k in t {
      others := TakeOut(before, t, k, h);
    }
    UpdateWithout(t, k, n);
    SumOrderFree(rest, others, t - {k}, h);
  }

  lemma {:induction false} SomeDrain(t: Transaction) returns (entries: seq<(Key, Node)>)
    ensures Drains(entries, t)
    decreases |t|
  {
    if t == map[] {
      entries := [];
    } else {
      var k :| k in t;
      var rest := SomeDrain(t - {k});
      DrainsAppend(rest, t - {k}, k, t[k]);
      assert (t - {k})[k := t[k]] == t;
      entries := rest + [(k, t[k])];
    }
  }
}
