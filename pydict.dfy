/** Python dictionaries as ordered association lists. A `dict` keeps its keys in
    insertion order, and assigning to a key that is already present replaces the
    value in place. The core relies on that order when it takes the first genre
    whose name matches. */
module PyDict {
  import opened Wrappers

  type Dict<K, V> = seq<(K, V)>

  function KeySet<K, V>(d: Dict<K, V>): set<K> {
    set i | 0 <= i < |d| :: d[i].0
  }

  lemma KeySetConcat<K, V>(a: Dict<K, V>, b: Dict<K, V>)
    ensures KeySet(a + b) == KeySet(a) + KeySet(b)
  {
    forall k | k in KeySet(a + b) ensures k in KeySet(a) + KeySet(b) {
      var i :| 0 <= i < |a + b| && (a + b)[i].0 == k;
      if i >= |a| { assert b[i - |a|].0 == k; }
    }
    forall k | k in KeySet(a) + KeySet(b) ensures k in KeySet(a + b) {
      if k in KeySet(a) {
        var i :| 0 <= i < |a| && a[i].0 == k;
        assert (a + b)[i].0 == k;
      } else {
        var i :| 0 <= i < |b| && b[i].0 == k;
        assert (a + b)[i + |a|].0 == k;
      }
    }
  }

  lemma KeySetSingle<K, V>(p: (K, V))
    ensures KeySet([p]) == {p.0}
  {
    assert [p][0].0 == p.0;
  }

  predicate DistinctKeys<K(==), V>(d: Dict<K, V>) {
    forall i, j :: 0 <= i < j < |d| ==> d[i].0 != d[j].0
  }

  /** `d.get(k)`. */
  function Get<K(==), V(==)>(d: Dict<K, V>, k: K): (r: Option<V>)
    ensures r.Some? <==> k in KeySet(d)
    ensures r.Some? ==> exists i :: 0 <= i < |d| && d[i] == (k, r.value)
  {
    if d == [] then None
    else if d[0].0 == k then Some(d[0].1)
    else
      var r := Get(d[1..], k);
      assert KeySet(d) == {d[0].0} + KeySet(d[1..]);
      if r.Some? then
        var i :| 0 <= i < |d[1..]| && d[1..][i] == (k, r.value);
        assert d[i + 1] == (k, r.value);
        r
      else r
  }

  /** `d[k] = v`. */
  function Put<K(==), V>(d: Dict<K, V>, k: K, v: V): (r: Dict<K, V>)
    ensures KeySet(r) == KeySet(d) + {k}
    ensures k !in KeySet(d) ==> r == d + [(k, v)]
  {
    if d == [] then KeySetSingle((k, v)); [(k, v)]
    else if d[0].0 == k then
      KeySetConcat([d[0]], d[1..]);
      KeySetConcat([(k, v)], d[1..]);
      KeySetSingle(d[0]);
      KeySetSingle((k, v));
      assert d == [d[0]] + d[1..];
      [(k, v)] + d[1..]
    else
      var tail := Put(d[1..], k, v);
      KeySetConcat([d[0]], d[1..]);
      KeySetConcat([d[0]], tail);
      KeySetSingle(d[0]);
      assert d == [d[0]] + d[1..];
      [d[0]] + tail
  }

  /** After `d[k] = v`, `k` maps to `v` and every other key is as before. */
  lemma {:induction false} PutGet<K, V>(d: Dict<K, V>, k: K, v: V, k': K)
    ensures Get(Put(d, k, v), k') == if k' == k then Some(v) else Get(d, k')
  {
    if d != [] && d[0].0 != k {
      PutGet(d[1..], k, v, k');
    }
  }

  /** Assignment never creates a duplicate key. */
  lemma {:induction false} PutDistinct<K, V>(d: Dict<K, V>, k: K, v: V)
    requires DistinctKeys(d)
    ensures DistinctKeys(Put(d, k, v))
  {
    if d != [] && d[0].0 != k {
      PutDistinct(d[1..], k, v);
      var r := Put(d, k, v);
      assert r == [d[0]] + Put(d[1..], k, v);
      assert d[0].0 !in KeySet(d[1..]);
      assert KeySet(Put(d[1..], k, v)) == KeySet(d[1..]) + {k};
      forall j | 0 < j < |r| ensures r[0].0 != r[j].0 {
        assert r[j].0 in KeySet(Put(d[1..], k, v));
      }
    }
  }

  /** The keys of a list of pairs, as a set. */
  function PairKeys<K, V>(ps: seq<(K, V)>): set<K> {
    set i | 0 <= i < |ps| :: ps[i].0
  }

  /** `{k: v for (k, v) in ps}`: later pairs overwrite earlier ones, and each key
      keeps the position of its first occurrence. */
  function FromPairs<K(==), V>(ps: seq<(K, V)>): (r: Dict<K, V>)
    ensures DistinctKeys(r)
    ensures KeySet(r) == PairKeys(ps)
  {
    if ps == [] then []
    else
      var init := ps[..|ps| - 1];
      assert PairKeys(ps) == PairKeys(init) + {ps[|ps| - 1].0} by {
        assert forall i :: 0 <= i < |init| ==> init[i] == ps[i];
      }
      PutDistinct(FromPairs(init), ps[|ps| - 1].0, ps[|ps| - 1].1);
      Put(FromPairs(init), ps[|ps| - 1].0, ps[|ps| - 1].1)
  }

  /** Assigning to a key that is already present keeps every key in its place. */
  lemma {:induction false} PutKeepsKeys<K, V>(d: Dict<K, V>, k: K, v: V)
    requires k in KeySet(d)
    ensures |Put(d, k, v)| == |d|
    ensures forall i :: 0 <= i < |d| ==> Put(d, k, v)[i].0 == d[i].0
  {
    if d[0].0 != k {
      assert KeySet(d) == {d[0].0} + KeySet(d[1..]) by {
        KeySetConcat([d[0]], d[1..]);
        KeySetSingle(d[0]);
        assert d == [d[0]] + d[1..];
      }
      PutKeepsKeys(d[1..], k, v);
    }
  }

  /** The position of the first pair with key `k`. */
  function FirstIndex<K(==), V>(ps: seq<(K, V)>, k: K): (i: nat)
    requires k in PairKeys(ps)
    ensures i < |ps| && ps[i].0 == k
    ensures forall j :: 0 <= j < i ==> ps[j].0 != k
  {
    if ps[0].0 == k then 0
    else
      assert k in PairKeys(ps[1..]) by {
        var i :| 0 <= i < |ps| && ps[i].0 == k;
        assert ps[1..][i - 1].0 == k;
      }
      1 + FirstIndex(ps[1..], k)
  }

  /** The keys of `d` appear in the order of their first pair in `ps`. */
  predicate InFirstOrder<K(==), V, W>(d: Dict<K, V>, ps: seq<(K, W)>) {
    forall a, b :: 0 <= a < b < |d| && d[a].0 in PairKeys(ps) && d[b].0 in PairKeys(ps) ==>
      FirstIndex(ps, d[a].0) < FirstIndex(ps, d[b].0)
  }

  /** A key already present before the last pair has its first pair there. */
  lemma FirstIndexInit<K, V>(ps: seq<(K, V)>, k: K)
    requires ps != [] && k in PairKeys(ps[..|ps| - 1])
    ensures k in PairKeys(ps) && FirstIndex(ps, k) == FirstIndex(ps[..|ps| - 1], k)
  {
    var init := ps[..|ps| - 1];
    var b := FirstIndex(init, k);
    assert ps[b] == init[b];
    var a := FirstIndex(ps, k);
    assert a <= b;
    assert init[a] == ps[a];
  }

  /** A key first seen in the last pair has its first pair there. */
  lemma FirstIndexLast<K, V>(ps: seq<(K, V)>)
    requires ps != [] && ps[|ps| - 1].0 !in PairKeys(ps[..|ps| - 1])
    ensures ps[|ps| - 1].0 in PairKeys(ps) && FirstIndex(ps, ps[|ps| - 1].0) == |ps| - 1
  {
    var init := ps[..|ps| - 1];
    var k := ps[|ps| - 1].0;
    assert forall j :: 0 <= j < |init| ==> init[j].0 != k;
    assert forall j :: 0 <= j < |init| ==> ps[j] == init[j];
  }

  /** A dict comprehension keeps each key at the position of its first pair. */
  lemma {:induction false} FromPairsFirstOrder<K, V>(ps: seq<(K, V)>)
    ensures InFirstOrder(FromPairs(ps), ps)
  {
    if ps != [] {
      var init := ps[..|ps| - 1];
      var last := ps[|ps| - 1];
      FromPairsFirstOrder(init);
      var r0 := FromPairs(init);
      var r := FromPairs(ps);
      assert r == Put(r0, last.0, last.1);
      if last.0 in KeySet(r0) {
        PutKeepsKeys(r0, last.0, last.1);
        forall a, b | 0 <= a < b < |r| && r[a].0 in PairKeys(ps) && r[b].0 in PairKeys(ps)
          ensures FirstIndex(ps, r[a].0) < FirstIndex(ps, r[b].0)
        {
          assert r[a].0 == r0[a].0 && r[b].0 == r0[b].0;
          assert r0[a].0 in KeySet(r0) && r0[b].0 in KeySet(r0);
          FirstIndexInit(ps, r[a].0);
          FirstIndexInit(ps, r[b].0);
        }
      } else {
        assert r == r0 + [(last.0, last.1)];
        FirstIndexLast(ps);
        forall a, b | 0 <= a < b < |r| && r[a].0 in PairKeys(ps) && r[b].0 in PairKeys(ps)
          ensures FirstIndex(ps, r[a].0) < FirstIndex(ps, r[b].0)
        {
          assert r[a].0 == r0[a].0 && r0[a].0 in KeySet(r0);
          FirstIndexInit(ps, r[a].0);
          if b < |r0| {
            assert r[b].0 == r0[b].0 && r0[b].0 in KeySet(r0);
            FirstIndexInit(ps, r[b].0);
          } else {
            assert r[b].0 == last.0;
          }
        }
      }
    }
  }

  /** Building a dictionary from the pairs of a dictionary gives it back unchanged. */
  lemma {:induction false} FromPairsOfDict<K, V>(d: Dict<K, V>)
    requires DistinctKeys(d)
    ensures FromPairs(d) == d
  {
    if d != [] {
      var init := d[..|d| - 1];
      assert DistinctKeys(init) by {
        forall i, j | 0 <= i < j < |init| ensures init[i].0 != init[j].0 {
          assert init[i] == d[i] && init[j] == d[j];
        }
      }
      FromPairsOfDict(init);
      var last := d[|d| - 1];
      assert last.0 !in KeySet(init) by {
        forall i | 0 <= i < |init| ensures init[i].0 != last.0 {
          assert init[i] == d[i];
        }
      }
      assert init + [last] == d;
      assert FromPairs(d) == Put(init, last.0, last.1);
    }
  }

  /** The value a key has in `FromPairs(ps)` is the one of its last pair. */
  lemma {:induction false} FromPairsLastWins<K, V>(ps: seq<(K, V)>, i: nat)
    requires i < |ps|
    requires forall j :: i < j < |ps| ==> ps[j].0 != ps[i].0
    ensures Get(FromPairs(ps), ps[i].0) == Some(ps[i].1)
  {
    var init := ps[..|ps| - 1];
    var last := ps[|ps| - 1];
    PutGet(FromPairs(init), last.0, last.1, ps[i].0);
    if i < |ps| - 1 {
      FromPairsLastWins(init, i);
    }
  }
}
