/**
 * A Python `dict` as the code uses one: assigning `d[k] = v` to a new key
 * appends it to the iteration order, assigning to an existing key keeps its
 * place and replaces the value, and `d.values()` follows the iteration order.
 */
module OrderedDict {
  import opened Basics
  import opened Sorting

  datatype Dict<K(==), V> = Dict(order: seq<K>, entries: map<K, V>)
  {
    /** The iteration order lists every key exactly once. */
    predicate Valid()
    {
      NoDup(order) && entries.Keys == Elements(order)
    }

    /** `d[k] = v`. */
    function Put(k: K, v: V): (d: Dict<K, V>)
      ensures d.entries == entries[k := v]
      ensures k in entries ==> d.order == order
      ensures k !in entries ==> d.order == order + [k]
    {
      Dict(if k in entries then order else order + [k], entries[k := v])
    }

    /** `list(d.values())`. */
    function Values(): (r: seq<V>)
      requires Valid()
      ensures |r| == |order| && forall i :: 0 <= i < |order| ==> r[i] == entries[order[i]]
    {
      seq(|order|, i requires 0 <= i < |order| && Valid() => entries[order[i]])
    }

    /** `d.get(k, default)`. */
    function Get(k: K, default: V): V
    {
      if k in entries then entries[k] else default
    }
  }

  function Empty<K(==), V>(): (d: Dict<K, V>)
    ensures d.Valid() && d.entries == map[]
  {
    Dict([], map[])
  }

  lemma PutValid<K, V>(d: Dict<K, V>, k: K, v: V)
    requires d.Valid()
    ensures d.Put(k, v).Valid()
  {
    var e := d.Put(k, v);
    if k !in d.entries {
      forall i, j | 0 <= i < j < |e.order| ensures e.order[i] != e.order[j] {
        if j == |d.order| {
          assert e.order[i] == d.order[i];
          assert d.order[i] in d.entries;
        }
      }
    }
  }

  /** A duplicate-free sequence has as many elements as its length. */
  lemma {:induction false} NoDupCardinality<T>(s: seq<T>)
    requires NoDup(s)
    ensures |Elements(s)| == |s|
  {
    if |s| > 0 {
      var t := s[..|s| - 1];
      assert NoDup(t);
      NoDupCardinality(t);
      assert Elements(s) == Elements(t) + {s[|s| - 1]};
      assert s[|s| - 1] !in Elements(t);
    }
  }

  /** A valid dictionary has as many values as keys. */
  lemma ValuesCount<K, V>(d: Dict<K, V>)
    requires d.Valid()
    ensures |d.Values()| == |d.entries.Keys|
  {
    NoDupCardinality(d.order);
  }

  /**
   * The dictionary built by `for x in s: d[key(x)] = value(x)` over the
   * items `entry` selects (`None` means the loop `continue`s).
   */
  function Collect<T, K(==), V>(entry: T -> Option<(K, V)>, s: seq<T>): (d: Dict<K, V>)
    ensures d.Valid()
  {
    if |s| == 0 then Empty()
    else
      var d := Collect(entry, s[..|s| - 1]);
      match entry(s[|s| - 1])
      case None => d
      case Some(kv) => PutValid(d, kv.0, kv.1); d.Put(kv.0, kv.1)
  }

  /** One more loop iteration. */
  lemma CollectSnoc<T, K, V>(entry: T -> Option<(K, V)>, s: seq<T>, x: T)
    ensures Collect(entry, s + [x]) ==
            match entry(x)
            case None => Collect(entry, s)
            case Some(kv) => Collect(entry, s).Put(kv.0, kv.1)
  {
    assert (s + [x])[..|s|] == s;
  }

  /** The keys `entry` yields over `s`. */
  function KeysOf<T, K(==), V>(entry: T -> Option<(K, V)>, s: seq<T>): set<K>
  {
    if |s| == 0 then {}
    else
      var ks := KeysOf(entry, s[..|s| - 1]);
      match entry(s[|s| - 1])
      case None => ks
      case Some(kv) => ks + {kv.0}
  }

  /** The value of the last item of `s` with key `k`. */
  function Latest<T, K(==), V>(entry: T -> Option<(K, V)>, s: seq<T>, k: K): Option<V>
  {
    if |s| == 0 then None
    else
      var e := entry(s[|s| - 1]);
      if e.Some? && e.value.0 == k then Some(e.value.1) else Latest(entry, s[..|s| - 1], k)
  }

  /** Item `i` yields key `k`. */
  predicate YieldsKey<T, K(==), V>(entry: T -> Option<(K, V)>, s: seq<T>, i: int, k: K)
    requires 0 <= i < |s|
  {
    entry(s[i]).Some? && entry(s[i]).value.0 == k
  }

  lemma {:induction false} KeysOfCharacterized<T, K, V>(entry: T -> Option<(K, V)>, s: seq<T>, k: K)
    ensures k in KeysOf(entry, s) <==> exists i :: 0 <= i < |s| && YieldsKey(entry, s, i, k)
  {
    if |s| > 0 {
      var n := |s| - 1;
      var t := s[..n];
      KeysOfCharacterized(entry, t, k);
      if YieldsKey(entry, s, n, k) {
        assert k in KeysOf(entry, s);
      } else {
        assert k in KeysOf(entry, s) <==> k in KeysOf(entry, t);
        assert (exists i :: 0 <= i < |s| && YieldsKey(entry, s, i, k))
           <==> (exists i :: 0 <= i < |t| && YieldsKey(entry, t, i, k)) by {
          forall i | 0 <= i < |t| ensures YieldsKey(entry, s, i, k) == YieldsKey(entry, t, i, k) {
            assert s[i] == t[i];
          }
        }
      }
    }
  }

  /** The collected keys are exactly the keys the items yield. */
  lemma {:induction false} CollectKeys<T, K, V>(entry: T -> Option<(K, V)>, s: seq<T>)
    ensures Collect(entry, s).entries.Keys == KeysOf(entry, s)
  {
    if |s| > 0 {
      CollectKeys(entry, s[..|s| - 1]);
    }
  }

  /** Each collected value is the one of the last item with its key. */
  lemma {:induction false} CollectLatest<T, K, V>(entry: T -> Option<(K, V)>, s: seq<T>, k: K)
    ensures k in Collect(entry, s).entries <==> Latest(entry, s, k).Some?
    ensures k in Collect(entry, s).entries ==> Latest(entry, s, k) == Some(Collect(entry, s).entries[k])
  {
    if |s| > 0 {
      CollectLatest(entry, s[..|s| - 1], k);
    }
  }

  /**
   * `Latest` is the last occurrence: item `i` yields `(k, v)` and no later
   * item yields key `k`.
   */
  lemma {:induction false} LatestIsLastOccurrence<T, K, V>(entry: T -> Option<(K, V)>, s: seq<T>, k: K, v: V)
    requires Latest(entry, s, k) == Some(v)
    ensures exists i :: 0 <= i < |s| && entry(s[i]) == Some((k, v))
              && forall j :: i < j < |s| ==> !YieldsKey(entry, s, j, k)
  {
    var n := |s| - 1;
    var e := entry(s[n]);
    if e.Some? && e.value.0 == k {
      assert entry(s[n]) == Some((k, v));
    } else {
      var t := s[..n];
      LatestIsLastOccurrence(entry, t, k, v);
      var i :| 0 <= i < |t| && entry(t[i]) == Some((k, v))
               && forall j :: i < j < |t| ==> !YieldsKey(entry, t, j, k);
      assert entry(s[i]) == Some((k, v));
      forall j | i < j < |s| ensures !YieldsKey(entry, s, j, k) {
        if j < n {
          assert !YieldsKey(entry, t, j, k);
        }
      }
    }
  }

  /** Every value `entry` yields can be told its key back by `keyOf`. */
  ghost predicate KeyedBy<T(!new), K, V>(entry: T -> Option<(K, V)>, keyOf: V -> K)
  {
    forall x :: entry(x).Some? ==> keyOf(entry(x).value.1) == entry(x).value.0
  }

  /** Every collected value sits under its own key. */
  lemma CollectedUnderKey<T(!new), K, V>(entry: T -> Option<(K, V)>, keyOf: V -> K, s: seq<T>, k: K)
    requires KeyedBy(entry, keyOf) && k in Collect(entry, s).entries
    ensures keyOf(Collect(entry, s).entries[k]) == k
  {
    var v := Collect(entry, s).entries[k];
    CollectLatest(entry, s, k);
    LatestIsLastOccurrence(entry, s, k, v);
  }

  /**
   * The keys of `d.values()` are the dictionary's key order, so no two
   * values share a key.
   */
  lemma ValuesInKeyOrder<T(!new), K, V>(entry: T -> Option<(K, V)>, keyOf: V -> K, s: seq<T>)
    requires KeyedBy(entry, keyOf)
    ensures MapSeq(keyOf, Collect(entry, s).Values()) == Collect(entry, s).order
    ensures NoDup(MapSeq(keyOf, Collect(entry, s).Values()))
  {
    var d := Collect(entry, s);
    forall i | 0 <= i < |d.order| ensures keyOf(d.Values()[i]) == d.order[i] {
      CollectedUnderKey(entry, keyOf, s, d.order[i]);
    }
  }

  /**
   * Last write wins: each value of `d.values()` is the one of the last item
   * with its key.
   */
  lemma ValueIsLastWrite<T(!new), K, V>(entry: T -> Option<(K, V)>, keyOf: V -> K, s: seq<T>, m: nat)
    requires KeyedBy(entry, keyOf) && m < |Collect(entry, s).Values()|
    ensures var v := Collect(entry, s).Values()[m];
            exists i :: 0 <= i < |s| && entry(s[i]) == Some((keyOf(v), v))
              && forall j :: i < j < |s| ==> !YieldsKey(entry, s, j, keyOf(v))
  {
    var d := Collect(entry, s);
    var v := d.Values()[m];
    var k := d.order[m];
    CollectedUnderKey(entry, keyOf, s, k);
    CollectLatest(entry, s, k);
    LatestIsLastOccurrence(entry, s, k, v);
  }

  /** A key is among the values' keys exactly when some item yields it. */
  lemma ValuesKeysIff<T(!new), K, V>(entry: T -> Option<(K, V)>, keyOf: V -> K, s: seq<T>, k: K)
    requires KeyedBy(entry, keyOf)
    ensures k in Elements(MapSeq(keyOf, Collect(entry, s).Values())) <==>
            exists i :: 0 <= i < |s| && YieldsKey(entry, s, i, k)
  {
    ValuesInKeyOrder(entry, keyOf, s);
    CollectKeys(entry, s);
    KeysOfCharacterized(entry, s, k);
  }

  /** A key only enters the dictionary once. */
  lemma {:induction false} KeysOfBound<T, K, V>(entry: T -> Option<(K, V)>, s: seq<T>)
    ensures |KeysOf(entry, s)| <= |s|
  {
    if |s| > 0 {
      KeysOfBound(entry, s[..|s| - 1]);
    }
  }

  /** Three distinct keys, written once each, enter in that order. */
  lemma CollectThree<T, K, V>(entry: T -> Option<(K, V)>, e0: T, e1: T, e2: T,
                              k0: K, k1: K, k2: K, v0: V, v1: V, v2: V)
    requires k0 != k1 && k1 != k2 && k0 != k2
    requires entry(e0) == Some((k0, v0)) && entry(e1) == Some((k1, v1)) && entry(e2) == Some((k2, v2))
    ensures Collect(entry, [e0, e1, e2]) == Dict([k0, k1, k2], map[k0 := v0, k1 := v1, k2 := v2])
  {
    var s1, s2, s3 := [e0], [e0, e1], [e0, e1, e2];
    assert s1 == [] + [e0] && s2 == s1 + [e1] && s3 == s2 + [e2];
    CollectSnoc(entry, [], e0);
    assert Collect(entry, s1) == Dict([k0], map[k0 := v0]);
    CollectSnoc(entry, s1, e1);
    assert Collect(entry, s2) == Dict([k0, k1], map[k0 := v0, k1 := v1]);
    CollectSnoc(entry, s2, e2);
  }

  /**
   * Three keys, the second written twice: the dictionary keeps the first
   * order of the keys and the last value of the repeated one.
   */
  lemma CollectRepeatedKey<T, K, V>(entry: T -> Option<(K, V)>, e0: T, e1: T, e2: T, e3: T,
                                    k0: K, k1: K, k2: K, v0: V, v1: V, v2: V, v3: V)
    requires k0 != k1 && k1 != k2 && k0 != k2
    requires entry(e0) == Some((k0, v0)) && entry(e1) == Some((k1, v1))
    requires entry(e2) == Some((k2, v2)) && entry(e3) == Some((k1, v3))
    ensures Collect(entry, [e0, e1, e2, e3]).Values() == [v0, v3, v2]
  {
    CollectThree(entry, e0, e1, e2, k0, k1, k2, v0, v1, v2);
    assert [e0, e1, e2, e3] == [e0, e1, e2] + [e3];
    CollectSnoc(entry, [e0, e1, e2], e3);
    var d := Collect(entry, [e0, e1, e2, e3]);
    assert d == Dict([k0, k1, k2], map[k0 := v0, k1 := v3, k2 := v2]);
    var v := d.Values();
    assert v[0] == v0 && v[1] == v3 && v[2] == v2;
  }
}
