/**
 * Python's `dict` as the modelled code uses it: a sequence of (key, value) items in
 * insertion order with no key twice.  Assigning to an existing key keeps its position and
 * replaces its value; a new key goes last.  A dict literal `{k0: v0, k1: v1, ...}` is the
 * left-to-right fold of that assignment over its pairs, so a repeated key keeps the position
 * of its first occurrence and the value of its last one.
 */
module OrderedDicts {
  /** The set of keys of a sequence of pairs. */
  function Keys<K, V>(d: seq<(K, V)>): set<K> {
    set i | 0 <= i < |d| :: d[i].0
  }

  /** A well-formed dict: no key occurs twice. */
  predicate DistinctKeys<K(==), V>(d: seq<(K, V)>) {
    forall i, j | 0 <= i < j < |d| :: d[i].0 != d[j].0
  }

  /** The assignment `d[k] = v` on a dict `d`. */
  function Insert<K(==), V>(d: seq<(K, V)>, k: K, v: V): (r: seq<(K, V)>)
    requires DistinctKeys(d)
    ensures |r| == if k in Keys(d) then |d| else |d| + 1
    ensures forall i | 0 <= i < |d| :: r[i] == (if d[i].0 == k then (k, v) else d[i])
    ensures k !in Keys(d) ==> r[|d|] == (k, v)
    ensures DistinctKeys(r)
  {
    if |d| == 0 then
      assert Keys([(k, v)]) == {k} by { KeysCons([(k, v)]); }
      [(k, v)]
    else
      KeysCons(d);
      if d[0].0 == k then
        var r := [(k, v)] + d[1..];
        assert r[1..] == d[1..];
        KeysCons(r);
        DistinctCons((k, v), d[1..]);
        r
      else
        var rest := Insert(d[1..], k, v);
        var r := [d[0]] + rest;
        assert r[1..] == rest;
        KeysCons(r);
        DistinctCons(d[0], rest);
        r
  }

  /** A pair whose key is not among the keys of a dict can go in front of it. */
  lemma DistinctCons<K, V>(x: (K, V), d: seq<(K, V)>)
    requires DistinctKeys(d) && x.0 !in Keys(d)
    ensures DistinctKeys([x] + d)
  {
    var r := [x] + d;
    forall i, j | 0 <= i < j < |r| ensures r[i].0 != r[j].0 {
      assert r[j] == d[j - 1];
      if i > 0 { assert r[i] == d[i - 1]; }
    }
  }

  /** The keys of a non-empty sequence are its first key and the keys of the rest. */
  lemma KeysCons<K, V>(d: seq<(K, V)>)
    requires |d| > 0
    ensures Keys(d) == {d[0].0} + Keys(d[1..])
  {
    forall x | x in Keys(d) ensures x in {d[0].0} + Keys(d[1..]) {
      var i :| 0 <= i < |d| && d[i].0 == x;
      if i > 0 { assert d[1..][i - 1] == d[i]; }
    }
    forall x | x in Keys(d[1..]) ensures x in Keys(d) {
      var i :| 0 <= i < |d| - 1 && d[1..][i].0 == x;
      assert d[i + 1] == d[1..][i];
    }
  }

  /** The dict built by assigning the pairs left to right, as a dict literal does. */
  function FromPairs<K(==), V>(pairs: seq<(K, V)>): (d: seq<(K, V)>)
    ensures DistinctKeys(d)
  {
    if |pairs| == 0 then []
    else
      var last := pairs[|pairs| - 1];
      Insert(FromPairs(pairs[..|pairs| - 1]), last.0, last.1)
  }

  /** Index of the first pair whose key is `k`. */
  function FirstIndex<K(==), V>(pairs: seq<(K, V)>, k: K): (j: nat)
    requires k in Keys(pairs)
    ensures j < |pairs| && pairs[j].0 == k
    ensures forall i | 0 <= i < j :: pairs[i].0 != k
  {
    if pairs[0].0 == k then 0
    else
      KeysCons(pairs);
      1 + FirstIndex(pairs[1..], k)
  }

  /** Index of the last pair whose key is `k`. */
  function LastIndex<K(==), V>(pairs: seq<(K, V)>, k: K): (j: nat)
    requires k in Keys(pairs)
    ensures j < |pairs| && pairs[j].0 == k
    ensures forall i | j < i < |pairs| :: pairs[i].0 != k
  {
    var n := |pairs| - 1;
    if pairs[n].0 == k then n
    else
      KeysSnoc(pairs);
      LastIndex(pairs[..n], k)
  }

  /** The keys of a non-empty sequence are the keys of all but the last pair, plus the last key. */
  lemma KeysSnoc<K, V>(d: seq<(K, V)>)
    requires |d| > 0
    ensures Keys(d) == Keys(d[..|d| - 1]) + {d[|d| - 1].0}
  {
    var n := |d| - 1;
    forall x | x in Keys(d) ensures x in Keys(d[..n]) + {d[n].0} {
      var i :| 0 <= i < |d| && d[i].0 == x;
      if i < n { assert d[..n][i] == d[i]; }
    }
    forall x | x in Keys(d[..n]) ensures x in Keys(d) {
      var i :| 0 <= i < n && d[..n][i].0 == x;
      assert d[i] == d[..n][i];
    }
  }

  /** The keys of a dict literal are exactly the keys written in it. */
  lemma {:induction false} FromPairsKeys<K, V>(pairs: seq<(K, V)>)
    ensures Keys(FromPairs(pairs)) == Keys(pairs)
  {
    if |pairs| > 0 {
      FromPairsKeys(pairs[..|pairs| - 1]);
      KeysSnoc(pairs);
    }
  }

  /** Each key of a dict literal carries the value of its LAST occurrence in the literal. */
  lemma {:induction false} FromPairsValue<K, V>(pairs: seq<(K, V)>, m: nat)
    requires m < |FromPairs(pairs)|
    ensures FromPairs(pairs)[m].0 in Keys(pairs)
    ensures FromPairs(pairs)[m].1 == pairs[LastIndex(pairs, FromPairs(pairs)[m].0)].1
  {
    var n := |pairs| - 1;
    FromPairsSnoc(pairs);
    var prev := FromPairs(pairs[..n]);
    if m < |prev| && prev[m].0 != pairs[n].0 {
      FromPairsValue(pairs[..n], m);
      LastIndexPrefix(pairs, prev[m].0);
    } else {
      LastIndexUnique(pairs, pairs[n].0, n);
    }
  }

  /** A key other than the last one has the same last index with or without the last pair. */
  lemma LastIndexPrefix<K, V>(pairs: seq<(K, V)>, k: K)
    requires |pairs| > 0 && k in Keys(pairs[..|pairs| - 1]) && pairs[|pairs| - 1].0 != k
    ensures k in Keys(pairs)
    ensures LastIndex(pairs, k) == LastIndex(pairs[..|pairs| - 1], k)
  {
    var n := |pairs| - 1;
    KeysSnoc(pairs);
    var j := LastIndex(pairs[..n], k);
    assert pairs[j] == pairs[..n][j];
    forall i | j < i < |pairs| ensures pairs[i].0 != k {
      if i < n { assert pairs[i] == pairs[..n][i]; }
    }
    LastIndexUnique(pairs, k, j);
  }

  /** The last index of `k` is the only index of `k` with no `k` after it. */
  lemma LastIndexUnique<K, V>(pairs: seq<(K, V)>, k: K, j: nat)
    requires j < |pairs| && pairs[j].0 == k
    requires forall i | j < i < |pairs| :: pairs[i].0 != k
    ensures k in Keys(pairs) && LastIndex(pairs, k) == j
  {
    assert k in Keys(pairs);
  }

  /** The first index of `k` is the only index of `k` with no `k` before it. */
  lemma FirstIndexUnique<K, V>(pairs: seq<(K, V)>, k: K, j: nat)
    requires j < |pairs| && pairs[j].0 == k
    requires forall i | 0 <= i < j :: pairs[i].0 != k
    ensures k in Keys(pairs) && FirstIndex(pairs, k) == j
  {
    assert k in Keys(pairs);
  }

  /** The keys of a dict literal are ordered by their first occurrence in the literal. */
  lemma {:induction false} FromPairsOrder<K, V>(pairs: seq<(K, V)>, m: nat, m': nat)
    requires m < m' < |FromPairs(pairs)|
    ensures FromPairs(pairs)[m].0 in Keys(pairs) && FromPairs(pairs)[m'].0 in Keys(pairs)
    ensures FirstIndex(pairs, FromPairs(pairs)[m].0) < FirstIndex(pairs, FromPairs(pairs)[m'].0)
  {
    var n := |pairs| - 1;
    var a := FromPairs(pairs)[m].0;
    FromPairsOldKey(pairs, m);
    if m' < |FromPairs(pairs[..n])| {
      var b := FromPairs(pairs)[m'].0;
      FromPairsOldKey(pairs, m');
      FromPairsOrder(pairs[..n], m, m');
      FirstIndexPrefixOrder(pairs, a, b);
    } else {
      FromPairsNewKey(pairs, m');
      FirstIndexPrefix(pairs, a);
      NewKeyFirstIndex(pairs);
    }
  }

  /** An item of the dict built from all but the last pair keeps its key when the last pair is added. */
  lemma FromPairsOldKey<K, V>(pairs: seq<(K, V)>, i: nat)
    requires 0 < |pairs| && i < |FromPairs(pairs[..|pairs| - 1])|
    ensures i < |FromPairs(pairs)|
    ensures FromPairs(pairs)[i].0 == FromPairs(pairs[..|pairs| - 1])[i].0
    ensures FromPairs(pairs)[i].0 in Keys(pairs[..|pairs| - 1])
  {
    FromPairsSnoc(pairs);
    var n := |pairs| - 1;
    var prev := FromPairs(pairs[..n]);
    assert FromPairs(pairs)[i] == (if prev[i].0 == pairs[n].0 then pairs[n] else prev[i]);
  }

  /** An item past the dict built from all but the last pair is the last pair, with a new key. */
  lemma FromPairsNewKey<K, V>(pairs: seq<(K, V)>, i: nat)
    requires 0 < |pairs| && |FromPairs(pairs[..|pairs| - 1])| <= i < |FromPairs(pairs)|
    ensures FromPairs(pairs)[i] == pairs[|pairs| - 1]
    ensures pairs[|pairs| - 1].0 !in Keys(pairs[..|pairs| - 1])
  {
    FromPairsSnoc(pairs);
  }

  /** Building a dict literal one more pair: the items already there stay in place, the
   *  last pair's key gets the last pair's value, and a new key goes last. */
  lemma FromPairsSnoc<K, V>(pairs: seq<(K, V)>)
    requires |pairs| > 0
    ensures var n := |pairs| - 1;
      var prev := FromPairs(pairs[..n]);
      var d := FromPairs(pairs);
      && |prev| <= |d| <= |prev| + 1
      && (forall i | 0 <= i < |prev| :: d[i] == (if prev[i].0 == pairs[n].0 then pairs[n] else prev[i]))
      && (forall i | 0 <= i < |prev| :: prev[i].0 in Keys(pairs[..n]))
      && (|d| == |prev| + 1 ==> d[|prev|] == pairs[n] && pairs[n].0 !in Keys(pairs[..n]))
  {
    var n := |pairs| - 1;
    var prev := FromPairs(pairs[..n]);
    FromPairsKeys(pairs[..n]);
    forall i | 0 <= i < |prev| ensures prev[i].0 in Keys(pairs[..n]) {
      assert prev[i].0 in Keys(prev);
    }
  }

  /** A key seen for the first time in the last pair has its first index there. */
  lemma NewKeyFirstIndex<K, V>(pairs: seq<(K, V)>)
    requires |pairs| > 0 && pairs[|pairs| - 1].0 !in Keys(pairs[..|pairs| - 1])
    ensures pairs[|pairs| - 1].0 in Keys(pairs)
    ensures FirstIndex(pairs, pairs[|pairs| - 1].0) == |pairs| - 1
  {
    var n := |pairs| - 1;
    forall i | 0 <= i < n ensures pairs[i].0 != pairs[n].0 {
      assert pairs[i] == pairs[..n][i];
      assert pairs[..n][i].0 in Keys(pairs[..n]);
    }
    FirstIndexUnique(pairs, pairs[n].0, n);
  }

  /** Appending a pair keeps the first-occurrence order of the keys already present. */
  lemma FirstIndexPrefixOrder<K, V>(pairs: seq<(K, V)>, a: K, b: K)
    requires |pairs| > 0 && a in Keys(pairs[..|pairs| - 1]) && b in Keys(pairs[..|pairs| - 1])
    requires FirstIndex(pairs[..|pairs| - 1], a) < FirstIndex(pairs[..|pairs| - 1], b)
    ensures a in Keys(pairs) && b in Keys(pairs)
    ensures FirstIndex(pairs, a) < FirstIndex(pairs, b)
  {
    FirstIndexPrefix(pairs, a);
    FirstIndexPrefix(pairs, b);
  }

  /** A key already present before the last pair has the same first index with or without it. */
  lemma FirstIndexPrefix<K, V>(pairs: seq<(K, V)>, k: K)
    requires |pairs| > 0 && k in Keys(pairs[..|pairs| - 1])
    ensures k in Keys(pairs)
    ensures FirstIndex(pairs, k) == FirstIndex(pairs[..|pairs| - 1], k) < |pairs| - 1
  {
    var n := |pairs| - 1;
    KeysSnoc(pairs);
    var f := FirstIndex(pairs[..n], k);
    assert pairs[f] == pairs[..n][f];
    forall i | 0 <= i < f ensures pairs[i].0 != k {
      assert pairs[i] == pairs[..n][i];
    }
    FirstIndexUnique(pairs, k, f);
  }
}
