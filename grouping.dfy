/** The dictionary accumulation every aggregation of the dashboard and the
    charts performs: walk the transactions once, and for each one add its
    amount to the entry of its key, creating the entry on first sight
    (`d[k] += amount` on a `defaultdict`, or the explicit `if k in d`).

    The result is a Python dict: its keys in insertion order and a map
    from key to summed amount.  It is specified against `SumWhere`, the
    flat sum of the amounts carrying one key. */
module Grouping {

  datatype Tally<K> = Tally(keys: seq<K>, sums: map<K, int>)

  function Total<K(==,!new)>(pairs: seq<(K, int)>): int {
    if pairs == [] then 0 else Total(pairs[..|pairs| - 1]) + pairs[|pairs| - 1].1
  }

  /** The flat sum of the amounts whose key is `k`. */
  function SumWhere<K(==,!new)>(pairs: seq<(K, int)>, k: K): int {
    if pairs == [] then 0
    else SumWhere(pairs[..|pairs| - 1], k) + (if pairs[|pairs| - 1].0 == k then pairs[|pairs| - 1].1 else 0)
  }

  predicate Distinct<K(==,!new)>(s: seq<K>) {
    forall i, j :: 0 <= i < j < |s| ==> s[i] != s[j]
  }

  predicate HasKey<K(==,!new)>(pairs: seq<(K, int)>, k: K) {
    exists i :: 0 <= i < |pairs| && pairs[i].0 == k
  }

  /** The keys of `pairs`, each once, in order of first occurrence. */
  function FirstSeen<K(==,!new)>(pairs: seq<(K, int)>): (r: seq<K>)
    ensures Distinct(r)
    ensures forall k :: k in r <==> HasKey(pairs, k)
  {
    if pairs == [] then []
    else
      var init := pairs[..|pairs| - 1];
      var d := FirstSeen(init);
      var k := pairs[|pairs| - 1].0;
      assert forall j :: HasKey(pairs, j) <==> HasKey(init, j) || j == k by {
        forall j | HasKey(pairs, j) ensures HasKey(init, j) || j == k {
          var i :| 0 <= i < |pairs| && pairs[i].0 == j;
          if i < |pairs| - 1 { assert init[i] == pairs[i]; }
        }
        forall j | HasKey(init, j) ensures HasKey(pairs, j) {
          var i :| 0 <= i < |init| && init[i].0 == j;
          assert pairs[i] == init[i];
        }
      }
      if k in d then d else d + [k]
  }

  function SeqSum(s: seq<int>): int {
    if s == [] then 0 else SeqSum(s[..|s| - 1]) + s[|s| - 1]
  }

  /** The dict's values listed in the order of `keys` (`[d[k] for k in keys]`). */
  function ValuesAt<K(==,!new)>(keys: seq<K>, sums: map<K, int>): (r: seq<int>)
    requires forall k :: k in keys ==> k in sums
    ensures |r| == |keys| && forall i :: 0 <= i < |keys| ==> r[i] == sums[keys[i]]
  {
    seq(|keys|, i requires 0 <= i < |keys| => sums[keys[i]])
  }

  /** The flat sum of each key of `keys`, in that order. */
  function PerKey<K(==,!new)>(keys: seq<K>, pairs: seq<(K, int)>): (r: seq<int>)
    ensures |r| == |keys| && forall i :: 0 <= i < |keys| ==> r[i] == SumWhere(pairs, keys[i])
  {
    seq(|keys|, i requires 0 <= i < |keys| => SumWhere(pairs, keys[i]))
  }

  /** `t` is what the accumulation loop leaves after walking `pairs`. */
  ghost predicate Tallies<K(!new)>(t: Tally<K>, pairs: seq<(K, int)>) {
    && t.keys == FirstSeen(pairs)
    && (forall k :: k in t.sums <==> k in t.keys)
    && (forall k :: k in t.sums ==> t.sums[k] == SumWhere(pairs, k))
  }

  /** The accumulation loop. */
  method Accumulate<K(==,!new)>(pairs: seq<(K, int)>) returns (t: Tally<K>)
    ensures t.keys == FirstSeen(pairs)
    ensures forall k :: k in t.sums <==> HasKey(pairs, k)
    ensures forall k :: k in t.sums ==> t.sums[k] == SumWhere(pairs, k)
  {
    t := Tally([], map[]);
    for i := 0 to |pairs|
      invariant t.keys == FirstSeen(pairs[..i])
      invariant forall k :: k in t.sums <==> k in t.keys
      invariant forall k :: k in t.sums ==> t.sums[k] == SumWhere(pairs[..i], k)
    {
      var k, amount := pairs[i].0, pairs[i].1;
      assert pairs[..i + 1][..i] == pairs[..i];
      assert forall j :: SumWhere(pairs[..i + 1], j) == SumWhere(pairs[..i], j) + (if j == k then amount else 0);
      if k in t.sums {
        t := t.(sums := t.sums[k := t.sums[k] + amount]);
      } else {
        UnseenKeySumsZero(pairs[..i], k);
        t := Tally(t.keys + [k], t.sums[k := amount]);
      }
    }
    assert pairs[..|pairs|] == pairs;
  }

  /** A key occurs in two lists run together when it occurs in either. */
  lemma HasKeyConcat<K(!new)>(a: seq<(K, int)>, b: seq<(K, int)>)
    ensures forall k :: HasKey(a + b, k) <==> HasKey(a, k) || HasKey(b, k)
  {
    forall k ensures HasKey(a + b, k) <==> HasKey(a, k) || HasKey(b, k) {
      if HasKey(a, k) {
        var i :| 0 <= i < |a| && a[i].0 == k;
        assert (a + b)[i] == a[i];
      }
      if HasKey(b, k) {
        var i :| 0 <= i < |b| && b[i].0 == k;
        assert (a + b)[|a| + i] == b[i];
      }
      if HasKey(a + b, k) {
        var i :| 0 <= i < |a + b| && (a + b)[i].0 == k;
        if i < |a| { assert a[i].0 == k; } else { assert b[i - |a|].0 == k; }
      }
    }
  }

  // ----- bucket sums equal the flat total -----

  /** The flat sums of the keys of `keys`, added up. */
  ghost function KeySum<K(!new)>(keys: seq<K>, pairs: seq<(K, int)>): int {
    if keys == [] then 0 else KeySum(keys[..|keys| - 1], pairs) + SumWhere(pairs, keys[|keys| - 1])
  }

  lemma {:induction false} KeySumIsSeqSum<K(!new)>(keys: seq<K>, pairs: seq<(K, int)>)
    ensures SeqSum(PerKey(keys, pairs)) == KeySum(keys, pairs)
    decreases |keys|
  {
    if keys != [] {
      assert PerKey(keys, pairs)[..|keys| - 1] == PerKey(keys[..|keys| - 1], pairs);
      KeySumIsSeqSum(keys[..|keys| - 1], pairs);
    }
  }

  lemma {:induction false} KeySumAppend<K(!new)>(a: seq<K>, b: seq<K>, pairs: seq<(K, int)>)
    ensures KeySum(a + b, pairs) == KeySum(a, pairs) + KeySum(b, pairs)
    decreases |b|
  {
    if b == [] {
      assert a + b == a;
    } else {
      assert (a + b)[..|a + b| - 1] == a + b[..|b| - 1];
      KeySumAppend(a, b[..|b| - 1], pairs);
    }
  }

  /** A key the walk never met has nothing summed under it. */
  lemma {:induction false} UnseenKeySumsZero<K(!new)>(pairs: seq<(K, int)>, k: K)
    requires !HasKey(pairs, k)
    ensures SumWhere(pairs, k) == 0
  {
    if pairs != [] {
      var init := pairs[..|pairs| - 1];
      assert forall i :: 0 <= i < |init| ==> init[i] == pairs[i];
      assert pairs[|pairs| - 1].0 != k;
      UnseenKeySumsZero(init, k);
    }
  }

  /** A key absent from the transactions reads 0 in the per-key sums. */
  lemma PerKeyUnseen<K(!new)>(keys: seq<K>, pairs: seq<(K, int)>)
    ensures forall i :: 0 <= i < |keys| && !HasKey(pairs, keys[i]) ==> PerKey(keys, pairs)[i] == 0
  {
    forall i | 0 <= i < |keys| && !HasKey(pairs, keys[i]) ensures PerKey(keys, pairs)[i] == 0 {
      UnseenKeySumsZero(pairs, keys[i]);
    }
  }

  /** Adding one more transaction adds its amount to the sum over any
      list of distinct keys that holds its key, and nothing otherwise. */
  lemma {:induction false} KeySumExtend<K(!new)>(keys: seq<K>, pairs: seq<(K, int)>, k: K, amount: int)
    requires Distinct(keys)
    ensures KeySum(keys, pairs + [(k, amount)]) == KeySum(keys, pairs) + (if k in keys then amount else 0)
    decreases |keys|
  {
    if keys != [] {
      var init, last := keys[..|keys| - 1], keys[|keys| - 1];
      var ext := pairs + [(k, amount)];
      assert ext[..|ext| - 1] == pairs;
      assert SumWhere(ext, last) == SumWhere(pairs, last) + (if k == last then amount else 0);
      KeySumExtend(init, pairs, k, amount);
      assert keys == init + [last];
      assert k in keys <==> k in init || k == last;
      assert last !in init;
    }
  }

  lemma {:induction false} KeySumOfNothing<K(!new)>(keys: seq<K>)
    ensures KeySum(keys, []) == 0
    decreases |keys|
  {
    if keys != [] {
      KeySumOfNothing(keys[..|keys| - 1]);
    }
  }

  /** Summing the buckets of a list of distinct keys that covers every key
      present gives the flat total; keys nobody used add 0. */
  lemma {:induction false} CoveringKeysTotal<K(!new)>(keys: seq<K>, pairs: seq<(K, int)>)
    requires Distinct(keys)
    requires forall i :: 0 <= i < |pairs| ==> pairs[i].0 in keys
    ensures KeySum(keys, pairs) == Total(pairs)
    decreases |pairs|
  {
    if pairs == [] {
      KeySumOfNothing(keys);
    } else {
      var init := pairs[..|pairs| - 1];
      var k, amount := pairs[|pairs| - 1].0, pairs[|pairs| - 1].1;
      assert pairs == init + [(k, amount)];
      assert forall i :: 0 <= i < |init| ==> init[i] == pairs[i];
      CoveringKeysTotal(keys, init);
      KeySumExtend(keys, init, k, amount);
    }
  }

  /** The listed bucket sums add up to the flat total, whatever order the
      buckets are listed in, as long as each key present is listed once. */
  lemma BucketsTotal<K(!new)>(keys: seq<K>, pairs: seq<(K, int)>)
    requires Distinct(keys)
    requires forall i :: 0 <= i < |pairs| ==> pairs[i].0 in keys
    ensures SeqSum(PerKey(keys, pairs)) == Total(pairs)
  {
    KeySumIsSeqSum(keys, pairs);
    CoveringKeysTotal(keys, pairs);
  }

  /** In particular, the dict the loop builds sums to the flat total. */
  lemma TallyTotal<K(!new)>(pairs: seq<(K, int)>)
    ensures SeqSum(PerKey(FirstSeen(pairs), pairs)) == Total(pairs)
  {
    assert forall i :: 0 <= i < |pairs| ==> HasKey(pairs, pairs[i].0);
    BucketsTotal(FirstSeen(pairs), pairs);
  }
}
