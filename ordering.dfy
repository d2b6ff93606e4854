/** The orderings the aggregations apply: Python's `sorted()` on bucket
    keys, the `[-7:]` and `[:5]` slices, and the stable newest-first sort
    used both by the store's `order_by(date.desc())` and by
    `all_recent.sort(key=date, reverse=True)`. */
module Ordering {
  import opened Grouping

  predicate Sorted(s: seq<int>) {
    forall i, j :: 0 <= i < j < |s| ==> s[i] <= s[j]
  }

  predicate StrictlyAscending(s: seq<int>) {
    forall i, j :: 0 <= i < j < |s| ==> s[i] < s[j]
  }

  function InsertAsc(x: int, s: seq<int>): (r: seq<int>)
    requires Sorted(s)
    ensures multiset(r) == multiset(s) + multiset{x}
    ensures Sorted(r)
  {
    if s == [] then [x]
    else if x <= s[0] then [x] + s
    else
      var rest := InsertAsc(x, s[1..]);
      assert s == [s[0]] + s[1..];
      LowerBoundKept(s[0], x, s[1..], rest);
      [s[0]] + rest
  }

  lemma {:induction false} InsertAscStrict(x: int, s: seq<int>)
    requires Sorted(s) && StrictlyAscending(s) && x !in s
    ensures StrictlyAscending(InsertAsc(x, s))
  {
    if s != [] && x > s[0] {
      var tail := s[1..];
      InsertAscStrict(x, tail);
      var rest := InsertAsc(x, tail);
      LowerBoundKept(s[0] + 1, x, tail, rest);
      assert InsertAsc(x, s) == [s[0]] + rest;
    }
  }

  /** A bound that holds for every element of `s` and for `x` holds for
      every element of a rearrangement of `s` with `x` added. */
  lemma LowerBoundKept(lo: int, x: int, s: seq<int>, r: seq<int>)
    requires forall i :: 0 <= i < |s| ==> lo <= s[i]
    requires lo <= x && multiset(r) == multiset(s) + multiset{x}
    ensures forall i :: 0 <= i < |r| ==> lo <= r[i]
  {
    forall i | 0 <= i < |r| ensures lo <= r[i] {
      assert r[i] in multiset(r);
      if r[i] != x {
        assert r[i] in multiset(s);
      }
    }
  }

  /** `sorted(keys)`. */
  function SortAsc(s: seq<int>): (r: seq<int>)
    ensures Sorted(r)
    ensures multiset(r) == multiset(s)
  {
    if s == [] then []
    else
      assert s == s[..|s| - 1] + [s[|s| - 1]];
      InsertAsc(s[|s| - 1], SortAsc(s[..|s| - 1]))
  }

  /** Keys that are all different come out of `sorted()` strictly ascending. */
  lemma {:induction false} SortDistinct(s: seq<int>)
    requires Distinct(s)
    ensures StrictlyAscending(SortAsc(s))
  {
    if s != [] {
      var init, x := s[..|s| - 1], s[|s| - 1];
      SortDistinct(init);
      assert x !in multiset(init);
      assert x !in SortAsc(init) by {
        assert multiset(SortAsc(init)) == multiset(init);
      }
      InsertAscStrict(x, SortAsc(init));
    }
  }

  /** Sorting keeps the keys: the same elements, now strictly ascending
      when they were all different. */
  lemma SortedKeys(s: seq<int>)
    requires Distinct(s)
    ensures StrictlyAscending(SortAsc(s))
    ensures forall k :: k in SortAsc(s) <==> k in s
  {
    SortDistinct(s);
    assert multiset(SortAsc(s)) == multiset(s);
    forall k ensures k in SortAsc(s) <==> k in s {
      assert k in SortAsc(s) <==> k in multiset(SortAsc(s));
      assert k in s <==> k in multiset(s);
    }
  }

  /** The sorted keys of a list of pairs: each key present exactly once,
      ascending. */
  lemma SortedFirstSeen(pairs: seq<(int, int)>)
    ensures StrictlyAscending(SortAsc(FirstSeen(pairs)))
    ensures Distinct(SortAsc(FirstSeen(pairs)))
    ensures forall k :: k in SortAsc(FirstSeen(pairs)) <==> HasKey(pairs, k)
    ensures forall i :: 0 <= i < |pairs| ==> pairs[i].0 in SortAsc(FirstSeen(pairs))
  {
    var keys := SortAsc(FirstSeen(pairs));
    SortedKeys(FirstSeen(pairs));
    forall i | 0 <= i < |pairs| ensures pairs[i].0 in keys {
      assert HasKey(pairs, pairs[i].0);
    }
  }

  /** `s[-n:]` for n > 0 (Python's `s[-0:]` is the whole list). */
  function LastN<T>(s: seq<T>, n: nat): (r: seq<T>)
    requires n > 0
    ensures |r| == if |s| < n then |s| else n
    ensures r == s[|s| - |r|..]
  {
    if |s| <= n then s else s[|s| - n..]
  }

  /** `s[:n]`. */
  function Take<T>(s: seq<T>, n: nat): (r: seq<T>)
    ensures |r| == if |s| < n then |s| else n
    ensures r == s[..|r|]
  {
    if |s| <= n then s else s[..n]
  }

  /** What `[-n:]` keeps of an ascending list are its greatest elements:
      every element dropped is below every element kept. */
  lemma {:induction false} LastNKeepsGreatest(s: seq<int>, n: nat)
    requires n > 0 && StrictlyAscending(s)
    ensures StrictlyAscending(LastN(s, n))
    ensures forall i, j :: 0 <= i < |s| - |LastN(s, n)| <= j < |s| ==> s[i] < s[j]
    ensures forall x :: x in s && x !in LastN(s, n) ==> |LastN(s, n)| == n && forall y :: y in LastN(s, n) ==> x < y
    ensures forall y :: y in LastN(s, n) ==> y in s
  {
    var r := LastN(s, n);
    var cut := |s| - |r|;
    assert forall j :: 0 <= j < |r| ==> r[j] == s[cut + j];
    forall j | cut <= j < |s| ensures s[j] in r {
      assert r[j - cut] == s[j];
    }
    forall x | x in s && x !in r ensures |r| == n && forall y :: y in r ==> x < y {
      var i :| 0 <= i < |s| && s[i] == x;
      forall y | y in r ensures x < y {
        var j :| 0 <= j < |r| && r[j] == y;
        assert s[cut + j] == y;
      }
    }
    forall y | y in r ensures y in s {
      var j :| 0 <= j < |r| && r[j] == y;
      assert s[cut + j] == y;
    }
  }

  /** Cutting the bucket list and cutting the list of bucket sums agree. */
  lemma PerKeyLastN<K(!new)>(keys: seq<K>, pairs: seq<(K, int)>, n: nat)
    requires n > 0
    ensures LastN(PerKey(keys, pairs), n) == PerKey(LastN(keys, n), pairs)
  {
    var cut := |keys| - |LastN(keys, n)|;
    assert forall i :: 0 <= i < |LastN(keys, n)| ==> LastN(keys, n)[i] == keys[cut + i];
  }

  // ----- newest first, stable -----

  /** Newest first: keys never increase along the list. */
  predicate NewestFirst<T>(s: seq<T>, key: T -> int) {
    forall i, j :: 0 <= i < j < |s| ==> key(s[j]) <= key(s[i])
  }

  lemma UpperBoundKept<T>(hi: int, x: T, s: seq<T>, r: seq<T>, key: T -> int)
    requires forall i :: 0 <= i < |s| ==> key(s[i]) <= hi
    requires key(x) <= hi && multiset(r) == multiset(s) + multiset{x}
    ensures forall i :: 0 <= i < |r| ==> key(r[i]) <= hi
  {
    forall i | 0 <= i < |r| ensures key(r[i]) <= hi {
      assert r[i] in multiset(r);
      if r[i] != x {
        assert r[i] in multiset(s);
      }
    }
  }

  /** Place `x` after every element whose key is at least its own, so that
      among equal keys the earlier element stays first. */
  function InsertNewest<T(==)>(x: T, s: seq<T>, key: T -> int): (r: seq<T>)
    requires NewestFirst(s, key)
    ensures multiset(r) == multiset(s) + multiset{x}
    ensures NewestFirst(r, key)
  {
    if s == [] then [x]
    else if key(s[0]) < key(x) then [x] + s
    else
      var rest := InsertNewest(x, s[1..], key);
      assert s == [s[0]] + s[1..];
      UpperBoundKept(key(s[0]), x, s[1..], rest, key);
      [s[0]] + rest
  }

  /** A stable sort by descending key (Python's `sort(key=..., reverse=True)`
      keeps equal keys in their original order). */
  function SortNewestFirst<T(==)>(s: seq<T>, key: T -> int): (r: seq<T>)
    ensures NewestFirst(r, key)
    ensures multiset(r) == multiset(s)
  {
    if s == [] then []
    else
      assert s == s[..|s| - 1] + [s[|s| - 1]];
      InsertNewest(s[|s| - 1], SortNewestFirst(s[..|s| - 1], key), key)
  }

  // ----- stability -----

  /** The elements of `s` whose key is `v`, in their order in `s`. */
  function WithKey<T>(s: seq<T>, key: T -> int, v: int): seq<T> {
    if s == [] then []
    else (if key(s[0]) == v then [s[0]] else []) + WithKey(s[1..], key, v)
  }

  lemma {:induction false} WithKeyConcat<T>(a: seq<T>, b: seq<T>, key: T -> int, v: int)
    ensures WithKey(a + b, key, v) == WithKey(a, key, v) + WithKey(b, key, v)
  {
    if a == [] {
      assert a + b == b;
    } else {
      var head := if key(a[0]) == v then [a[0]] else [];
      assert (a + b)[0] == a[0] && (a + b)[1..] == a[1..] + b;
      assert WithKey(a + b, key, v) == head + WithKey(a[1..] + b, key, v);
      assert WithKey(a, key, v) == head + WithKey(a[1..], key, v);
      WithKeyConcat(a[1..], b, key, v);
    }
  }

  /** No element of a list with every key below `v` has key `v`. */
  lemma {:induction false} WithKeyBelow<T>(s: seq<T>, key: T -> int, v: int)
    requires forall i :: 0 <= i < |s| ==> key(s[i]) < v
    ensures WithKey(s, key, v) == []
  {
    if s != [] {
      WithKeyBelow(s[1..], key, v);
    }
  }

  lemma WithKeyOne<T>(x: T, key: T -> int, v: int)
    ensures WithKey([x], key, v) == if key(x) == v then [x] else []
  {
    assert [x][1..] == [];
  }

  /** `x` newer than everything in `s` goes in front; when it has key `v`
      nothing in `s` has, so it is still the last of its key. */
  lemma InsertFrontStable<T>(x: T, s: seq<T>, key: T -> int, v: int)
    requires s != [] && NewestFirst(s, key) && key(s[0]) < key(x)
    ensures WithKey([x] + s, key, v) == WithKey(s, key, v) + WithKey([x], key, v)
  {
    WithKeyConcat([x], s, key, v);
    WithKeyOne(x, key, v);
    if key(x) == v {
      forall i | 0 <= i < |s| ensures key(s[i]) < v {
        if i > 0 { assert key(s[i]) <= key(s[0]); }
      }
      WithKeyBelow(s, key, v);
    }
  }

  lemma TailNewestFirst<T>(s: seq<T>, key: T -> int)
    requires s != [] && NewestFirst(s, key)
    ensures NewestFirst(s[1..], key)
  {
    forall i, j | 0 <= i < j < |s[1..]| ensures key(s[1..][j]) <= key(s[1..][i]) {
      assert s[1..][i] == s[i + 1] && s[1..][j] == s[j + 1];
    }
  }

  /** Inserting `x` puts it after every element of its own key. */
  lemma {:induction false} InsertStable<T>(x: T, s: seq<T>, key: T -> int, v: int)
    requires NewestFirst(s, key)
    ensures WithKey(InsertNewest(x, s, key), key, v) == WithKey(s, key, v) + WithKey([x], key, v)
  {
    if s == [] {
      WithKeyOne(x, key, v);
    } else if key(s[0]) < key(x) {
      InsertFrontStable(x, s, key, v);
    } else {
      TailNewestFirst(s, key);
      InsertStable(x, s[1..], key, v);
      InsertBehind(x, s, key);
      InsertBehindStable(x, s, InsertNewest(x, s[1..], key), key, v);
    }
  }

  /** `x` no newer than the head of `s` goes behind it, into the tail. */
  lemma InsertBehind<T>(x: T, s: seq<T>, key: T -> int)
    requires s != [] && NewestFirst(s, key) && NewestFirst(s[1..], key) && key(x) <= key(s[0])
    ensures InsertNewest(x, s, key) == [s[0]] + InsertNewest(x, s[1..], key)
  {
  }

  /** Putting `s[0]` in front of both sides keeps the keys' order. */
  lemma InsertBehindStable<T>(x: T, s: seq<T>, rest: seq<T>, key: T -> int, v: int)
    requires s != []
    requires WithKey(rest, key, v) == WithKey(s[1..], key, v) + WithKey([x], key, v)
    ensures WithKey([s[0]] + rest, key, v) == WithKey(s, key, v) + WithKey([x], key, v)
  {
    var head := WithKey([s[0]], key, v);
    calc {
      WithKey([s[0]] + rest, key, v);
      { WithKeyConcat([s[0]], rest, key, v); }
      head + WithKey(rest, key, v);
      (head + WithKey(s[1..], key, v)) + WithKey([x], key, v);
      { WithKeyConcat([s[0]], s[1..], key, v); assert s == [s[0]] + s[1..]; }
      WithKey(s, key, v) + WithKey([x], key, v);
    }
  }

  /** The sort is stable: for every key, the elements with that key keep
      their order in the input. */
  lemma {:induction false} SortStable<T>(s: seq<T>, key: T -> int, v: int)
    ensures WithKey(SortNewestFirst(s, key), key, v) == WithKey(s, key, v)
  {
    if s != [] {
      var init, last := s[..|s| - 1], s[|s| - 1];
      assert s == init + [last];
      SortStable(init, key, v);
      InsertStable(last, SortNewestFirst(init, key), key, v);
      WithKeyConcat(init, [last], key, v);
    }
  }

  /** The `n` newest of `s` (`order_by(date.desc()).limit(n)`): no
      element left out is newer than one kept. */
  function Newest<T(==)>(s: seq<T>, n: nat, key: T -> int): (r: seq<T>)
    ensures |r| == if |s| < n then |s| else n
    ensures NewestFirst(r, key)
    ensures multiset(r) <= multiset(s)
    ensures forall y :: y in r ==> y in s
    ensures forall x, y :: x in s && x !in r && y in r ==> key(x) <= key(y)
  {
    var sorted := SortNewestFirst(s, key);
    var r := Take(sorted, n);
    assert |sorted| == |multiset(sorted)| == |multiset(s)| == |s|;
    TakeNewest(sorted, n, key);
    SameElements(sorted, s);
    NewestFromPool(s, n, key);
    r
  }

  /** Sorting and cutting keep nothing that was not there before. */
  lemma NewestFromPool<T>(s: seq<T>, n: nat, key: T -> int)
    ensures forall x :: x in Take(SortNewestFirst(s, key), n) ==> x in s
  {
    var sorted := SortNewestFirst(s, key);
    forall x | x in Take(sorted, n) ensures x in s {
      assert x in sorted;
      assert x in multiset(sorted);
    }
  }

  /** Two rearrangements of each other hold the same elements. */
  lemma SameElements<T>(a: seq<T>, b: seq<T>)
    requires multiset(a) == multiset(b)
    ensures forall x :: x in a <==> x in b
  {
    forall x ensures x in a <==> x in b {
      assert x in a <==> x in multiset(a);
      assert x in b <==> x in multiset(b);
    }
  }

  /** Cutting a newest-first list after `n` keeps a part of its elements,
      none of them older than anything dropped. */
  lemma TakeNewest<T>(s: seq<T>, n: nat, key: T -> int)
    requires NewestFirst(s, key)
    ensures NewestFirst(Take(s, n), key)
    ensures multiset(Take(s, n)) <= multiset(s)
    ensures forall x, y :: x in s && x !in Take(s, n) && y in Take(s, n) ==> key(x) <= key(y)
  {
    var r := Take(s, n);
    assert s == r + s[|r|..];
    assert multiset(s) == multiset(r) + multiset(s[|r|..]);
    forall x, y | x in s && x !in r && y in r ensures key(x) <= key(y) {
      var i :| 0 <= i < |s| && s[i] == x;
      var j :| 0 <= j < |r| && r[j] == y;
      assert i >= |r|;
    }
  }
}
