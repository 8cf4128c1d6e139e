/** Stable ordering, as Python's `sorted(..., key=k, reverse=True)` and as
    this model resolves SQL `ORDER BY k DESC` (ties keep the stored order).
    An ascending order is the descending order of the negated key. */
module Sorting {
  import opened Common

  predicate SortedDesc<T>(s: seq<T>, key: T -> real) {
    forall i, j :: 0 <= i < j < |s| ==> key(s[i]) >= key(s[j])
  }

  /** The elements of `s` whose key is `v`, in their order in `s`. */
  function WithKey<T>(s: seq<T>, key: T -> real, v: real): seq<T> {
    if |s| == 0 then []
    else (if key(s[0]) == v then [s[0]] else []) + WithKey(s[1..], key, v)
  }

  /** Puts `x` in front of the first element whose key is not larger. */
  function Insert<T>(x: T, s: seq<T>, key: T -> real): seq<T> {
    if |s| == 0 then [x]
    else if key(x) >= key(s[0]) then [x] + s
    else [s[0]] + Insert(x, s[1..], key)
  }

  lemma {:induction false} InsertCount<T>(x: T, s: seq<T>, key: T -> real)
    ensures multiset(Insert(x, s, key)) == multiset(s) + multiset{x}
    ensures |Insert(x, s, key)| == |s| + 1
    decreases |s|
  {
    if |s| > 0 && key(x) < key(s[0]) {
      InsertCount(x, s[1..], key);
      assert s == [s[0]] + s[1..];
    }
  }

  lemma {:induction false} InsertSorted<T>(x: T, s: seq<T>, key: T -> real)
    requires SortedDesc(s, key)
    ensures SortedDesc(Insert(x, s, key), key)
    decreases |s|
  {
    if |s| == 0 {
    } else if key(x) >= key(s[0]) {
      ConsSorted(x, s, key);
    } else {
      var t := Insert(x, s[1..], key);
      InsertSorted(x, s[1..], key);
      InsertBelow(x, s[1..], key, key(s[0]));
      ConsSorted(s[0], t, key);
    }
  }

  /** An element whose key bounds every key of a sorted sequence can go in front. */
  lemma ConsSorted<T>(y: T, t: seq<T>, key: T -> real)
    requires SortedDesc(t, key)
    requires forall k :: 0 <= k < |t| ==> key(y) >= key(t[k])
    ensures SortedDesc([y] + t, key)
  {
    var r := [y] + t;
    forall i, j | 0 <= i < j < |r| ensures key(r[i]) >= key(r[j]) {
      assert r[j] == t[j - 1];
      if i > 0 {
        assert r[i] == t[i - 1];
      }
    }
  }

  /** Inserting keeps every key below a bound that all the keys were below. */
  lemma InsertBelow<T>(x: T, s: seq<T>, key: T -> real, bound: real)
    requires bound >= key(x)
    requires forall k :: 0 <= k < |s| ==> bound >= key(s[k])
    ensures forall k :: 0 <= k < |Insert(x, s, key)| ==> bound >= key(Insert(x, s, key)[k])
  {
    var t := Insert(x, s, key);
    InsertMembers(x, s, key);
    forall k | 0 <= k < |t| ensures bound >= key(t[k]) {
      if t[k] != x {
        var m :| 0 <= m < |s| && s[m] == t[k];
      }
    }
  }

  /** Inserting into a sorted sequence adds one element and keeps it sorted. */
  lemma InsertProps<T>(x: T, t: seq<T>, key: T -> real)
    requires SortedDesc(t, key)
    ensures |Insert(x, t, key)| == |t| + 1
    ensures multiset(Insert(x, t, key)) == multiset(t) + multiset{x}
    ensures SortedDesc(Insert(x, t, key), key)
  {
    InsertCount(x, t, key);
    InsertSorted(x, t, key);
  }

  lemma ConsMultiset<T>(s: seq<T>)
    requires |s| > 0
    ensures multiset(s) == multiset(s[1..]) + multiset{s[0]}
  {
    assert s == [s[0]] + s[1..];
  }

  /** Insertion sort, descending by `key`, stable. */
  function SortDesc<T>(s: seq<T>, key: T -> real): (r: seq<T>)
    ensures |r| == |s|
    ensures multiset(r) == multiset(s)
    ensures SortedDesc(r, key)
    decreases |s|
  {
    if |s| == 0 then []
    else
      var t := SortDesc(s[1..], key);
      InsertProps(s[0], t, key);
      ConsMultiset(s);
      Insert(s[0], t, key)
  }

  lemma {:induction false} InsertWithKey<T>(x: T, s: seq<T>, key: T -> real, v: real)
    ensures WithKey(Insert(x, s, key), key, v)
         == (if key(x) == v then [x] else []) + WithKey(s, key, v)
    decreases |s|
  {
    if |s| == 0 {
    } else if key(x) >= key(s[0]) {
      assert ([x] + s)[0] == x;
      assert ([x] + s)[1..] == s;
    } else {
      var t := Insert(x, s[1..], key);
      InsertWithKey(x, s[1..], key, v);
      assert ([s[0]] + t)[0] == s[0];
      assert ([s[0]] + t)[1..] == t;
      var hx := if key(x) == v then [x] else [];
      var h0 := if key(s[0]) == v then [s[0]] else [];
      calc {
        WithKey([s[0]] + t, key, v);
        h0 + WithKey(t, key, v);
        h0 + (hx + WithKey(s[1..], key, v));
        { assert key(s[0]) != key(x); }
        hx + (h0 + WithKey(s[1..], key, v));
        hx + WithKey(s, key, v);
      }
    }
  }

  /** Stability: the elements sharing any one key value keep their input order. */
  lemma {:induction false} SortStable<T>(s: seq<T>, key: T -> real, v: real)
    ensures WithKey(SortDesc(s, key), key, v) == WithKey(s, key, v)
    decreases |s|
  {
    if |s| > 0 {
      SortStable(s[1..], key, v);
      InsertWithKey(s[0], SortDesc(s[1..], key), key, v);
    }
  }

  lemma {:induction false} InsertAppend<T>(x: T, a: seq<T>, t: seq<T>, key: T -> real)
    requires forall y :: y in t ==> key(x) >= key(y)
    ensures Insert(x, a + t, key) == Insert(x, a, key) + t
    decreases |a|
  {
    if |a| == 0 {
      assert a + t == t;
      if |t| > 0 {
        assert t[0] in t;
      }
    } else {
      assert (a + t)[0] == a[0];
      assert (a + t)[1..] == a[1..] + t;
      if key(x) < key(a[0]) {
        InsertAppend(x, a[1..], t, key);
      }
    }
  }

  /** Appending elements that rank no higher than everything already present,
      and are already in order among themselves, appends them to the sorted
      result unchanged. */
  lemma {:induction false} SortAppendLowest<T>(s: seq<T>, t: seq<T>, key: T -> real)
    requires forall x, y :: x in s && y in t ==> key(x) >= key(y)
    requires SortDesc(t, key) == t
    ensures SortDesc(s + t, key) == SortDesc(s, key) + t
    decreases |s|
  {
    if |s| == 0 {
      assert s + t == t;
    } else {
      var rest := s[1..];
      assert (s + t)[0] == s[0];
      assert (s + t)[1..] == rest + t;
      forall x, y | x in rest && y in t ensures key(x) >= key(y) {
        assert x in s;
      }
      SortAppendLowest(rest, t, key);
      assert s[0] in s;
      InsertAppend(s[0], SortDesc(rest, key), t, key);
    }
  }

  /** No two elements of `s` share a value of `f`. */
  ghost predicate DistinctBy<T, K>(s: seq<T>, f: T -> K) {
    forall i, j :: 0 <= i < j < |s| ==> f(s[i]) != f(s[j])
  }

  lemma {:induction false} InsertDistinct<T, K>(x: T, s: seq<T>, key: T -> real, f: T -> K)
    requires DistinctBy(s, f)
    requires forall y :: y in s ==> f(y) != f(x)
    ensures DistinctBy(Insert(x, s, key), f)
    decreases |s|
  {
    if |s| == 0 {
    } else if key(x) >= key(s[0]) {
      ConsDistinct(x, s, f);
    } else {
      var t := Insert(x, s[1..], key);
      assert DistinctBy(s[1..], f);
      InsertDistinct(x, s[1..], key, f);
      InsertMembers(x, s[1..], key);
      forall k | 0 <= k < |t| ensures f(s[0]) != f(t[k]) {
        if t[k] != x {
          var m :| 0 <= m < |s[1..]| && s[1..][m] == t[k];
          assert s[m + 1] == t[k];
        } else {
          assert s[0] in s;
        }
      }
      ConsDistinct(s[0], t, f);
    }
  }

  /** An element whose `f` differs from all of a sequence's can go in front. */
  lemma ConsDistinct<T, K>(y: T, t: seq<T>, f: T -> K)
    requires DistinctBy(t, f)
    requires forall k :: 0 <= k < |t| ==> f(y) != f(t[k])
    ensures DistinctBy([y] + t, f)
  {
    var r := [y] + t;
    forall i, j | 0 <= i < j < |r| ensures f(r[i]) != f(r[j]) {
      assert r[j] == t[j - 1];
      if i > 0 {
        assert r[i] == t[i - 1];
      }
    }
  }

  /** Inserting adds `x` and nothing else. */
  lemma InsertMembers<T>(x: T, s: seq<T>, key: T -> real)
    ensures forall k :: 0 <= k < |Insert(x, s, key)| ==> Insert(x, s, key)[k] == x || Insert(x, s, key)[k] in s
  {
    var t := Insert(x, s, key);
    InsertCount(x, s, key);
    forall k | 0 <= k < |t| ensures t[k] == x || t[k] in s {
      assert t[k] in multiset(t);
    }
  }

  /** Sorting never makes two elements share a value of `f`. */
  lemma {:induction false} SortDistinct<T, K>(s: seq<T>, key: T -> real, f: T -> K)
    requires DistinctBy(s, f)
    ensures DistinctBy(SortDesc(s, key), f)
    decreases |s|
  {
    if |s| > 0 {
      var t := SortDesc(s[1..], key);
      assert DistinctBy(s[1..], f);
      SortDistinct(s[1..], key, f);
      forall y | y in t ensures f(y) != f(s[0]) {
        assert y in multiset(t);
        assert y in multiset(s[1..]);
        assert y in s[1..];
        var m :| 0 <= m < |s[1..]| && s[1..][m] == y;
        assert s[m + 1] == y;
      }
      InsertDistinct(s[0], t, key, f);
    }
  }

  /** The first `k` elements of the sorted sequence are drawn from the input,
      and no input element left out ranks above one that was kept. */
  lemma TopK<T>(s: seq<T>, key: T -> real, k: nat)
    ensures multiset(Take(SortDesc(s, key), k)) <= multiset(s)
    ensures forall x, y :: x in multiset(s) - multiset(Take(SortDesc(s, key), k)) && y in Take(SortDesc(s, key), k)
              ==> key(x) <= key(y)
  {
    var t := SortDesc(s, key);
    var r := Take(t, k);
    var rest := t[|r|..];
    assert t == r + rest;
    assert multiset(t) == multiset(r) + multiset(rest);
    forall x, y | x in multiset(s) - multiset(r) && y in r ensures key(x) <= key(y) {
      assert x in multiset(rest);
      assert x in rest;
      var j :| 0 <= j < |rest| && rest[j] == x;
      var i :| 0 <= i < |r| && r[i] == y;
      assert t[i] == y && t[|r| + j] == x;
    }
  }

  /** A prefix of a sorted sequence of distinct elements is both. */
  lemma PrefixKeeps<T, K>(m: seq<T>, t: seq<T>, key: T -> real, f: T -> K)
    requires m <= t
    ensures SortedDesc(t, key) ==> SortedDesc(m, key)
    ensures DistinctBy(t, f) ==> DistinctBy(m, f)
  {
    assert forall i :: 0 <= i < |m| ==> m[i] == t[i];
  }
}
