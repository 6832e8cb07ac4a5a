/**
 * The array operations the handlers use on the stored collections:
 * `find` by a key, `filter` by a key, a stable descending `sort` by an
 * integer key, and `slice(0, n)`.
 */
module Seqs {
  import opened Wrappers

  /** `s.findIndex(x => key(x) === k)`, as an optional index: the first match. */
  function FirstIndex<T, K(==)>(s: seq<T>, key: T -> K, k: K): (r: Option<nat>)
    ensures r.Some? ==> r.value < |s| && key(s[r.value]) == k
    ensures r.Some? ==> forall j :: 0 <= j < r.value ==> key(s[j]) != k
    ensures r.None? <==> forall j :: 0 <= j < |s| ==> key(s[j]) != k
  {
    if |s| == 0 then None
    else if key(s[0]) == k then Some(0)
    else match FirstIndex(s[1..], key, k)
      case None => None
      case Some(i) => Some(i + 1)
  }

  /** `s.filter(x => key(x) === k)`. */
  function FilterKey<T, K(==)>(s: seq<T>, key: T -> K, k: K): (r: seq<T>)
    ensures |r| <= |s|
    ensures forall i :: 0 <= i < |r| ==> key(r[i]) == k
    ensures forall i :: 0 <= i < |s| && key(s[i]) == k ==> s[i] in r
    ensures multiset(r) <= multiset(s)
  {
    if |s| == 0 then []
    else
      assert s == [s[0]] + s[1..];
      if key(s[0]) == k then [s[0]] + FilterKey(s[1..], key, k)
      else FilterKey(s[1..], key, k)
  }

  lemma {:induction false} FilterKeyAppend<T, K>(s: seq<T>, x: T, key: T -> K, k: K)
    ensures FilterKey(s + [x], key, k) == FilterKey(s, key, k) + (if key(x) == k then [x] else [])
  {
    if |s| == 0 {
      assert s + [x] == [x];
    } else {
      assert (s + [x])[1..] == s[1..] + [x];
      FilterKeyAppend(s[1..], x, key, k);
    }
  }

  /** `s.slice(0, n)`. */
  function Take<T>(s: seq<T>, n: nat): (r: seq<T>)
    ensures |r| == if |s| < n then |s| else n
    ensures forall i :: 0 <= i < |r| ==> r[i] == s[i]
  {
    if |s| < n then s else s[..n]
  }

  /** Ordered newest (largest key) first. */
  ghost predicate SortedDesc<T>(s: seq<T>, key: T -> int) {
    forall i, j :: 0 <= i < j < |s| ==> key(s[i]) >= key(s[j])
  }

  /**
   * Places `x` in front of the first element whose key is not larger than
   * its own, so an element inserted later ends up before equal keys.
   */
  function InsertDesc<T>(x: T, s: seq<T>, key: T -> int): (r: seq<T>)
    ensures multiset(r) == multiset(s) + multiset{x}
    ensures |r| == |s| + 1
  {
    if |s| == 0 || key(x) >= key(s[0]) then [x] + s
    else
      assert s == [s[0]] + s[1..];
      [s[0]] + InsertDesc(x, s[1..], key)
  }

  /**
   * `s.sort((a, b) => key(b) - key(a))`: a stable descending insertion sort
   * (the sort of ECMAScript 2019 and later is stable).
   */
  function SortDesc<T>(s: seq<T>, key: T -> int): (r: seq<T>)
    ensures multiset(r) == multiset(s)
    ensures |r| == |s|
  {
    if |s| == 0 then []
    else
      assert s == [s[0]] + s[1..];
      InsertDesc(s[0], SortDesc(s[1..], key), key)
  }

  lemma {:induction false} InsertDescSorted<T>(x: T, s: seq<T>, key: T -> int)
    requires SortedDesc(s, key)
    ensures SortedDesc(InsertDesc(x, s, key), key)
  {
    if |s| == 0 || key(x) >= key(s[0]) {
    } else {
      InsertDescSorted(x, s[1..], key);
      var t := InsertDesc(x, s[1..], key);
      var r := [s[0]] + t;
      assert t[0] == x || t[0] == s[1] by {
        if |s| == 1 || key(x) >= key(s[1]) { } else { }
      }
      forall i, j | 0 <= i < j < |r| ensures key(r[i]) >= key(r[j]) {
        if i == 0 {
          assert r[j] in multiset(t);
          assert r[j] in multiset(s[1..]) + multiset{x};
          if r[j] == x { } else {
            assert r[j] in s[1..];
            var m :| 0 <= m < |s[1..]| && s[1..][m] == r[j];
            assert s[m + 1] == r[j];
          }
        }
      }
    }
  }

  lemma {:induction false} SortDescSorted<T>(s: seq<T>, key: T -> int)
    ensures SortedDesc(SortDesc(s, key), key)
  {
    if |s| > 0 {
      SortDescSorted(s[1..], key);
      InsertDescSorted(s[0], SortDesc(s[1..], key), key);
    }
  }

  lemma TakeSortedDesc<T>(s: seq<T>, key: T -> int, n: nat)
    requires SortedDesc(s, key)
    ensures SortedDesc(Take(s, n), key)
  {
  }

  lemma TakeMultiset<T>(s: seq<T>, n: nat)
    ensures multiset(Take(s, n)) <= multiset(s)
  {
    if n <= |s| {
      assert s == s[..n] + s[n..];
    }
  }

  /**
   * Cutting a descending sort after `n` keeps the top: an element left
   * out has a key no larger than any element kept.
   */
  lemma {:induction false} TopOfSorted<T>(s: seq<T>, key: T -> int, n: nat, x: T)
    requires x in s && x !in Take(SortDesc(s, key), n)
    ensures forall k :: 0 <= k < |Take(SortDesc(s, key), n)| ==> key(x) <= key(Take(SortDesc(s, key), n)[k])
  {
    var t := SortDesc(s, key);
    SortDescSorted(s, key);
    assert x in multiset(s);
    assert x in multiset(t);
    var m :| 0 <= m < |t| && t[m] == x;
    var p := Take(t, n);
    if m < |p| {
      assert false;
    }
    forall k | 0 <= k < |p| ensures key(x) <= key(p[k]) {
      assert p[k] == t[k];
    }
  }

  /** The first `n` of a descending sort: ordered, drawn from `s`, and all of `s` when it is short. */
  lemma TopN<T>(s: seq<T>, key: T -> int, n: nat)
    ensures SortedDesc(Take(SortDesc(s, key), n), key)
    ensures multiset(Take(SortDesc(s, key), n)) <= multiset(s)
    ensures |s| <= n ==> multiset(Take(SortDesc(s, key), n)) == multiset(s)
  {
    var t := SortDesc(s, key);
    SortDescSorted(s, key);
    TakeSortedDesc(t, key, n);
    TakeMultiset(t, n);
    assert multiset(t) == multiset(s);
    if |s| <= n {
      assert Take(t, n) == t;
    }
  }

  /**
   * The newest `n` of the elements of `s` with key `k`: ordered, each with
   * key `k`, drawn from `s`, and all of them when there are no more than `n`.
   */
  lemma TopNOfKey<T, K>(s: seq<T>, key: T -> K, k: K, ord: T -> int, n: nat)
    ensures var r := Take(SortDesc(FilterKey(s, key, k), ord), n);
      && SortedDesc(r, ord)
      && (forall i :: 0 <= i < |r| ==> key(r[i]) == k)
      && multiset(r) <= multiset(s)
      && (|FilterKey(s, key, k)| <= n ==> multiset(r) == multiset(FilterKey(s, key, k)))
  {
    var mine := FilterKey(s, key, k);
    var r := Take(SortDesc(mine, ord), n);
    TopN(mine, ord, n);
    DrawnKeepsKey(r, mine, key, k);
    assert multiset(r) <= multiset(mine) <= multiset(s);
  }

  /** Elements drawn from a sequence whose keys all equal `k` have key `k` too. */
  lemma DrawnKeepsKey<T, K>(r: seq<T>, s: seq<T>, key: T -> K, k: K)
    requires multiset(r) <= multiset(s)
    requires forall i :: 0 <= i < |s| ==> key(s[i]) == k
    ensures forall i :: 0 <= i < |r| ==> key(r[i]) == k
  {
    forall i | 0 <= i < |r| ensures key(r[i]) == k {
      assert r[i] in multiset(r);
      assert r[i] in multiset(s);
      var j :| 0 <= j < |s| && s[j] == r[i];
    }
  }

  /** Elements drawn from a sequence are elements of it. */
  lemma DrawnIn<T>(r: seq<T>, s: seq<T>)
    requires multiset(r) <= multiset(s)
    ensures forall i :: 0 <= i < |r| ==> r[i] in s
  {
    forall i | 0 <= i < |r| ensures r[i] in s {
      assert r[i] in multiset(r);
    }
  }

  /** Sum of `f` over the elements, as `s.reduce((acc, x) => acc + f(x), 0)`. */
  function SumOf<T>(s: seq<T>, f: T -> int): int {
    if |s| == 0 then 0 else SumOf(s[..|s| - 1], f) + f(s[|s| - 1])
  }

  lemma {:induction false} SumOfAppend<T>(s: seq<T>, t: seq<T>, f: T -> int)
    ensures SumOf(s + t, f) == SumOf(s, f) + SumOf(t, f)
  {
    if |t| == 0 {
      assert s + t == s;
    } else {
      assert (s + t)[..|s + t| - 1] == s + t[..|t| - 1];
      SumOfAppend(s, t[..|t| - 1], f);
    }
  }

  /** Taking one element out of a sequence takes its value out of the sum. */
  lemma SumOfRemove<T>(s: seq<T>, j: nat, f: T -> int)
    requires j < |s|
    ensures SumOf(s, f) == SumOf(s[..j] + s[j + 1..], f) + f(s[j])
  {
    assert s[..j + 1] == s[..j] + [s[j]];
    assert s == s[..j + 1] + s[j + 1..];
    SumOfAppend(s[..j] + [s[j]], s[j + 1..], f);
    SumOfAppend(s[..j], [s[j]], f);
    SumOfAppend(s[..j], s[j + 1..], f);
    assert SumOf([s[j]], f) == f(s[j]) by {
      assert [s[j]][..0] == [];
    }
  }

  /** Taking one element out of a sequence takes it out of its multiset. */
  lemma MultisetRemove<T>(s: seq<T>, j: nat)
    requires j < |s|
    ensures multiset(s[..j] + s[j + 1..]) == multiset(s) - multiset{s[j]}
  {
    assert s == s[..j] + [s[j]] + s[j + 1..];
  }

  /** A sum does not depend on the order of the elements. */
  lemma {:induction false} SumOfPermutation<T>(a: seq<T>, b: seq<T>, f: T -> int)
    requires multiset(a) == multiset(b)
    ensures SumOf(a, f) == SumOf(b, f)
  {
    if |a| == 0 {
      assert |multiset(b)| == 0;
    } else {
      var x := a[|a| - 1];
      var front := a[..|a| - 1];
      assert x in multiset(b) by {
        assert a == front + [x];
      }
      var j :| 0 <= j < |b| && b[j] == x;
      var rest := b[..j] + b[j + 1..];
      MultisetRemove(a, |a| - 1);
      MultisetRemove(b, j);
      assert a[..|a| - 1] + a[|a|..] == front;
      SumOfPermutation(front, rest, f);
      SumOfRemove(b, j, f);
    }
  }

  /** The sequence back to front (`Array.prototype.reverse` on a copy). */
  function Reverse<T>(s: seq<T>): (r: seq<T>)
    ensures |r| == |s|
    ensures forall k :: 0 <= k < |s| ==> r[k] == s[|s| - 1 - k]
  {
    if |s| == 0 then [] else [s[|s| - 1]] + Reverse(s[..|s| - 1])
  }
}
