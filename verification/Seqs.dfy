/** Sequence operations that stand for Rust's `retain`, `sort_by_key` and hash-map iteration. */
module Seqs {
  /** `Vec::retain`. */
  function Filter<T>(xs: seq<T>, keep: T -> bool): (ys: seq<T>) {
    if xs == [] then []
    else
      var n := |xs| - 1;
      Filter(xs[..n], keep) + if keep(xs[n]) then [xs[n]] else []
  }

  lemma {:induction false} FilterMembers<T(!new)>(xs: seq<T>, keep: T -> bool)
    ensures forall x :: x in Filter(xs, keep) <==> x in xs && keep(x)
    ensures |Filter(xs, keep)| <= |xs|
  {
    if xs != [] {
      var n := |xs| - 1;
      FilterMembers(xs[..n], keep);
      forall x ensures x in Filter(xs, keep) <==> x in xs && keep(x) {
        assert x in xs <==> x in xs[..n] || x == xs[n];
      }
    }
  }

  /** No two elements share a key. */
  ghost predicate Distinct<T>(xs: seq<T>, key: T -> int) {
    forall i, j :: 0 <= i < j < |xs| ==> key(xs[i]) != key(xs[j])
  }

  lemma {:induction false} FilterKeepsDistinct<T(!new)>(xs: seq<T>, keep: T -> bool, key: T -> int)
    requires Distinct(xs, key)
    ensures Distinct(Filter(xs, keep), key)
  {
    if xs != [] {
      var n := |xs| - 1;
      FilterKeepsDistinct(xs[..n], keep, key);
      FilterMembers(xs[..n], keep);
      var ys := Filter(xs[..n], keep);
      forall j | 0 <= j < |ys| ensures key(ys[j]) != key(xs[n]) {
        assert ys[j] in xs[..n];
      }
    }
  }

  lemma {:induction false} FilterAll<T>(xs: seq<T>, keep: T -> bool)
    requires forall i :: 0 <= i < |xs| ==> keep(xs[i])
    ensures Filter(xs, keep) == xs
  {
    if xs != [] {
      var n := |xs| - 1;
      FilterAll(xs[..n], keep);
      assert xs == xs[..n] + [xs[n]];
    }
  }

  lemma {:induction false} FilterAppend<T>(xs: seq<T>, ys: seq<T>, keep: T -> bool)
    ensures Filter(xs + ys, keep) == Filter(xs, keep) + Filter(ys, keep)
  {
    if ys == [] {
      assert xs + ys == xs;
    } else {
      var n := |ys| - 1;
      FilterAppend(xs, ys[..n], keep);
      assert (xs + ys)[..|xs| + n] == xs + ys[..n];
    }
  }

  lemma FilterMiddle<T>(left: seq<T>, x: T, right: seq<T>, keep: T -> bool)
    requires !keep(x)
    ensures Filter(left + [x] + right, keep) == Filter(left, keep) + Filter(right, keep)
  {
    assert (left + [x])[..|left|] == left;
    FilterAppend(left + [x], right, keep);
  }

  lemma SplitAt<T>(xs: seq<T>, k: nat)
    requires k < |xs|
    ensures xs == xs[..k] + [xs[k]] + xs[k + 1..]
  {
  }

  lemma FilterPrefix<T>(xs: seq<T>, keep: T -> bool, k: nat)
    requires k <= |xs| && forall i :: 0 <= i < k ==> keep(xs[i])
    ensures Filter(xs[..k], keep) == xs[..k]
  {
    var ys := xs[..k];
    assert forall i :: 0 <= i < |ys| ==> ys[i] == xs[i];
    FilterAll(ys, keep);
  }

  lemma FilterSuffix<T>(xs: seq<T>, keep: T -> bool, k: nat)
    requires k <= |xs| && forall i :: k <= i < |xs| ==> keep(xs[i])
    ensures Filter(xs[k..], keep) == xs[k..]
  {
    var ys := xs[k..];
    assert forall i :: 0 <= i < |ys| ==> ys[i] == xs[k + i];
    FilterAll(ys, keep);
  }

  lemma FilterOne<T>(xs: seq<T>, keep: T -> bool, k: nat)
    requires k < |xs| && !keep(xs[k])
    requires forall i :: 0 <= i < |xs| && i != k ==> keep(xs[i])
    ensures Filter(xs, keep) == xs[..k] + xs[k + 1..]
  {
    var left, right := xs[..k], xs[k + 1..];
    FilterPrefix(xs, keep, k);
    FilterSuffix(xs, keep, k + 1);
    FilterMiddle(left, xs[k], right, keep);
    SplitAt(xs, k);
  }

  /** With distinct keys, an element is determined by its key. */
  lemma DistinctKey<T>(xs: seq<T>, key: T -> int, x: T, y: T)
    requires Distinct(xs, key) && x in xs && y in xs && key(x) == key(y)
    ensures x == y
  {
    var i :| 0 <= i < |xs| && xs[i] == x;
    var j :| 0 <= j < |xs| && xs[j] == y;
    if i < j {
    } else if j < i {
    }
  }

  ghost predicate Ascending<T>(xs: seq<T>, key: T -> int) {
    forall i, j :: 0 <= i < j < |xs| ==> key(xs[i]) < key(xs[j])
  }

  function Insert<T(!new)>(x: T, xs: seq<T>, key: T -> int): (ys: seq<T>)
    ensures |ys| == |xs| + 1
    ensures forall y :: y in ys <==> y == x || y in xs
  {
    if xs == [] then [x]
    else if key(x) < key(xs[0]) then [x] + xs
    else [xs[0]] + Insert(x, xs[1..], key)
  }

  lemma {:induction false} InsertAscends<T(!new)>(x: T, xs: seq<T>, key: T -> int)
    requires Ascending(xs, key)
    requires forall y :: y in xs ==> key(y) != key(x)
    ensures Ascending(Insert(x, xs, key), key)
  {
    if xs != [] && key(xs[0]) <= key(x) {
      InsertAscends(x, xs[1..], key);
      var ys := Insert(x, xs[1..], key);
      forall j | 0 <= j < |ys| ensures key(xs[0]) < key(ys[j]) {
        assert ys[j] == x || ys[j] in xs[1..];
      }
    }
  }

  /** `sort_by_key`, a stable sort. */
  function SortByKey<T(!new)>(xs: seq<T>, key: T -> int): (ys: seq<T>)
    ensures |ys| == |xs|
    ensures forall y :: y in ys <==> y in xs
  {
    if xs == [] then []
    else Insert(xs[|xs| - 1], SortByKey(xs[..|xs| - 1], key), key)
  }

  lemma {:induction false} SortByKeyAscends<T(!new)>(xs: seq<T>, key: T -> int)
    requires Distinct(xs, key)
    ensures Ascending(SortByKey(xs, key), key)
  {
    if xs != [] {
      var n := |xs| - 1;
      SortByKeyAscends(xs[..n], key);
      forall y | y in SortByKey(xs[..n], key) ensures key(y) != key(xs[n]) {
        assert y in xs[..n];
      }
      InsertAscends(xs[n], SortByKey(xs[..n], key), key);
    }
  }

  /** An ascending sequence is determined by the set of its elements. */
  lemma {:induction false} AscendingUnique<T(!new)>(xs: seq<T>, ys: seq<T>, key: T -> int)
    requires Ascending(xs, key) && Ascending(ys, key)
    requires forall x :: x in xs <==> x in ys
    ensures xs == ys
  {
    assert |ys| > 0 ==> ys[0] in ys;
    if |xs| > 0 {
      assert xs[0] in xs && xs[0] in ys;
      var i :| 0 <= i < |ys| && ys[i] == xs[0];
      assert ys[0] in xs;
      var j :| 0 <= j < |xs| && xs[j] == ys[0];
      assert i == 0 || j == 0;
      forall x ensures x in xs[1..] <==> x in ys[1..] {
        assert x in xs[1..] <==> x in xs && x != xs[0];
        assert x in ys[1..] <==> x in ys && x != ys[0];
      }
      AscendingUnique(xs[1..], ys[1..], key);
    }
  }

  /** `xs` lists every element of `s` once: an order in which a hash map may be walked. */
  ghost predicate Lists<T(!new)>(xs: seq<T>, s: set<T>) {
    && (forall x :: x in xs <==> x in s)
    && (forall i, j :: 0 <= i < j < |xs| ==> xs[i] != xs[j])
  }

  /** Walks a set in some order. */
  method Walk<T(==,!new)>(s: set<T>) returns (xs: seq<T>)
    ensures Lists(xs, s)
  {
    xs := [];
    var left := s;
    while left != {}
      invariant left <= s && Lists(xs, s - left)
      decreases left
    {
      var x :| x in left;
      xs, left := xs + [x], left - {x};
    }
  }

  /** Numbers in 1..max that are all different are at most max. */
  lemma {:induction false} Pigeonhole(xs: seq<int>, max: nat)
    requires forall x :: x in xs ==> 1 <= x <= max
    requires forall i, j :: 0 <= i < j < |xs| ==> xs[i] != xs[j]
    ensures |xs| <= max
  {
    assert xs != [] ==> xs[0] in xs && 1 <= xs[0] <= max;
    if xs == [] {
    } else if max in xs {
      var k :| 0 <= k < |xs| && xs[k] == max;
      var rest := xs[..k] + xs[k + 1..];
      forall x | x in rest ensures 1 <= x <= max - 1 {
        var i :| 0 <= i < |rest| && rest[i] == x;
        var j := if i < k then i else i + 1;
        assert x == xs[j] && xs[j] in xs;
      }
      Pigeonhole(rest, max - 1);
    } else {
      Pigeonhole(xs, max - 1);
    }
  }
}
