/** Sequence functions behind the array idioms the pages use:
    `[...new Set(xs)]`, `filter`, `slice(-n)` and `reverse`. */
module Seqs {

  /** No value occurs twice in `xs`. */
  predicate Distinct<T(==)>(xs: seq<T>) {
    forall i, j :: 0 <= i < j < |xs| ==> xs[i] != xs[j]
  }

  /** The position of the first occurrence of `x` in `xs`. */
  function IndexOf<T(==)>(xs: seq<T>, x: T): (r: nat)
    requires x in xs
    ensures r < |xs| && xs[r] == x
    ensures forall k :: 0 <= k < r ==> xs[k] != x
  {
    if xs[0] == x then 0 else 1 + IndexOf(xs[1..], x)
  }

  /** Every element of `ys` occurs in `xs`, and the elements of `ys` appear in
      the order of their first occurrences in `xs`. */
  predicate InFirstOccurrenceOrder<T(==)>(ys: seq<T>, xs: seq<T>) {
    && (forall i :: 0 <= i < |ys| ==> ys[i] in xs)
    && forall i, j :: 0 <= i < j < |ys| && ys[i] in xs && ys[j] in xs ==>
         IndexOf(xs, ys[i]) < IndexOf(xs, ys[j])
  }

  /** The first occurrence of a value in a prefix is its first occurrence in
      the whole sequence. */
  lemma IndexOfInPrefix<T>(xs: seq<T>, n: nat, x: T)
    requires n <= |xs| && x in xs[..n]
    ensures IndexOf(xs, x) == IndexOf(xs[..n], x)
  {
    var p := IndexOf(xs[..n], x);
    var q := IndexOf(xs, x);
    assert xs[p] == xs[..n][p];
    assert forall k :: 0 <= k < p ==> xs[k] != x by {
      forall k | 0 <= k < p ensures xs[k] != x {
        assert xs[k] == xs[..n][k];
      }
    }
    assert q == p;
  }

  /** In a sequence ordered by first occurrence in `xs`, whatever precedes a
      value first seen in the prefix `xs[..n]` was also first seen there. */
  lemma PrefixComesFirst<T>(ys: seq<T>, xs: seq<T>, n: nat, i: nat, j: nat)
    requires InFirstOccurrenceOrder(ys, xs)
    requires n <= |xs| && i < j < |ys| && ys[j] in xs[..n]
    ensures ys[i] in xs[..n]
  {
    IndexOfInPrefix(xs, n, ys[j]);
    var k := IndexOf(xs, ys[i]);
    assert k < IndexOf(xs, ys[j]) < n;
    assert xs[..n][k] == ys[i];
  }

  /** `[...new Set(xs)]`: the values of `xs` without repetition, each at the
      place of its first occurrence. */
  function Unique<T(==,!new)>(xs: seq<T>): (r: seq<T>)
    ensures Distinct(r)
    ensures forall x :: x in r <==> x in xs
    ensures InFirstOccurrenceOrder(r, xs)
    ensures |r| <= |xs|
  {
    if |xs| == 0 then []
    else
      var p := xs[..|xs| - 1];
      var last := xs[|xs| - 1];
      var u := Unique(p);
      assert xs == p + [last];
      forall y | y in p
        ensures IndexOf(xs, y) == IndexOf(p, y) < |p|
      {
        IndexOfInPrefix(xs, |p|, y);
      }
      if last in u then u
      else
        assert IndexOf(xs, last) == |p|;
        u + [last]
  }

  /** `xs.filter(keep)`: the elements satisfying `keep`, in order. */
  function Filter<T(!new)>(xs: seq<T>, keep: T -> bool): (r: seq<T>)
    ensures |r| <= |xs|
    ensures forall i :: 0 <= i < |r| ==> keep(r[i])
    ensures forall x :: x in r <==> x in xs && keep(x)
    ensures forall x :: keep(x) ==> multiset(r)[x] == multiset(xs)[x]
  {
    if |xs| == 0 then []
    else
      var rest := Filter(xs[1..], keep);
      assert xs == [xs[0]] + xs[1..];
      if keep(xs[0]) then [xs[0]] + rest else rest
  }

  /** Values at distinct first-occurrence positions are distinct values. */
  lemma OrderedIsDistinct<T>(ys: seq<T>, xs: seq<T>)
    requires InFirstOccurrenceOrder(ys, xs)
    ensures Distinct(ys)
  {
    forall i, j | 0 <= i < j < |ys|
      ensures ys[i] != ys[j]
    {
      assert IndexOf(xs, ys[i]) < IndexOf(xs, ys[j]);
    }
  }

  lemma OrderedTail<T>(ys: seq<T>, xs: seq<T>)
    requires |ys| > 0 && InFirstOccurrenceOrder(ys, xs)
    ensures InFirstOccurrenceOrder(ys[1..], xs)
  {
    var tail := ys[1..];
    forall i, j | 0 <= i < j < |tail|
      ensures IndexOf(xs, tail[i]) < IndexOf(xs, tail[j])
    {
      assert tail[i] == ys[i + 1] && tail[j] == ys[j + 1];
    }
  }

  lemma OrderedCons<T>(y: T, rest: seq<T>, xs: seq<T>)
    requires y in xs && InFirstOccurrenceOrder(rest, xs)
    requires forall z :: z in rest ==> IndexOf(xs, y) < IndexOf(xs, z)
    ensures InFirstOccurrenceOrder([y] + rest, xs)
  {
    var r := [y] + rest;
    forall i, j | 0 <= i < j < |r|
      ensures IndexOf(xs, r[i]) < IndexOf(xs, r[j])
    {
      assert r[j] == rest[j - 1];
      if i > 0 {
        assert r[i] == rest[i - 1];
      }
    }
  }

  /** Filtering keeps the relative order, so it keeps first-occurrence order
      with respect to any reference sequence. */
  lemma {:induction false} FilterKeepsOrder<T(!new)>(ys: seq<T>, xs: seq<T>, keep: T -> bool)
    requires InFirstOccurrenceOrder(ys, xs)
    ensures InFirstOccurrenceOrder(Filter(ys, keep), xs)
    decreases |ys|
  {
    if |ys| > 0 {
      var tail := ys[1..];
      OrderedTail(ys, xs);
      FilterKeepsOrder(tail, xs, keep);
      var rest := Filter(tail, keep);
      if keep(ys[0]) {
        forall z | z in rest
          ensures IndexOf(xs, ys[0]) < IndexOf(xs, z)
        {
          var k :| 0 <= k < |tail| && tail[k] == z;
          assert ys[k + 1] == z;
        }
        OrderedCons(ys[0], rest, xs);
      }
    }
  }

  /** A new element at the end of the input is appended to the output. */
  lemma UniqueSnoc<T(!new)>(p: seq<T>, last: T)
    requires last !in p
    ensures Unique(p + [last]) == Unique(p) + [last]
  {
    var xs := p + [last];
    assert xs[..|xs| - 1] == p;
  }

  /** Dropping the last element of a sequence without repeats leaves one
      without repeats that does not hold that element. */
  lemma DistinctInit<T>(xs: seq<T>)
    requires Distinct(xs) && |xs| > 0
    ensures Distinct(xs[..|xs| - 1]) && xs[|xs| - 1] !in xs[..|xs| - 1]
  {
    var p := xs[..|xs| - 1];
    forall i, j | 0 <= i < j < |p| ensures p[i] != p[j] {
      assert p[i] == xs[i] && p[j] == xs[j];
    }
    forall k | 0 <= k < |p| ensures p[k] != xs[|xs| - 1] {
      assert p[k] == xs[k];
    }
  }

  /** A sequence without repeats is its own `[...new Set(xs)]`. */
  lemma {:induction false} UniqueOfDistinct<T(!new)>(xs: seq<T>)
    requires Distinct(xs)
    ensures Unique(xs) == xs
  {
    if |xs| > 0 {
      var p := xs[..|xs| - 1];
      var last := xs[|xs| - 1];
      assert xs == p + [last];
      DistinctInit(xs);
      UniqueSnoc(p, last);
      UniqueOfDistinct(p);
    }
  }

  /** Filtering with a test every element passes changes nothing. */
  lemma {:induction false} FilterKeepsAll<T(!new)>(xs: seq<T>, keep: T -> bool)
    requires forall i :: 0 <= i < |xs| ==> keep(xs[i])
    ensures Filter(xs, keep) == xs
  {
    if |xs| > 0 {
      FilterKeepsAll(xs[1..], keep);
      assert keep(xs[0]);
      assert xs == [xs[0]] + xs[1..];
    }
  }

  /** Filtering a concatenation filters each part in place: the kept
      elements stay in the order they had, so with `Filter([x], keep)` being
      `[x]` or `[]` this fixes the result element by element. */
  lemma {:induction false} FilterAppend<T(!new)>(xs: seq<T>, ys: seq<T>, keep: T -> bool)
    ensures Filter(xs + ys, keep) == Filter(xs, keep) + Filter(ys, keep)
    decreases |xs|
  {
    if |xs| > 0 {
      assert (xs + ys)[0] == xs[0] && (xs + ys)[1..] == xs[1..] + ys;
      FilterAppend(xs[1..], ys, keep);
    } else {
      assert xs + ys == ys;
    }
  }

  /** `xs.slice().reverse()`. */
  function Reverse<T>(xs: seq<T>): (r: seq<T>)
    ensures |r| == |xs|
    ensures forall i :: 0 <= i < |r| ==> r[i] == xs[|xs| - 1 - i]
  {
    if |xs| == 0 then [] else [xs[|xs| - 1]] + Reverse(xs[..|xs| - 1])
  }

  function Min(a: int, b: int): int {
    if a <= b then a else b
  }

  /** `xs.slice(-n)` for a positive `n`: the last `n` elements, or all of them
      when there are fewer. */
  function TakeLast<T>(xs: seq<T>, n: nat): (r: seq<T>)
    requires n > 0
    ensures |r| == Min(n, |xs|)
    ensures r == xs[|xs| - |r|..]
  {
    if |xs| <= n then xs else xs[|xs| - n..]
  }

  /** The number of leading elements `drop` holds for. */
  function LeadingCount<T>(s: seq<T>, drop: T -> bool): (n: nat)
    ensures n <= |s|
    ensures forall k :: 0 <= k < n ==> drop(s[k])
    ensures n == |s| || !drop(s[n])
    decreases |s|
  {
    if |s| > 0 && drop(s[0]) then
      var m := LeadingCount(s[1..], drop);
      assert forall k :: 1 <= k < 1 + m ==> s[k] == s[1..][k - 1];
      1 + m
    else 0
  }

  /** The number of trailing elements `drop` holds for. */
  function TrailingCount<T>(s: seq<T>, drop: T -> bool): (n: nat)
    ensures n <= |s|
    ensures forall k :: |s| - n <= k < |s| ==> drop(s[k])
    ensures n == |s| || !drop(s[|s| - 1 - n])
    decreases |s|
  {
    if |s| > 0 && drop(s[|s| - 1]) then
      var m := TrailingCount(s[..|s| - 1], drop);
      assert forall k :: |s| - 1 - m <= k < |s| - 1 ==> s[k] == s[..|s| - 1][k];
      1 + m
    else 0
  }

  /** `s` without the elements `drop` holds for at either end: a contiguous
      slice starting after the leading run, with `drop` holding everywhere
      outside it and at neither of its ends. */
  function Strip<T>(s: seq<T>, drop: T -> bool): (r: seq<T>)
    ensures var i := LeadingCount(s, drop);
      && i + |r| <= |s| && r == s[i..i + |r|]
      && (forall k :: 0 <= k < i ==> drop(s[k]))
      && (forall k :: i + |r| <= k < |s| ==> drop(s[k]))
    ensures r == [] || (!drop(r[0]) && !drop(r[|r| - 1]))
  {
    var i := LeadingCount(s, drop);
    var rest := s[i..];
    var t := TrailingCount(rest, drop);
    assert forall k :: |s| - t <= k < |s| ==> s[k] == rest[k - i];
    s[i..|s| - t]
  }

  /** Two non-empty sequences with the same head, whose tails differ by a
      suffix, differ by that suffix. */
  lemma SameHeadAppend<T>(a: seq<T>, b: seq<T>, suffix: seq<T>)
    requires |a| > 0 && |b| > 0 && b[0] == a[0] && b[1..] == a[1..] + suffix
    ensures b == a + suffix
  {
    assert b == [b[0]] + b[1..];
    assert a == [a[0]] + a[1..];
  }
}
