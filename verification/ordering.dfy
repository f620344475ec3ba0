/** First occurrences in sequences, and finite sets of numbers in ascending order. */
module Ordering {
  import opened Sets

  function Elements<T(==)>(xs: seq<T>): set<T> {
    set x | x in xs
  }

  lemma ElementsAppend<T>(xs: seq<T>, x: T)
    ensures Elements(xs + [x]) == Elements(xs) + {x}
  {}

  lemma SomeElement<T>(xs: seq<T>)
    requires xs != []
    ensures Elements(xs) != {}
  {
    assert xs[0] in Elements(xs);
  }

  /** No earlier element has the key of the element at `p`. */
  ghost predicate IsNew<T, K>(xs: seq<T>, key: T -> K, p: nat)
    requires p < |xs|
  {
    forall j :: 0 <= j < p ==> key(xs[j]) != key(xs[p])
  }

  /** The elements whose key occurs for the first time, in order. */
  ghost function Firsts<T, K>(xs: seq<T>, key: T -> K): seq<T> {
    if xs == [] then []
    else
      var n := |xs| - 1;
      Firsts(xs[..n], key) + if IsNew(xs, key, n) then [xs[n]] else []
  }

  /** The positions of the first occurrences ascend, and there is one for every new key. */
  lemma {:induction false} FirstsKeepOrder<T, K>(xs: seq<T>, key: T -> K) returns (positions: seq<int>)
    ensures IsAscending(positions) && |positions| == |Firsts(xs, key)|
    ensures forall i :: 0 <= i < |positions| ==> 0 <= positions[i] < |xs| && Firsts(xs, key)[i] == xs[positions[i]]
    ensures forall p :: 0 <= p < |xs| ==> (p in positions <==> IsNew(xs, key, p))
  {
    positions := [];
    if xs != [] {
      var n := |xs| - 1;
      positions := FirstsKeepOrder(xs[..n], key);
      assert forall p :: 0 <= p < n ==> (IsNew(xs[..n], key, p) <==> IsNew(xs, key, p));
      assert n !in positions;
      if IsNew(xs, key, n) {
        positions := positions + [n];
      }
    }
  }

  lemma FirstsGrow<T, K>(xs: seq<T>, key: T -> K, n: nat)
    requires n < |xs|
    ensures Firsts(xs[..n + 1], key) == Firsts(xs[..n], key) + if IsNew(xs, key, n) then [xs[n]] else []
  {
    assert xs[..n + 1][..n] == xs[..n];
    assert IsNew(xs[..n + 1], key, n) <==> IsNew(xs, key, n);
  }

  ghost predicate IsAscending(xs: seq<int>) {
    forall i, j :: 0 <= i < j < |xs| ==> xs[i] < xs[j]
  }

  ghost function Least(s: set<int>): (x: int)
    requires s != {}
    ensures x in s && forall y :: y in s ==> x <= y
    decreases |s|
  {
    var x := Pick(s);
    if s == {x} then x
    else
      var y := Least(s - {x});
      assert forall z :: z in s && z != x ==> z in s - {x};
      if x < y then x else y
  }

  ghost function Ascending(s: set<int>): seq<int>
    decreases |s|
  {
    if s == {} then [] else [Least(s)] + Ascending(s - {Least(s)})
  }

  lemma Prepended(x: int, rest: seq<int>)
    requires IsAscending(rest) && forall y :: y in rest ==> x < y
    ensures IsAscending([x] + rest)
    ensures forall y :: y in [x] + rest <==> y == x || y in rest
  {
    assert forall i :: 0 <= i < |rest| ==> rest[i] in rest;
  }

  lemma {:induction false} AscendingOrders(s: set<int>)
    ensures IsAscending(Ascending(s)) && forall x :: x in Ascending(s) <==> x in s
    ensures s != {} ==> Ascending(s) != [] && Ascending(s)[0] == Least(s)
    decreases |s|
  {
    if s != {} {
      var x := Least(s);
      var rest := Ascending(s - {x});
      AscendingOrders(s - {x});
      assert forall y :: y in rest ==> x < y;
      hide Least, Ascending, IsAscending;
      Prepended(x, rest);
    }
  }

  lemma {:induction false} AscendingIsUnique(a: seq<int>, b: seq<int>)
    requires IsAscending(a) && IsAscending(b) && forall x :: x in a <==> x in b
    ensures a == b
  {
    assert b != [] ==> b[0] in b;
    if a != [] {
      assert a[0] in a;
      assert a[0] == b[0];
      forall x
        ensures x in a[1..] <==> x in b[1..]
      {
        assert x in a <==> x == a[0] || x in a[1..];
        assert x in b <==> x == b[0] || x in b[1..];
      }
      AscendingIsUnique(a[1..], b[1..]);
    }
  }

  /** `sort.Slice` on distinct numbers. */
  method SortDistinct(xs: seq<int>) returns (ys: seq<int>)
    requires forall i, j :: 0 <= i < j < |xs| ==> xs[i] != xs[j]
    ensures ys == Ascending(Elements(xs))
  {
    ys := [];
    for k := 0 to |xs|
      invariant IsAscending(ys) && forall x :: x in ys <==> x in xs[..k]
    {
      var i := 0;
      while i < |ys| && ys[i] < xs[k]
        invariant 0 <= i <= |ys|
        invariant forall j :: 0 <= j < i ==> ys[j] < xs[k]
      {
        i := i + 1;
      }
      assert xs[k] !in xs[..k];
      assert i < |ys| ==> ys[i] in ys;
      assert xs[..k + 1] == xs[..k] + [xs[k]];
      ghost var before := ys;
      ys := ys[..i] + [xs[k]] + ys[i..];
      assert before == before[..i] + before[i..];
    }
    assert xs[..|xs|] == xs;
    AscendingOrders(Elements(xs));
    AscendingIsUnique(ys, Ascending(Elements(xs)));
  }

  lemma {:induction false} AscendingLength(s: set<int>)
    ensures |Ascending(s)| == |s|
    decreases |s|
  {
    if s != {} {
      AscendingLength(s - {Least(s)});
    }
  }

  /** The elements of a set in order; the set is enumerated in any order. */
  method SortedSet(s: set<int>) returns (sorted: seq<int>)
    ensures sorted == Ascending(s)
  {
    var rest := s;
    var found: seq<int> := [];
    while rest != {}
      invariant rest <= s && Elements(found) == s - rest
      invariant forall i, j :: 0 <= i < j < |found| ==> found[i] != found[j]
      decreases |rest|
    {
      ghost var some := Pick(rest);
      var x :| x in rest;
      assert x !in Elements(found);
      ElementsAppend(found, x);
      found := found + [x];
      rest := rest - {x};
    }
    assert s - rest == s;
    sorted := SortDistinct(found);
  }
}
