/**
 * String order as the document store and Python compare strings: code point by code point,
 * a proper prefix sorting first. Dafny's built-in `<` on sequences is the prefix order, so
 * the lexicographic order is defined here, together with the sorting used for the filter
 * choice lists.
 */
module Collation {

  /** `a` sorts at or before `b`. */
  predicate LexLe(a: string, b: string)
    decreases |a|
  {
    |a| == 0 || (|b| > 0 && (a[0] < b[0] || (a[0] == b[0] && LexLe(a[1..], b[1..]))))
  }

  /** `a` sorts strictly before `b`. */
  predicate LexLess(a: string, b: string)
  {
    LexLe(a, b) && a != b
  }

  lemma {:induction false} LexLeReflexive(a: string)
    ensures LexLe(a, a)
    decreases |a|
  {
    if |a| > 0 {
      LexLeReflexive(a[1..]);
    }
  }

  lemma {:induction false} LexLeAntisymmetric(a: string, b: string)
    requires LexLe(a, b) && LexLe(b, a)
    ensures a == b
    decreases |a|
  {
    if |a| > 0 {
      LexLeAntisymmetric(a[1..], b[1..]);
      assert a == [a[0]] + a[1..] && b == [b[0]] + b[1..];
    }
  }

  lemma {:induction false} LexLeTransitive(a: string, b: string, c: string)
    requires LexLe(a, b) && LexLe(b, c)
    ensures LexLe(a, c)
    decreases |a|
  {
    if |a| > 0 && a[0] == b[0] && b[0] == c[0] {
      LexLeTransitive(a[1..], b[1..], c[1..]);
    }
  }

  lemma {:induction false} LexLeTotal(a: string, b: string)
    ensures LexLe(a, b) || LexLe(b, a)
    decreases |a|
  {
    if |a| > 0 && |b| > 0 && a[0] == b[0] {
      LexLeTotal(a[1..], b[1..]);
    }
  }

  /** Comparing two strings whose first parts have the same length: the first parts decide,
      and only when they are equal do the second parts. */
  lemma {:induction false} LexLeAppend(x: string, y: string, x': string, y': string)
    requires |x| == |x'|
    ensures LexLe(x + y, x' + y') <==> LexLess(x, x') || (x == x' && LexLe(y, y'))
    decreases |x|
  {
    if |x| == 0 {
      assert x + y == y && x' + y' == y';
    } else {
      assert (x + y)[0] == x[0] && (x' + y')[0] == x'[0];
      assert (x + y)[1..] == x[1..] + y && (x' + y')[1..] == x'[1..] + y';
      LexLeAppend(x[1..], y, x'[1..], y');
      assert x == [x[0]] + x[1..] && x' == [x'[0]] + x'[1..];
    }
  }

  /** Strictly increasing: sorted and free of duplicates. */
  predicate StrictlySorted(s: seq<string>)
  {
    forall i, j :: 0 <= i < j < |s| ==> LexLess(s[i], s[j])
  }

  predicate NoDuplicates(s: seq<string>)
  {
    forall i, j :: 0 <= i < j < |s| ==> s[i] != s[j]
  }

  /** Keeps the last occurrence of each value. */
  function Dedupe(xs: seq<string>): (r: seq<string>)
    ensures NoDuplicates(r)
    ensures forall v :: v in r <==> v in xs
  {
    if xs == [] then []
    else if xs[0] in xs[1..] then Dedupe(xs[1..])
    else [xs[0]] + Dedupe(xs[1..])
  }

  /** A value outside a strictly increasing sequence and below its head is below all of it. */
  lemma BelowHead(x: string, s: seq<string>)
    requires StrictlySorted(s) && s != [] && LexLess(x, s[0]) && x !in s
    ensures forall k :: 0 <= k < |s| ==> LexLess(x, s[k])
  {
    forall k | 0 < k < |s| ensures LexLess(x, s[k]) {
      LexLeTransitive(x, s[0], s[k]);
    }
  }

  /** The head of a strictly increasing sequence is below every value of its tail, and so
      below every value of a sequence made of the tail and a larger value. */
  lemma HeadBelow(s: seq<string>, x: string, rest: seq<string>)
    requires StrictlySorted(s) && s != [] && LexLess(s[0], x)
    requires multiset(rest) == multiset(s[1..]) + multiset{x}
    ensures forall v :: v in rest ==> LexLess(s[0], v)
  {
    forall v | v in rest ensures LexLess(s[0], v) {
      assert v in multiset(rest);
      if v != x {
        assert v in multiset(s[1..]);
        var k :| 0 <= k < |s[1..]| && s[1..][k] == v;
        assert s[k + 1] == v;
      }
    }
  }

  /** Places `x` into a strictly increasing sequence that does not hold it. */
  function Insert(x: string, s: seq<string>): (r: seq<string>)
    requires StrictlySorted(s) && x !in s
    ensures StrictlySorted(r)
    ensures multiset(r) == multiset(s) + multiset{x}
  {
    if s == [] then [x]
    else if LexLess(x, s[0]) then
      BelowHead(x, s);
      [x] + s
    else
      LexLeTotal(x, s[0]);
      var rest := Insert(x, s[1..]);
      assert s == [s[0]] + s[1..];
      HeadBelow(s, x, rest);
      [s[0]] + rest
  }

  /** The head of a duplicate-free sequence occurs nowhere in its tail. */
  lemma HeadNotInTail(xs: seq<string>)
    requires NoDuplicates(xs) && xs != []
    ensures xs[0] !in multiset(xs[1..])
  {
  }

  /** Sorts a duplicate-free sequence into strictly increasing order. */
  function SortDistinct(xs: seq<string>): (r: seq<string>)
    requires NoDuplicates(xs)
    ensures StrictlySorted(r)
    ensures multiset(r) == multiset(xs)
  {
    if xs == [] then []
    else
      var rest := SortDistinct(xs[1..]);
      HeadNotInTail(xs);
      assert xs == [xs[0]] + xs[1..];
      Insert(xs[0], rest)
  }

  /** A strictly increasing sequence is determined by its elements, so every correct sort of
      the same values yields the same list. */
  lemma {:induction false} StrictlySortedUnique(a: seq<string>, b: seq<string>)
    requires StrictlySorted(a) && StrictlySorted(b)
    requires forall v :: v in a <==> v in b
    ensures a == b
    decreases |a|
  {
    assert a != [] ==> a[0] in a;
    assert b != [] ==> b[0] in b;
    if a != [] && b != [] {
      assert a[0] == b[0] by {
        assert a[0] in b && b[0] in a;
        var i :| 0 <= i < |b| && b[i] == a[0];
        var j :| 0 <= j < |a| && a[j] == b[0];
        if a[0] != b[0] {
          assert i > 0 && j > 0;
          LexLeTransitive(a[0], a[j], b[i]);
          LexLeAntisymmetric(b[0], a[0]);
        }
      }
      forall v ensures v in a[1..] <==> v in b[1..] {
        if v in a[1..] {
          var k :| 0 <= k < |a[1..]| && a[1..][k] == v;
          assert LexLess(a[0], a[k + 1]);
          assert v in b && v != b[0];
          var m :| 0 <= m < |b| && b[m] == v;
          assert b[1..][m - 1] == v;
        }
        if v in b[1..] {
          var k :| 0 <= k < |b[1..]| && b[1..][k] == v;
          assert LexLess(b[0], b[k + 1]);
          assert v in a && v != a[0];
          var m :| 0 <= m < |a| && a[m] == v;
          assert a[1..][m - 1] == v;
        }
      }
      StrictlySortedUnique(a[1..], b[1..]);
      assert a == [a[0]] + a[1..] && b == [b[0]] + b[1..];
    }
  }
}
