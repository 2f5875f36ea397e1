/**
 Filtering a sequence by a predicate, and counting what the filter keeps in
 terms of positions of the original sequence.
 */
module Filtering {

  /** The elements of `s` that satisfy `p`, in their original order. */
  function Filter<T(==,!new)>(p: T -> bool, s: seq<T>): (r: seq<T>)
    ensures |r| <= |s|
    ensures forall i :: 0 <= i < |r| ==> p(r[i])
    ensures forall x :: x in r <==> x in s && p(x)
    ensures forall x :: multiset(r)[x] == if p(x) then multiset(s)[x] else 0
    decreases |s|
  {
    if |s| == 0 then []
    else
      assert s == [s[0]] + s[1..];
      var rest := Filter(p, s[1..]);
      if p(s[0]) then [s[0]] + rest else rest
  }

  /** The filter keeps something exactly when some position satisfies `p`. */
  lemma AtLeastOneIffPosition<T(!new)>(p: T -> bool, s: seq<T>)
    ensures |Filter(p, s)| >= 1 <==> exists i :: 0 <= i < |s| && p(s[i])
  {
    var r := Filter(p, s);
    if |r| >= 1 {
      assert r[0] in s;
    }
    if exists i :: 0 <= i < |s| && p(s[i]) {
      var i :| 0 <= i < |s| && p(s[i]);
      assert s[i] in r;
    }
  }

  /** The filter keeps two or more elements exactly when two different
      positions satisfy `p`. */
  lemma {:induction false} AtLeastTwoIffTwoPositions<T(!new)>(p: T -> bool, s: seq<T>)
    ensures |Filter(p, s)| >= 2 <==> TwoPositions(p, s)
    decreases |s|
  {
    if |s| > 0 {
      var tail := s[1..];
      AtLeastTwoIffTwoPositions(p, tail);
      AtLeastOneIffPosition(p, tail);
      if p(s[0]) {
        assert |Filter(p, s)| == 1 + |Filter(p, tail)|;
        TwoPositionsWithHead(p, s);
      } else {
        assert |Filter(p, s)| == |Filter(p, tail)|;
        TwoPositionsWithoutHead(p, s);
      }
    }
  }

  /** Two different positions of `s` satisfy `p`. */
  predicate TwoPositions<T>(p: T -> bool, s: seq<T>) {
    exists i, j :: 0 <= i < j < |s| && p(s[i]) && p(s[j])
  }

  /** When the head satisfies `p`, a second position is any position of the tail. */
  lemma TwoPositionsWithHead<T>(p: T -> bool, s: seq<T>)
    requires |s| > 0 && p(s[0])
    ensures TwoPositions(p, s) <==> exists j :: 0 <= j < |s[1..]| && p(s[1..][j])
  {
    if TwoPositions(p, s) {
      var i, j :| 0 <= i < j < |s| && p(s[i]) && p(s[j]);
      assert s[1..][j - 1] == s[j];
    }
    if exists j :: 0 <= j < |s[1..]| && p(s[1..][j]) {
      var j :| 0 <= j < |s[1..]| && p(s[1..][j]);
      assert p(s[0]) && p(s[j + 1]);
    }
  }

  /** When the head fails `p`, the two positions both lie in the tail. */
  lemma TwoPositionsWithoutHead<T>(p: T -> bool, s: seq<T>)
    requires |s| > 0 && !p(s[0])
    ensures TwoPositions(p, s) <==> TwoPositions(p, s[1..])
  {
    var tail := s[1..];
    if TwoPositions(p, s) {
      var i, j :| 0 <= i < j < |s| && p(s[i]) && p(s[j]);
      assert tail[i - 1] == s[i] && tail[j - 1] == s[j];
    }
    if TwoPositions(p, tail) {
      var i, j :| 0 <= i < j < |tail| && p(tail[i]) && p(tail[j]);
      assert s[i + 1] == tail[i] && s[j + 1] == tail[j];
    }
  }

  /** Two different elements satisfying `p` sit at two different positions. */
  lemma TwoPositionsOfTwoElements<T>(p: T -> bool, s: seq<T>, x: T, y: T)
    requires x in s && y in s && x != y && p(x) && p(y)
    ensures TwoPositions(p, s)
  {
    var b :| 0 <= b < |s| && s[b] == x;
    var o :| 0 <= o < |s| && s[o] == y;
    if o < b {
      assert 0 <= o < b < |s| && p(s[o]) && p(s[b]);
    } else {
      assert 0 <= b < o < |s| && p(s[b]) && p(s[o]);
    }
  }

  /** In a sequence without repeats, two positions satisfying `p` hold an
      element other than any given one. */
  lemma AnotherOfTwoPositions<T>(p: T -> bool, s: seq<T>, x: T) returns (y: T)
    requires forall i, j :: 0 <= i < j < |s| ==> s[i] != s[j]
    requires TwoPositions(p, s)
    ensures y in s && y != x && p(y)
  {
    var i, j :| 0 <= i < j < |s| && p(s[i]) && p(s[j]);
    assert s[i] != s[j];
    if s[i] != x {
      y := s[i];
    } else {
      y := s[j];
    }
  }

  /** In a sequence without repeats, an element satisfying `p` has company
      in the filter exactly when some other element satisfies `p` too. */
  lemma AtLeastTwoIffAnother<T(!new)>(p: T -> bool, s: seq<T>, x: T)
    requires forall i, j :: 0 <= i < j < |s| ==> s[i] != s[j]
    requires x in s && p(x)
    ensures |Filter(p, s)| >= 2 <==> exists y :: y in s && y != x && p(y)
  {
    AtLeastTwoIffTwoPositions(p, s);
    if exists y :: y in s && y != x && p(y) {
      var y :| y in s && y != x && p(y);
      TwoPositionsOfTwoElements(p, s, x, y);
    }
    if TwoPositions(p, s) {
      var y := AnotherOfTwoPositions(p, s, x);
    }
  }
}
