// Small vocabulary shared by the other modules.
module Basics {

  datatype Option<+T> = None | Some(value: T)

  function Max(a: int, b: int): int { if a < b then b else a }

  function Min(a: int, b: int): int { if a < b then a else b }

  function MaxR(a: real, b: real): real { if a < b then b else a }

  function MinR(a: real, b: real): real { if b < a then b else a }

  // The least integer that is not below x, C's ceil.
  function Ceil(x: real): (n: int)
    ensures x <= n as real < x + 1.0
  {
    -((-x).Floor)
  }

  function Abs(x: real): real { if x < 0.0 then -x else x }

  // C's round(): nearest integer, halves away from zero.
  function Round(x: real): int
  {
    if x < 0.0 then -((0.5 - x).Floor) else (x + 0.5).Floor
  }

  lemma RoundIsWithinHalf(x: real)
    ensures if x < 0.0 then x - 0.5 <= Round(x) as real < x + 0.5 else x - 0.5 < Round(x) as real <= x + 0.5
  {
  }

  // No integer is nearer, and of two as near it is the one further from zero.
  lemma RoundIsNearest(x: real, n: int)
    ensures Abs(x - Round(x) as real) <= Abs(x - n as real)
    ensures Abs(x - Round(x) as real) == Abs(x - n as real) ==> Abs(Round(x) as real) >= Abs(n as real)
  {
    RoundIsWithinHalf(x);
    var r := Round(x);
    if n < r {
      assert n as real <= r as real - 1.0;
    } else if n > r {
      assert n as real >= r as real + 1.0;
    }
  }

  function Elements<T>(s: seq<T>): set<T> { set x | x in s }

  lemma ElementsConcat<T>(a: seq<T>, b: seq<T>)
    ensures Elements(a + b) == Elements(a) + Elements(b)
  {
    assert forall x :: x in a + b <==> x in a || x in b;
  }

  ghost predicate NoDuplicates<T>(s: seq<T>)
  {
    forall i, j :: 0 <= i < j < |s| ==> s[i] != s[j]
  }

  ghost predicate Ascending(s: seq<int>)
  {
    forall i, j :: 0 <= i < j < |s| ==> s[i] < s[j]
  }

  lemma {:induction false} ElementsSize<T>(s: seq<T>)
    ensures |Elements(s)| <= |s|
    ensures NoDuplicates(s) ==> |Elements(s)| == |s|
  {
    if s == [] {
    } else {
      var n := |s| - 1;
      ElementsSize(s[..n]);
      assert Elements(s) == Elements(s[..n]) + {s[n]};
    }
  }

  lemma PickElement<T>(s: set<T>) returns (x: T)
    requires s != {}
    ensures x in s
  {
    x :| x in s;
  }

  lemma SubsetSize<T>(a: set<T>, b: set<T>)
    requires a <= b
    ensures |a| <= |b|
    ensures a != b ==> |a| < |b|
  {
    assert b == a + (b - a);
    assert a != b ==> b - a != {};
  }

  predicate Between(lo: int, i: int, hi: int) { lo <= i < hi }

  // The integers lo, ..., hi - 1.
  function Range(lo: int, hi: int): (r: set<int>)
  {
    set i | lo <= i < hi && Between(lo, i, hi)
  }

  lemma {:induction false} RangeSize(lo: int, hi: int)
    requires lo <= hi
    ensures |Range(lo, hi)| == hi - lo
    decreases hi - lo
  {
    if lo == hi {
    } else {
      RangeSize(lo, hi - 1);
      assert Range(lo, hi) == Range(lo, hi - 1) + {hi - 1};
    }
  }
}
