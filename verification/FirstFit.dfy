// The push-right packing loop of canFit (src/SpectrumTimeline.cpp:126-164).
//
// Candidate positions start at the low edge of the window. A candidate that
// clashes with an occupied interval is pushed to the upper end of the first one
// it clashes with, until it clashes with none or runs out of the window.
module FirstFit {
  import opened Basics

  datatype Interval = Interval(lo: real, hi: real)

  // Would [x, x + width) cut into the interval?
  predicate Hits(iv: Interval, x: real, width: real)
  {
    x < iv.hi && iv.lo < x + width
  }

  ghost predicate Clear(occ: seq<Interval>, x: real, width: real)
  {
    forall iv :: iv in occ ==> !Hits(iv, x, width)
  }

  // x is a position the new slice could take in the window [lo, hi].
  ghost predicate Feasible(occ: seq<Interval>, lo: real, hi: real, width: real, x: real)
  {
    lo <= x && x + width <= hi && Clear(occ, x, width)
  }

  ghost predicate LeastFeasible(occ: seq<Interval>, lo: real, hi: real, width: real, x: real)
  {
    Feasible(occ, lo, hi, width, x)
    && forall y :: Feasible(occ, lo, hi, width, y) ==> x <= y
  }

  // The upper end of the first interval that [x, x + width) clashes with.
  function FirstHit(occ: seq<Interval>, x: real, width: real): (push: Option<real>)
    ensures push.None? <==> Clear(occ, x, width)
    ensures push.Some? ==> exists i :: 0 <= i < |occ| && Hits(occ[i], x, width) && push.value == occ[i].hi
  {
    if occ == [] then None
    else if Hits(occ[0], x, width) then Some(occ[0].hi)
    else
      var rest := FirstHit(occ[1..], x, width);
      assert forall iv :: iv in occ <==> iv == occ[0] || iv in occ[1..];
      rest
  }

  // Termination measure: the intervals whose upper end lies above x.
  ghost function Above(occ: seq<Interval>, x: real): set<int>
  {
    set i | 0 <= i < |occ| && occ[i].hi > x
  }

  function PushRight(occ: seq<Interval>, x: real, hi: real, width: real): Option<real>
    decreases Above(occ, x)
  {
    if x + width > hi then None
    else
      var push := FirstHit(occ, x, width);
      if push.None? then Some(x)
      else
        PushShrinks(occ, x, width);
        PushRight(occ, push.value, hi, width)
  }

  lemma PushShrinks(occ: seq<Interval>, x: real, width: real)
    requires FirstHit(occ, x, width).Some?
    ensures x < FirstHit(occ, x, width).value
    ensures Above(occ, FirstHit(occ, x, width).value) < Above(occ, x)
  {
    var push := FirstHit(occ, x, width).value;
    var i :| 0 <= i < |occ| && Hits(occ[i], x, width) && push == occ[i].hi;
    assert i in Above(occ, x) && i !in Above(occ, push);
  }

  // First-fit is sound and complete, for every set of occupied intervals: the
  // position found is the least feasible one, and there is a position exactly
  // when a feasible one exists.
  lemma {:induction false} FindsLeastFeasible(occ: seq<Interval>, lo: real, hi: real, width: real)
    ensures var place := PushRight(occ, lo, hi, width);
            && (place.Some? ==> LeastFeasible(occ, lo, hi, width, place.value))
            && (place.None? ==> forall x :: !Feasible(occ, lo, hi, width, x))
    decreases Above(occ, lo)
  {
    if lo + width > hi {
    } else {
      var push := FirstHit(occ, lo, width);
      if push.Some? {
        PushShrinks(occ, lo, width);
        FindsLeastFeasible(occ, push.value, hi, width);
        forall x | Feasible(occ, lo, hi, width, x)
          ensures Feasible(occ, push.value, hi, width, x)
        {
          var i :| 0 <= i < |occ| && Hits(occ[i], lo, width) && push.value == occ[i].hi;
          assert !Hits(occ[i], x, width);
        }
        forall x | Feasible(occ, push.value, hi, width, x)
          ensures Feasible(occ, lo, hi, width, x)
        {
        }
      }
    }
  }

  // The placement depends on which intervals are occupied, not on their order
  // or on how often one is listed, so the sort before the loop does not change it.
  lemma OrderDoesNotMatter(occ: seq<Interval>, occ': seq<Interval>, lo: real, hi: real, width: real)
    requires Elements(occ) == Elements(occ')
    ensures PushRight(occ, lo, hi, width) == PushRight(occ', lo, hi, width)
  {
    FindsLeastFeasible(occ, lo, hi, width);
    FindsLeastFeasible(occ', lo, hi, width);
    assert forall iv :: iv in occ <==> iv in Elements(occ);
    assert forall iv :: iv in occ' <==> iv in Elements(occ');
    assert forall x :: Feasible(occ, lo, hi, width, x) <==> Feasible(occ', lo, hi, width, x);
  }

  // std::sort on pairs: by lower end, then by upper end.
  predicate NotAfter(a: Interval, b: Interval)
  {
    a.lo < b.lo || (a.lo == b.lo && a.hi <= b.hi)
  }

  function InsertSorted(iv: Interval, s: seq<Interval>): (r: seq<Interval>)
    ensures multiset(r) == multiset(s) + multiset{iv}
  {
    if s == [] then [iv]
    else if NotAfter(iv, s[0]) then
      [iv] + s
    else
      assert s == [s[0]] + s[1..];
      [s[0]] + InsertSorted(iv, s[1..])
  }

  function Sorted(s: seq<Interval>): (r: seq<Interval>)
    ensures multiset(r) == multiset(s)
  {
    if s == [] then []
    else
      assert s == [s[0]] + s[1..];
      InsertSorted(s[0], Sorted(s[1..]))
  }

  ghost predicate InOrder(s: seq<Interval>)
  {
    forall i, j :: 0 <= i < j < |s| ==> NotAfter(s[i], s[j])
  }

  lemma FirstBeforeAll(first: Interval, rest: seq<Interval>, iv: Interval)
    requires NotAfter(first, iv) && forall r :: r in rest ==> NotAfter(first, r)
    ensures forall r :: r in InsertSorted(iv, rest) ==> NotAfter(first, r)
  {
    forall r | r in InsertSorted(iv, rest)
      ensures NotAfter(first, r)
    {
      assert r in multiset(InsertSorted(iv, rest));
    }
  }

  lemma {:induction false} InsertKeepsOrder(iv: Interval, s: seq<Interval>)
    requires InOrder(s)
    ensures InOrder(InsertSorted(iv, s))
  {
    if s == [] || NotAfter(iv, s[0]) {
    } else {
      InsertKeepsOrder(iv, s[1..]);
      FirstBeforeAll(s[0], s[1..], iv);
    }
  }

  lemma {:induction false} SortedIsInOrder(s: seq<Interval>)
    ensures InOrder(Sorted(s))
  {
    if s == [] {
    } else {
      SortedIsInOrder(s[1..]);
      InsertKeepsOrder(s[0], Sorted(s[1..]));
    }
  }

  lemma SortedElements(s: seq<Interval>)
    ensures Elements(Sorted(s)) == Elements(s)
  {
    assert forall iv :: iv in s <==> iv in multiset(s);
    assert forall iv :: iv in Sorted(s) <==> iv in multiset(Sorted(s));
  }

  // The loop itself: the scan for the first clash, and the push to its end.
  method Pack(occ: seq<Interval>, lo: real, hi: real, width: real) returns (place: Option<real>)
    ensures place == PushRight(occ, lo, hi, width)
  {
    var tryLo := lo;
    while true
      invariant PushRight(occ, tryLo, hi, width) == PushRight(occ, lo, hi, width)
      decreases Above(occ, tryLo)
    {
      if tryLo + width > hi {
        return None;
      }
      var push: Option<real> := None;
      var i := 0;
      while i < |occ| && push == None
        invariant 0 <= i <= |occ|
        invariant push == None ==> FirstHit(occ[i..], tryLo, width) == FirstHit(occ, tryLo, width)
        invariant push != None ==> push == FirstHit(occ, tryLo, width)
      {
        if Hits(occ[i], tryLo, width) {
          push := Some(occ[i].hi);
        }
        i := i + 1;
      }
      if push == None {
        return Some(tryLo);
      }
      PushShrinks(occ, tryLo, width);
      tryLo := push.value;
    }
  }

  method SortAndPack(occ: seq<Interval>, lo: real, hi: real, width: real) returns (place: Option<real>)
    ensures place == PushRight(occ, lo, hi, width)
  {
    SortedElements(occ);
    OrderDoesNotMatter(Sorted(occ), occ, lo, hi, width);
    place := Pack(Sorted(occ), lo, hi, width);
  }
}
