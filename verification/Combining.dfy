// What canCombine decides (src/SpectrumTimeline.cpp:216-301): the window that covers
// a new slice together with every overlapping one.
module Combining {
  import opened Basics
  import opened Slots
  import opened Channels
  import opened Fitting

  datatype CombineResult =
    | Combined(cf: real, rate: real, lo: real, hi: real, rx: seq<nat>)
    | NotCombined

  function LowEdge(over: seq<Slot>, lo: real): real
  {
    if over == [] then lo else MinR(LowEdge(over[..|over| - 1], lo), over[|over| - 1].lo)
  }

  function HighEdge(over: seq<Slot>, hi: real): real
  {
    if over == [] then hi else MaxR(HighEdge(over[..|over| - 1], hi), over[|over| - 1].hi)
  }

  // A window that holds the slice with the guard band to spare at both ends.
  predicate Covers(cf: real, rate: real, lo: real, hi: real, guardBand: real)
  {
    WindowLo(cf, rate) + guardBand <= lo && hi <= WindowHi(cf, rate) - guardBand
  }

  ghost predicate CoversAll(cf: real, rate: real, over: seq<Slot>, lo: real, hi: real, guardBand: real)
  {
    Covers(cf, rate, lo, hi, guardBand)
    && forall s :: s in over ==> Covers(cf, rate, s.lo, s.hi, guardBand)
  }

  lemma {:induction false} EdgesAreTight(over: seq<Slot>, lo: real, hi: real)
    ensures LowEdge(over, lo) <= lo && HighEdge(over, hi) >= hi
    ensures forall s :: s in over ==> LowEdge(over, lo) <= s.lo && s.hi <= HighEdge(over, hi)
    ensures LowEdge(over, lo) == lo || exists s :: s in over && LowEdge(over, lo) == s.lo
    ensures HighEdge(over, hi) == hi || exists s :: s in over && HighEdge(over, hi) == s.hi
  {
    if over == [] {
    } else {
      var n := |over| - 1;
      EdgesAreTight(over[..n], lo, hi);
      assert forall s :: s in over <==> s in over[..n] || s == over[n];
    }
  }

  function CombinedCf(over: seq<Slot>, lo: real, hi: real): real
  {
    (LowEdge(over, lo) + HighEdge(over, hi)) / 2.0
  }

  function CombinedRate(over: seq<Slot>, lo: real, hi: real, guardBand: real): real
  {
    HighEdge(over, hi) - LowEdge(over, lo) + 2.0 * guardBand
  }

  // The combined window covers everything, and no window that does is narrower.
  // It is the only one of its width.
  lemma CombinedWindowIsNarrowest(over: seq<Slot>, lo: real, hi: real, guardBand: real, cf': real, rate': real)
    ensures var cf := CombinedCf(over, lo, hi);
            var rate := CombinedRate(over, lo, hi, guardBand);
            && CoversAll(cf, rate, over, lo, hi, guardBand)
            && (CoversAll(cf', rate', over, lo, hi, guardBand) ==> rate <= rate')
            && (CoversAll(cf', rate', over, lo, hi, guardBand) && rate == rate' ==> cf == cf')
  {
    EdgesAreTight(over, lo, hi);
  }

  // The channels of one slot, appended while they are new, until there are `count`.
  function Collect(existing: seq<nat>, list: seq<nat>, count: nat): seq<nat>
    decreases list
  {
    if list == [] then existing
    else
      var more := if list[0] in existing then existing else existing + [list[0]];
      if |more| == count then more else Collect(more, list[1..], count)
  }

  function CollectAll(existing: seq<nat>, over: seq<Slot>, count: nat): seq<nat>
    decreases over
  {
    if over == [] then existing
    else
      var more := Collect(existing, over[0].rx, count);
      if |more| == count then more else CollectAll(more, over[1..], count)
  }

  function CombineFor(slots: seq<Slot>, q: Request, lim: Limits, maxRate: real, reuse: bool): CombineResult
  {
    var over := Overlapping(slots, q.start, q.stop);
    var lo := q.cf - q.bw / 2.0;
    var hi := q.cf + q.bw / 2.0;
    var rate := CombinedRate(over, lo, hi, lim.guardBand);
    if over == [] || rate > maxRate then NotCombined
    else if reuse then
      var existing := CollectAll([], over, q.rxCount);
      if existing == [] then NotCombined
      else Combined(CombinedCf(over, lo, hi), rate, lo, hi, existing)
    else if Total(RxLists(over)) + q.rxCount > lim.maxRx then NotCombined
    else
      Combined(CombinedCf(over, lo, hi), rate, lo, hi,
               LowestFree(0, lim.maxRx, Taken(RxLists(over)), q.rxCount))
  }

  lemma {:induction false} CollectKeeps(existing: seq<nat>, list: seq<nat>, count: nat)
    requires NoDuplicates(existing)
    ensures var r := Collect(existing, list, count);
            && NoDuplicates(r) && existing <= r
            && (forall c :: c in r ==> c in existing || c in list)
            && (|existing| < count ==> |r| <= count)
            && (|r| == count || forall c :: c in list ==> c in r)
    decreases list
  {
    if list == [] {
    } else {
      var more := if list[0] in existing then existing else existing + [list[0]];
      assert list == [list[0]] + list[1..] && existing <= more && list[0] in more;
      if |more| != count {
        CollectKeeps(more, list[1..], count);
        var r := Collect(more, list[1..], count);
        assert r == Collect(existing, list, count);
        assert list[0] in r;
      }
    }
  }

  // The channels offered for sharing: no duplicates, all from overlapping slots, no more
  // than asked for, and all there are if that is not enough.
  lemma {:induction false} SharedChannelsOffered(existing: seq<nat>, over: seq<Slot>, count: nat)
    requires NoDuplicates(existing)
    ensures var r := CollectAll(existing, over, count);
            && NoDuplicates(r) && existing <= r
            && (forall c :: c in r ==> c in existing || exists s :: s in over && c in s.rx)
            && (|existing| < count ==> |r| <= count)
            && (|r| == count || forall s, c :: s in over && c in s.rx ==> c in r)
    decreases over
  {
    if over == [] {
    } else {
      CollectKeeps(existing, over[0].rx, count);
      var more := Collect(existing, over[0].rx, count);
      if |more| != count {
        SharedChannelsOffered(more, over[1..], count);
        assert forall s :: s in over <==> s == over[0] || s in over[1..];
      }
    }
  }

  // A combine is refused for its rate exactly when no window within the device's rate
  // could hold all the slices with their guards.
  lemma RefusedOnlyWhenNoWindowFits(over: seq<Slot>, lo: real, hi: real, guardBand: real, maxRate: real)
    ensures CombinedRate(over, lo, hi, guardBand) <= maxRate <==>
            exists cf, rate :: CoversAll(cf, rate, over, lo, hi, guardBand) && rate <= maxRate
  {
    CombinedWindowIsNarrowest(over, lo, hi, guardBand, 0.0, 0.0);
    if cf, rate :| CoversAll(cf, rate, over, lo, hi, guardBand) && rate <= maxRate {
      CombinedWindowIsNarrowest(over, lo, hi, guardBand, cf, rate);
    }
  }

  function Retuned(slots: seq<Slot>, cf: real, rate: real): (r: seq<Slot>)
    ensures |r| == |slots|
    ensures forall i :: 0 <= i < |slots| ==> r[i] == Tuned(slots[i], cf, rate)
  {
    seq(|slots|, i requires 0 <= i < |slots| => Tuned(slots[i], cf, rate))
  }

  // After an accepted combine and the retune that follows, every overlapping slot still
  // lies in its stored window with the guard band to spare, so does the new slice, and
  // nothing but the tuning of any slot has changed.
  lemma CombineKeepsOverlappingSlots(slots: seq<Slot>, q: Request, lim: Limits, maxRate: real, reuse: bool)
    requires CombineFor(slots, q, lim, maxRate, reuse).Combined?
    ensures var r := CombineFor(slots, q, lim, maxRate, reuse);
            var after := Retuned(slots, r.cf, r.rate);
            && r.rate <= maxRate
            && Covers(r.cf, r.rate, r.lo, r.hi, lim.guardBand)
            && (forall s :: s in after && Overlaps(s, q.start, q.stop) ==>
                  Covers(s.cf, s.rate, s.lo, s.hi, lim.guardBand))
            && (forall i :: 0 <= i < |slots| ==>
                  after[i].(cf := slots[i].cf, rate := slots[i].rate) == slots[i])
  {
    var r := CombineFor(slots, q, lim, maxRate, reuse);
    var after := Retuned(slots, r.cf, r.rate);
    var over := Overlapping(slots, q.start, q.stop);
    CombinedWindowIsNarrowest(over, r.lo, r.hi, lim.guardBand, r.cf, r.rate);
    forall s | s in after && Overlaps(s, q.start, q.stop)
      ensures Covers(s.cf, s.rate, s.lo, s.hi, lim.guardBand)
    {
      var i :| 0 <= i < |slots| && after[i] == s;
      assert Overlaps(slots[i], q.start, q.stop) && slots[i] in slots;
    }
  }

  lemma EdgesOfWindow(low: real, high: real, guardBand: real)
    ensures WindowLo((low + high) / 2.0, high - low + 2.0 * guardBand) == low - guardBand
    ensures WindowHi((low + high) / 2.0, high - low + 2.0 * guardBand) == high + guardBand
  {
  }

  // The combined window is what all the slices span, with the guard band at both ends.
  lemma CombinedEdges(slots: seq<Slot>, q: Request, lim: Limits, maxRate: real, reuse: bool)
    requires CombineFor(slots, q, lim, maxRate, reuse).Combined?
    ensures var r := CombineFor(slots, q, lim, maxRate, reuse);
            var over := Overlapping(slots, q.start, q.stop);
            && WindowLo(r.cf, r.rate) == LowEdge(over, q.cf - q.bw / 2.0) - lim.guardBand
            && WindowHi(r.cf, r.rate) == HighEdge(over, q.cf + q.bw / 2.0) + lim.guardBand
  {
    var over := Overlapping(slots, q.start, q.stop);
    EdgesOfWindow(LowEdge(over, q.cf - q.bw / 2.0), HighEdge(over, q.cf + q.bw / 2.0), lim.guardBand);
  }

  // The retune rewrites all slots of the device. Any slot, overlapping or not, has its guard
  // bands inside the window it then stores exactly when it lies between the lowest and the
  // highest edge among the new slice and the overlapping ones.
  lemma RetuneCoversExactly(slots: seq<Slot>, q: Request, lim: Limits, maxRate: real, reuse: bool, i: nat)
    requires CombineFor(slots, q, lim, maxRate, reuse).Combined? && i < |slots|
    ensures var r := CombineFor(slots, q, lim, maxRate, reuse);
            var s := Retuned(slots, r.cf, r.rate)[i];
            var over := Overlapping(slots, q.start, q.stop);
            Covers(s.cf, s.rate, s.lo, s.hi, lim.guardBand) <==>
              LowEdge(over, q.cf - q.bw / 2.0) <= slots[i].lo && slots[i].hi <= HighEdge(over, q.cf + q.bw / 2.0)
  {
    CombinedEdges(slots, q, lim, maxRate, reuse);
  }

  // The same test with the guard band to spare decides whether a slot stays in its window
  // at all.
  lemma RetuneStrandsExactly(slots: seq<Slot>, q: Request, lim: Limits, maxRate: real, reuse: bool, i: nat)
    requires CombineFor(slots, q, lim, maxRate, reuse).Combined? && i < |slots|
    ensures var r := CombineFor(slots, q, lim, maxRate, reuse);
            var s := Retuned(slots, r.cf, r.rate)[i];
            var over := Overlapping(slots, q.start, q.stop);
            s.lo < WindowLo(s.cf, s.rate) || s.hi > WindowHi(s.cf, s.rate) <==>
              || slots[i].lo < LowEdge(over, q.cf - q.bw / 2.0) - lim.guardBand
              || slots[i].hi > HighEdge(over, q.cf + q.bw / 2.0) + lim.guardBand
  {
    CombinedEdges(slots, q, lim, maxRate, reuse);
  }
}
