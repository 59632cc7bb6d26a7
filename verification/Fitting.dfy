// What canFit decides (src/SpectrumTimeline.cpp:19-214), as a function of the slots,
// and what its answers mean.
module Fitting {
  import opened Basics
  import opened Slots
  import opened FirstFit
  import opened Channels

  function RxLists(slots: seq<Slot>): (lists: seq<seq<nat>>)
    ensures |lists| == |slots| && forall i :: 0 <= i < |slots| ==> lists[i] == slots[i].rx
  {
    seq(|slots|, i requires 0 <= i < |slots| => slots[i].rx)
  }

  function TxLists(slots: seq<Slot>): (lists: seq<seq<nat>>)
    ensures |lists| == |slots| && forall i :: 0 <= i < |slots| ==> lists[i] == slots[i].tx
  {
    seq(|slots|, i requires 0 <= i < |slots| => slots[i].tx)
  }

  // Each occupied slice, widened by the guard band on both sides.
  function Padded(slots: seq<Slot>, guardBand: real): (occ: seq<Interval>)
    ensures |occ| == |slots|
    ensures forall i :: 0 <= i < |slots| ==> occ[i] == Interval(slots[i].lo - guardBand, slots[i].hi + guardBand)
  {
    seq(|slots|, i requires 0 <= i < |slots| => Interval(slots[i].lo - guardBand, slots[i].hi + guardBand))
  }

  // preferred is -1 for any channel, or the one channel a single-RX request asks for.
  predicate Pinned(q: Request, preferred: int)
  {
    preferred >= 0 && q.rxCount == 1
  }

  // Independent-LO devices: only channels are shared, and a pinned one must be free.
  function IndependentFit(over: seq<Slot>, q: Request, lim: Limits, preferred: int): FitResult
  {
    if Total(RxLists(over)) + q.rxCount > lim.maxRx then NoFit(ChannelCountExceeded)
    else if Total(TxLists(over)) + q.txCount > lim.maxTx then NoFit(ChannelCountExceeded)
    else if Pinned(q, preferred) && (preferred >= lim.maxRx || preferred in Taken(RxLists(over))) then
      NoFit(ChannelCountExceeded)
    else
      Fit(q.cf, q.rate, q.cf - q.bw / 2.0, q.cf + q.bw / 2.0,
          if Pinned(q, preferred) then [preferred]
          else LowestFree(0, lim.maxRx, Taken(RxLists(over)), q.rxCount),
          LowestFree(0, lim.maxTx, Taken(TxLists(over)), q.txCount))
  }

  // The guard is only padded around a slice that has neighbours.
  function InnerGuard(over: seq<Slot>, lim: Limits): real
  {
    if over == [] then 0.0 else lim.guardBand
  }

  function Placement(over: seq<Slot>, q: Request, lim: Limits): Option<real>
  {
    PushRight(Padded(over, lim.guardBand), WindowLo(q.cf, q.rate), WindowHi(q.cf, q.rate),
              q.bw + 2.0 * InnerGuard(over, lim))
  }

  // A pinned channel of a shared-LO device may already be in use; others must be free.
  function SharedChannels(over: seq<Slot>, q: Request, lim: Limits, preferred: int): Option<(seq<nat>, seq<nat>)>
  {
    if Pinned(q, preferred) && preferred >= lim.maxRx then None
    else if !Pinned(q, preferred) && Total(RxLists(over)) + q.rxCount > lim.maxRx then None
    else if Total(TxLists(over)) + q.txCount > lim.maxTx then None
    else
      Some((if Pinned(q, preferred) then [preferred]
            else LowestFree(0, lim.maxRx, Taken(RxLists(over)), q.rxCount),
            LowestFree(0, lim.maxTx, Taken(TxLists(over)), q.txCount)))
  }

  // Shared-LO devices: one tuning for all overlapping slots, slices packed in the window.
  function SharedFit(over: seq<Slot>, q: Request, lim: Limits, preferred: int): FitResult
  {
    if over != [] && (q.cf != over[0].cf || q.rate != over[0].rate) then NoFit(RetuneConflict)
    else if q.cf - q.bw / 2.0 < WindowLo(q.cf, q.rate) || q.cf + q.bw / 2.0 > WindowHi(q.cf, q.rate) then
      NoFit(SpectrumConflict)
    else
      var place := Placement(over, q, lim);
      if place.None? then NoFit(SpectrumConflict)
      else
        var channels := SharedChannels(over, q, lim, preferred);
        if channels.None? then NoFit(ChannelCountExceeded)
        else
          var lo := place.value + InnerGuard(over, lim);
          Fit(q.cf, q.rate, lo, lo + q.bw, channels.value.0, channels.value.1)
  }

  function FitFor(slots: seq<Slot>, q: Request, lim: Limits, sharedLo: bool, preferred: int): FitResult
  {
    var over := Overlapping(slots, q.start, q.stop);
    if sharedLo then SharedFit(over, q, lim, preferred)
    else IndependentFit(over, q, lim, preferred)
  }

  // ---- What an accepted or refused fit means ----

  // The channels of any fit: exactly the requested number, all different, all on the
  // device, and, unless one channel of a shared-LO device was asked for by number,
  // none of them listed by an overlapping slot.
  lemma FitChannels(slots: seq<Slot>, q: Request, lim: Limits, sharedLo: bool, preferred: int)
    requires FitFor(slots, q, lim, sharedLo, preferred).Fit?
    ensures var fit := FitFor(slots, q, lim, sharedLo, preferred);
            var over := Overlapping(slots, q.start, q.stop);
            && |fit.rx| == q.rxCount && NoDuplicates(fit.rx)
            && |fit.tx| == q.txCount && NoDuplicates(fit.tx)
            && (forall c :: c in fit.rx ==> c < lim.maxRx)
            && (forall c :: c in fit.tx ==> c < lim.maxTx)
            && (!sharedLo || !Pinned(q, preferred) ==> forall s :: s in over ==> Disjoint(fit.rx, s.rx))
            && (forall s :: s in over ==> Disjoint(fit.tx, s.tx))
            && (Pinned(q, preferred) ==> fit.rx == [preferred])
  {
    var over := Overlapping(slots, q.start, q.stop);
    var fit := FitFor(slots, q, lim, sharedLo, preferred);
    if !Pinned(q, preferred) {
      GuardLeavesEnough(RxLists(over), lim.maxRx, q.rxCount);
    }
    GuardLeavesEnough(TxLists(over), lim.maxTx, q.txCount);
    forall s | s in over
      ensures !sharedLo || !Pinned(q, preferred) ==> Disjoint(fit.rx, s.rx)
      ensures Disjoint(fit.tx, s.tx)
    {
      var i :| 0 <= i < |over| && over[i] == s;
      assert RxLists(over)[i] == over[i].rx && over[i].rx in RxLists(over);
      assert TxLists(over)[i] == over[i].tx && over[i].tx in TxLists(over);
      assert forall c: int :: c in over[i].rx ==> c in Taken(RxLists(over));
      assert forall c: int :: c in over[i].tx ==> c in Taken(TxLists(over));
    }
  }

  // The slice of any fit: the width asked for, at the tuning asked for, centred on it if
  // the LO is the channel's own, and inside the window if it is shared.
  lemma FitSlice(slots: seq<Slot>, q: Request, lim: Limits, sharedLo: bool, preferred: int)
    requires FitFor(slots, q, lim, sharedLo, preferred).Fit? && lim.guardBand >= 0.0
    ensures var fit := FitFor(slots, q, lim, sharedLo, preferred);
            && fit.cf == q.cf && fit.rate == q.rate && fit.hi - fit.lo == q.bw
            && (!sharedLo ==> fit.lo + fit.hi == 2.0 * q.cf)
            && (sharedLo ==> WindowLo(fit.cf, fit.rate) <= fit.lo && fit.hi <= WindowHi(fit.cf, fit.rate))
  {
    if sharedLo {
      SharedPlacementIsLeast(Overlapping(slots, q.start, q.stop), q, lim, preferred);
    }
  }

  // The new slice can lie at x: a guard band inside the window, unless it is alone, and two
  // guard bands away from every other slice.
  ghost predicate CanLie(over: seq<Slot>, q: Request, guardBand: real, x: real)
  {
    var edge := if over == [] then 0.0 else guardBand;
    && q.cf - q.rate / 2.0 + edge <= x && x + q.bw + edge <= q.cf + q.rate / 2.0
    && forall s :: s in over ==> x + q.bw + 2.0 * guardBand <= s.lo || s.hi + 2.0 * guardBand <= x
  }

  ghost predicate LiesLowest(over: seq<Slot>, q: Request, guardBand: real, x: real)
  {
    CanLie(over, q, guardBand, x) && forall y :: CanLie(over, q, guardBand, y) ==> x <= y
  }

  // Where the loop looks for a place, the slice's own guard is part of its width.
  lemma CanLieIsFeasible(over: seq<Slot>, q: Request, lim: Limits, x: real)
    ensures CanLie(over, q, lim.guardBand, x) <==>
            Feasible(Padded(over, lim.guardBand), WindowLo(q.cf, q.rate), WindowHi(q.cf, q.rate),
                     q.bw + 2.0 * InnerGuard(over, lim), x - InnerGuard(over, lim))
  {
    var occ, width, y := Padded(over, lim.guardBand), q.bw + 2.0 * InnerGuard(over, lim), x - InnerGuard(over, lim);
    if Clear(occ, y, width) {
      forall s | s in over
        ensures x + q.bw + 2.0 * lim.guardBand <= s.lo || s.hi + 2.0 * lim.guardBand <= x
      {
        var i :| 0 <= i < |over| && over[i] == s;
        assert occ[i] in occ && !Hits(occ[i], y, width);
      }
    }
    if CanLie(over, q, lim.guardBand, x) {
      forall iv | iv in occ
        ensures !Hits(iv, y, width)
      {
        var i :| 0 <= i < |occ| && occ[i] == iv;
        assert over[i] in over;
      }
    }
  }

  // Where the tuning agrees, the packing refuses exactly when the request is wider than
  // the window or can lie nowhere, and it places a slice as low as it can lie.
  lemma SharedPlacementIsLeast(over: seq<Slot>, q: Request, lim: Limits, preferred: int)
    requires over == [] || (q.cf == over[0].cf && q.rate == over[0].rate)
    ensures var fit := SharedFit(over, q, lim, preferred);
            && (fit.Fit? ==> LiesLowest(over, q, lim.guardBand, fit.lo) && fit.hi - fit.lo == q.bw)
            && (fit == NoFit(SpectrumConflict) <==>
                  q.bw > q.rate || (forall x :: !CanLie(over, q, lim.guardBand, x)))
  {
    var occ, width := Padded(over, lim.guardBand), q.bw + 2.0 * InnerGuard(over, lim);
    FindsLeastFeasible(occ, WindowLo(q.cf, q.rate), WindowHi(q.cf, q.rate), width);
    forall x
      ensures CanLie(over, q, lim.guardBand, x) <==>
              Feasible(occ, WindowLo(q.cf, q.rate), WindowHi(q.cf, q.rate), width, x - InnerGuard(over, lim))
    {
      CanLieIsFeasible(over, q, lim, x);
    }
    var place := Placement(over, q, lim);
    if place.Some? {
      var x := place.value + InnerGuard(over, lim);
      assert x - InnerGuard(over, lim) == place.value;
      assert LiesLowest(over, q, lim.guardBand, x);
    }
  }

  // An idle device takes a request exactly when the request is within the device's
  // limits and, if its LO is shared, no wider than the rate.
  lemma FitOnIdleDevice(slots: seq<Slot>, q: Request, lim: Limits, sharedLo: bool, preferred: int)
    requires Overlapping(slots, q.start, q.stop) == []
    ensures FitFor(slots, q, lim, sharedLo, preferred).Fit? <==>
            && q.rxCount <= lim.maxRx && q.txCount <= lim.maxTx
            && (Pinned(q, preferred) ==> preferred < lim.maxRx)
            && (sharedLo ==> q.bw <= q.rate)
  {
    var over := Overlapping(slots, q.start, q.stop);
    assert RxLists(over) == [] && TxLists(over) == [] && Padded(over, lim.guardBand) == [];
    assert Taken(RxLists(over)) == {};
    if sharedLo && Pinned(q, preferred) && q.bw <= q.rate {
      assert Placement(over, q, lim) == Some(WindowLo(q.cf, q.rate));
    }
  }
}
