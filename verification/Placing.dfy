// What canFit answers (src/SpectrumTimeline.cpp:19-214), told from the slots on the timeline
// and the request alone: when it refuses and for what, and which slice and channels it gives.
module Placing {
  import opened Basics
  import opened Slots
  import opened Channels
  import opened Fitting

  // The slot takes up some of the time asked for. Slots that only touch do not.
  predicate InTheWay(s: Slot, q: Request)
  {
    s.start < q.stop && q.start < s.stop
  }

  // Two stretches of time overlap if some instant is in both, and a slot is active at the
  // instants it overlaps.
  predicate During(t: int, start: int, stop: int)
  {
    start <= t < stop
  }

  lemma OverlapIsSharedTime(s: Slot, q: Request)
    requires s.start < s.stop && q.start < q.stop
    ensures InTheWay(s, q) <==> exists t :: During(t, s.start, s.stop) && During(t, q.start, q.stop)
    ensures Overlaps(s, q.start, q.stop) <==> exists t :: ActiveAt(s, t) && During(t, q.start, q.stop)
  {
    var t := Max(s.start, q.start);
    if InTheWay(s, q) {
      assert During(t, s.start, s.stop) && During(t, q.start, q.stop);
      assert ActiveAt(s, t);
    }
  }

  ghost predicate Alone(slots: seq<Slot>, q: Request)
  {
    forall s :: s in slots ==> !InTheWay(s, q)
  }

  ghost predicate FirstInTheWay(slots: seq<Slot>, q: Request, i: nat)
  {
    i < |slots| && InTheWay(slots[i], q) && forall j :: 0 <= j < i ==> !InTheWay(slots[j], q)
  }

  // The first slot in the way holds the device at another tuning.
  ghost predicate HeldElsewhere(slots: seq<Slot>, q: Request)
  {
    exists i: nat :: FirstInTheWay(slots, q, i) && (slots[i].cf != q.cf || slots[i].rate != q.rate)
  }

  // A slice with its low edge at x is inside the window and clear of the others: by a guard
  // band unless it is alone, and by two.
  ghost predicate HasRoom(slots: seq<Slot>, q: Request, guardBand: real, x: real)
  {
    var edge := if Alone(slots, q) then 0.0 else guardBand;
    && q.cf - q.rate / 2.0 + edge <= x && x + q.bw + edge <= q.cf + q.rate / 2.0
    && forall s :: s in slots && InTheWay(s, q) ==>
         x + q.bw + 2.0 * guardBand <= s.lo || s.hi + 2.0 * guardBand <= x
  }

  function ChannelsOf(s: Slot, transmit: bool): seq<nat>
  {
    if transmit then s.tx else s.rx
  }

  // How many channels the slots in the way list, each list counted in full.
  function Listed(slots: seq<Slot>, q: Request, transmit: bool): nat
  {
    if slots == [] then 0
    else
      var n := |slots| - 1;
      Listed(slots[..n], q, transmit) + if InTheWay(slots[n], q) then |ChannelsOf(slots[n], transmit)| else 0
  }

  ghost predicate InUse(slots: seq<Slot>, q: Request, transmit: bool, c: int)
  {
    exists s :: s in slots && InTheWay(s, q) && c in ChannelsOf(s, transmit)
  }

  // A request for one RX channel may name it. On a device whose channels share an oscillator
  // the named channel may be in use already.
  ghost predicate ChannelsSuffice(slots: seq<Slot>, q: Request, lim: Limits, sharedLo: bool, named: int)
  {
    && (if named >= 0 && q.rxCount == 1 && sharedLo then named < lim.maxRx
        else Listed(slots, q, false) + q.rxCount <= lim.maxRx)
    && (named >= 0 && q.rxCount == 1 && !sharedLo ==> named < lim.maxRx && !InUse(slots, q, false, named))
    && Listed(slots, q, true) + q.txCount <= lim.maxTx
  }

  // The lowest channels of a device that are not in use, in ascending order.
  ghost predicate LowestUnused(chosen: seq<nat>, count: nat, max: nat, slots: seq<Slot>, q: Request, transmit: bool)
  {
    && |chosen| == count && Ascending(chosen)
    && (forall c :: c in chosen ==> c < max && !InUse(slots, q, transmit, c))
    && (forall c, p :: 0 <= c < max && !InUse(slots, q, transmit, c) && c !in chosen && p in chosen ==> p < c)
  }

  // ---- The answer, case by case ----

  ghost predicate Refused(slots: seq<Slot>, q: Request, lim: Limits, sharedLo: bool, named: int, code: RejectCode)
  {
    var held := sharedLo && HeldElsewhere(slots, q);
    var crowded := sharedLo && (q.bw > q.rate || forall x :: !HasRoom(slots, q, lim.guardBand, x));
    match code
    case RetuneConflict => held
    case SpectrumConflict => !held && crowded
    case ChannelCountExceeded => !held && !crowded && !ChannelsSuffice(slots, q, lim, sharedLo, named)
  }

  // Nothing stands against the request.
  ghost predicate Fits(slots: seq<Slot>, q: Request, lim: Limits, sharedLo: bool, named: int)
  {
    && (sharedLo ==> !HeldElsewhere(slots, q) && q.bw <= q.rate && exists x :: HasRoom(slots, q, lim.guardBand, x))
    && ChannelsSuffice(slots, q, lim, sharedLo, named)
  }

  // The slice: around the centre frequency with an oscillator of its own, and otherwise as
  // low as there is room.
  ghost predicate SliceAt(slots: seq<Slot>, q: Request, guardBand: real, sharedLo: bool, lo: real, hi: real)
  {
    && hi == lo + q.bw
    && (if sharedLo then
          !HeldElsewhere(slots, q) && HasRoom(slots, q, guardBand, lo)
          && forall x :: HasRoom(slots, q, guardBand, x) ==> lo <= x
        else lo == q.cf - q.bw / 2.0)
  }

  ghost predicate Given(slots: seq<Slot>, q: Request, lim: Limits, sharedLo: bool, named: int, fit: FitResult)
    requires fit.Fit?
  {
    && fit.cf == q.cf && fit.rate == q.rate
    && SliceAt(slots, q, lim.guardBand, sharedLo, fit.lo, fit.hi)
    && (if named >= 0 && q.rxCount == 1 then fit.rx == [named]
        else LowestUnused(fit.rx, q.rxCount, lim.maxRx, slots, q, false))
    && LowestUnused(fit.tx, q.txCount, lim.maxTx, slots, q, true)
  }

  // ---- Towards it ----

  lemma NoneOverlaps(slots: seq<Slot>, q: Request)
    ensures Alone(slots, q) <==> Overlapping(slots, q.start, q.stop) == []
  {
    var over := Overlapping(slots, q.start, q.stop);
    if over != [] {
      assert over[0] in over;
    }
  }

  lemma {:induction false} OverlappingStarts(slots: seq<Slot>, q: Request) returns (i: nat)
    requires !Alone(slots, q)
    ensures FirstInTheWay(slots, q, i)
    ensures Overlapping(slots, q.start, q.stop) != [] && Overlapping(slots, q.start, q.stop)[0] == slots[i]
  {
    var n := |slots| - 1;
    NoneOverlaps(slots[..n], q);
    if Alone(slots[..n], q) {
      i := n;
      assert forall j :: 0 <= j < n ==> slots[j] in slots[..n];
      assert forall s :: s in slots ==> s in slots[..n] || s == slots[n];
    } else {
      i := OverlappingStarts(slots[..n], q);
    }
  }

  lemma HeldIsConflict(slots: seq<Slot>, q: Request)
    ensures var over := Overlapping(slots, q.start, q.stop);
            HeldElsewhere(slots, q) <==> over != [] && (q.cf != over[0].cf || q.rate != over[0].rate)
  {
    NoneOverlaps(slots, q);
    assert forall i :: 0 <= i < |slots| ==> slots[i] in slots;
    if !Alone(slots, q) {
      var i := OverlappingStarts(slots, q);
      forall j: nat | FirstInTheWay(slots, q, j)
        ensures j == i
      {
      }
    }
  }

  lemma RoomIsRoom(slots: seq<Slot>, q: Request, guardBand: real, x: real)
    ensures HasRoom(slots, q, guardBand, x) <==> CanLie(Overlapping(slots, q.start, q.stop), q, guardBand, x)
  {
    NoneOverlaps(slots, q);
  }

  lemma {:induction false} ListedIsTotal(slots: seq<Slot>, q: Request)
    ensures var over := Overlapping(slots, q.start, q.stop);
            Listed(slots, q, false) == Total(RxLists(over)) && Listed(slots, q, true) == Total(TxLists(over))
  {
    if slots == [] {
    } else {
      var n := |slots| - 1;
      ListedIsTotal(slots[..n], q);
      var rest, last := Overlapping(slots[..n], q.start, q.stop), slots[n];
      assert RxLists(rest + [last])[..|rest|] == RxLists(rest);
      assert TxLists(rest + [last])[..|rest|] == TxLists(rest);
    }
  }

  lemma InUseIsTaken(slots: seq<Slot>, q: Request, c: int)
    ensures var over := Overlapping(slots, q.start, q.stop);
            && (InUse(slots, q, false, c) <==> c in Taken(RxLists(over)))
            && (InUse(slots, q, true, c) <==> c in Taken(TxLists(over)))
  {
    var over := Overlapping(slots, q.start, q.stop);
    if InUse(slots, q, false, c) {
      var s :| s in slots && InTheWay(s, q) && c in s.rx;
      var i :| 0 <= i < |over| && over[i] == s;
      assert RxLists(over)[i] in RxLists(over);
    }
    if InUse(slots, q, true, c) {
      var s :| s in slots && InTheWay(s, q) && c in s.tx;
      var i :| 0 <= i < |over| && over[i] == s;
      assert TxLists(over)[i] in TxLists(over);
    }
    if c in Taken(RxLists(over)) {
      var list :| list in RxLists(over) && c in list;
      var i :| 0 <= i < |over| && RxLists(over)[i] == list;
      assert over[i] in over && c in ChannelsOf(over[i], false);
    }
    if c in Taken(TxLists(over)) {
      var list :| list in TxLists(over) && c in list;
      var i :| 0 <= i < |over| && TxLists(over)[i] == list;
      assert over[i] in over && c in ChannelsOf(over[i], true);
    }
  }

  lemma PickedAreLowest(slots: seq<Slot>, q: Request, max: nat, count: nat, transmit: bool)
    requires Listed(slots, q, transmit) + count <= max
    ensures var over := Overlapping(slots, q.start, q.stop);
            var lists := if transmit then TxLists(over) else RxLists(over);
            LowestUnused(LowestFree(0, max, Taken(lists), count), count, max, slots, q, transmit)
  {
    var over := Overlapping(slots, q.start, q.stop);
    var lists := if transmit then TxLists(over) else RxLists(over);
    ListedIsTotal(slots, q);
    GuardLeavesEnough(lists, max, count);
    LowestFreeChannels(0, max, Taken(lists), count);
    forall c
      ensures InUse(slots, q, transmit, c) <==> c in Taken(lists)
    {
      InUseIsTaken(slots, q, c);
    }
    forall c: int, p | 0 <= c < max && !InUse(slots, q, transmit, c) && c !in LowestFree(0, max, Taken(lists), count)
                       && p in LowestFree(0, max, Taken(lists), count)
      ensures p < c
    {
      NothingSkipped(0, max, Taken(lists), count, c, p);
    }
  }

  lemma GuardIsSufficient(slots: seq<Slot>, q: Request, lim: Limits, sharedLo: bool, named: int)
    ensures var over := Overlapping(slots, q.start, q.stop);
            ChannelsSuffice(slots, q, lim, sharedLo, named) <==>
              if sharedLo then SharedChannels(over, q, lim, named).Some?
              else IndependentFit(over, q, lim, named).Fit?
  {
    ListedIsTotal(slots, q);
    InUseIsTaken(slots, q, named);
  }

  lemma ChannelsGiven(slots: seq<Slot>, q: Request, lim: Limits, sharedLo: bool, named: int)
    requires FitFor(slots, q, lim, sharedLo, named).Fit?
    ensures var fit := FitFor(slots, q, lim, sharedLo, named);
            && (if named >= 0 && q.rxCount == 1 then fit.rx == [named]
                else LowestUnused(fit.rx, q.rxCount, lim.maxRx, slots, q, false))
            && LowestUnused(fit.tx, q.txCount, lim.maxTx, slots, q, true)
  {
    ListedIsTotal(slots, q);
    if !(named >= 0 && q.rxCount == 1) {
      PickedAreLowest(slots, q, lim.maxRx, q.rxCount, false);
    }
    PickedAreLowest(slots, q, lim.maxTx, q.txCount, true);
  }

  // Every answer of canFit: it refuses for a tuning, for want of spectrum or for want of
  // channels exactly in these cases, in this order, and otherwise gives the slice and the
  // channels described. This leaves one answer to every question.
  lemma FitExactly(slots: seq<Slot>, q: Request, lim: Limits, sharedLo: bool, named: int)
    ensures var fit := FitFor(slots, q, lim, sharedLo, named);
            if fit.Fit? then Fits(slots, q, lim, sharedLo, named) && Given(slots, q, lim, sharedLo, named, fit)
            else Refused(slots, q, lim, sharedLo, named, fit.code)
  {
    GuardIsSufficient(slots, q, lim, sharedLo, named);
    if sharedLo {
      SharedExactly(slots, q, lim, named);
    }
    if FitFor(slots, q, lim, sharedLo, named).Fit? {
      ChannelsGiven(slots, q, lim, sharedLo, named);
    }
  }

  // The same for what concerns the spectrum of a shared oscillator.
  lemma SharedExactly(slots: seq<Slot>, q: Request, lim: Limits, named: int)
    ensures var fit := FitFor(slots, q, lim, true, named);
            && (fit == NoFit(RetuneConflict) <==> HeldElsewhere(slots, q))
            && (fit == NoFit(SpectrumConflict) <==>
                  !HeldElsewhere(slots, q) && (q.bw > q.rate || forall x :: !HasRoom(slots, q, lim.guardBand, x)))
            && (fit.Fit? ==> SliceAt(slots, q, lim.guardBand, true, fit.lo, fit.hi))
  {
    var over := Overlapping(slots, q.start, q.stop);
    HeldIsConflict(slots, q);
    forall x
      ensures HasRoom(slots, q, lim.guardBand, x) <==> CanLie(over, q, lim.guardBand, x)
    {
      RoomIsRoom(slots, q, lim.guardBand, x);
    }
    if !HeldElsewhere(slots, q) {
      SharedPlacementIsLeast(over, q, lim, named);
    }
  }

  lemma FitsExactlyWhen(slots: seq<Slot>, q: Request, lim: Limits, sharedLo: bool, named: int)
    ensures FitFor(slots, q, lim, sharedLo, named).Fit? <==> Fits(slots, q, lim, sharedLo, named)
  {
    FitExactly(slots, q, lim, sharedLo, named);
  }
}
