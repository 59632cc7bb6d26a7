// What sharing a device comes to (tryRetuneCombined, src/ResourceManager.cpp:910-1194, and
// canCombine, src/SpectrumTimeline.cpp:217-301), told from the slots and the request: when
// there is a seat, on which channels and at what tuning, and what is written to the timeline.
module Sharing {
  import opened Basics
  import opened Slots
  import opened Combining
  import opened DeviceSelection
  import opened Admission
  import opened Widening
  import Channels
  import Fitting
  import Placing

  // ---- The window ----

  // A window that holds the new slice and every one in the way, with a guard band to spare.
  ghost predicate Holds(slots: seq<Slot>, q: Request, guardBand: real, cf: real, rate: real)
  {
    && cf - rate / 2.0 + guardBand <= q.cf - q.bw / 2.0 && q.cf + q.bw / 2.0 + guardBand <= cf + rate / 2.0
    && forall s :: s in slots && Placing.InTheWay(s, q) ==>
         cf - rate / 2.0 + guardBand <= s.lo && s.hi + guardBand <= cf + rate / 2.0
  }

  ghost predicate Narrowest(slots: seq<Slot>, q: Request, guardBand: real, cf: real, rate: real)
  {
    && Holds(slots, q, guardBand, cf, rate)
    && forall cf', rate' :: Holds(slots, q, guardBand, cf', rate') ==> rate < rate' || (rate == rate' && cf == cf')
  }

  lemma HoldsIsCovers(slots: seq<Slot>, q: Request, guardBand: real, cf: real, rate: real)
    ensures Holds(slots, q, guardBand, cf, rate) <==>
            CoversAll(cf, rate, Overlapping(slots, q.start, q.stop), q.cf - q.bw / 2.0, q.cf + q.bw / 2.0, guardBand)
  {
  }

  lemma CombinedIsNarrowest(slots: seq<Slot>, q: Request, guardBand: real)
    ensures var over := Overlapping(slots, q.start, q.stop);
            var lo, hi := q.cf - q.bw / 2.0, q.cf + q.bw / 2.0;
            Narrowest(slots, q, guardBand, CombinedCf(over, lo, hi), CombinedRate(over, lo, hi, guardBand))
  {
    var over := Overlapping(slots, q.start, q.stop);
    var lo, hi := q.cf - q.bw / 2.0, q.cf + q.bw / 2.0;
    var cf, rate := CombinedCf(over, lo, hi), CombinedRate(over, lo, hi, guardBand);
    CombinedWindowIsNarrowest(over, lo, hi, guardBand, cf, rate);
    HoldsIsCovers(slots, q, guardBand, cf, rate);
    forall cf', rate' | Holds(slots, q, guardBand, cf', rate')
      ensures rate < rate' || (rate == rate' && cf == cf')
    {
      HoldsIsCovers(slots, q, guardBand, cf', rate');
      CombinedWindowIsNarrowest(over, lo, hi, guardBand, cf', rate');
    }
  }

  // ---- The channels ----

  // All RX channels that slots in the way list, in timeline order.
  function ListedRx(slots: seq<Slot>, q: Request): seq<nat>
  {
    if slots == [] then []
    else
      var n := |slots| - 1;
      ListedRx(slots[..n], q) + if Placing.InTheWay(slots[n], q) then slots[n].rx else []
  }

  // Each once, where it comes first.
  function Distinct(s: seq<nat>): seq<nat>
  {
    if s == [] then []
    else
      var n := |s| - 1;
      var rest := Distinct(s[..n]);
      if s[n] in rest then rest else rest + [s[n]]
  }

  lemma {:induction false} DistinctKeeps(s: seq<nat>)
    ensures NoDuplicates(Distinct(s)) && forall c :: c in Distinct(s) <==> c in s
  {
    if s == [] {
    } else {
      var n := |s| - 1;
      DistinctKeeps(s[..n]);
      assert s == s[..n] + [s[n]];
    }
  }

  // The first slot in the way lists no RX channel.
  ghost predicate StartsWithNone(slots: seq<Slot>, q: Request)
  {
    exists i: nat :: Placing.FirstInTheWay(slots, q, i) && slots[i].rx == []
  }

  // Those on offer: the first ones, as many as are asked for. If none is asked for all are,
  // unless the first slot lists none.
  ghost function OnOffer(slots: seq<Slot>, q: Request): seq<nat>
  {
    var all := Distinct(ListedRx(slots, q));
    if q.rxCount > 0 then all[..Min(q.rxCount, |all|)]
    else if StartsWithNone(slots, q) then []
    else all
  }

  function Flat(over: seq<Slot>): seq<nat>
    decreases over
  {
    if over == [] then [] else over[0].rx + Flat(over[1..])
  }

  lemma {:induction false} FlatAppend(a: seq<Slot>, last: Slot)
    ensures Flat(a + [last]) == Flat(a) + last.rx
    decreases a
  {
    if a == [] {
      assert a + [last] == [last] && [last][1..] == [];
    } else {
      FlatAppend(a[1..], last);
      assert (a + [last])[1..] == a[1..] + [last];
      assert a[0].rx + (Flat(a[1..]) + last.rx) == (a[0].rx + Flat(a[1..])) + last.rx;
    }
  }

  lemma {:induction false} ListedIsFlat(slots: seq<Slot>, q: Request)
    ensures ListedRx(slots, q) == Flat(Overlapping(slots, q.start, q.stop))
  {
    if slots == [] {
    } else {
      var n := |slots| - 1;
      ListedIsFlat(slots[..n], q);
      FlatAppend(Overlapping(slots[..n], q.start, q.stop), slots[n]);
    }
  }

  lemma DistinctStep(s: seq<nat>, c: nat)
    ensures Distinct(s + [c]) == if c in Distinct(s) then Distinct(s) else Distinct(s) + [c]
  {
    assert (s + [c])[..|s|] == s;
  }

  lemma {:induction false} DistinctGrows(s: seq<nat>, more: seq<nat>)
    ensures Distinct(s) <= Distinct(s + more)
  {
    if more == [] {
      assert s + more == s;
    } else {
      var n := |more| - 1;
      var shorter := s + more[..n];
      DistinctGrows(s, more[..n]);
      DistinctStep(shorter, more[n]);
      assert s + more == shorter + [more[n]];
    }
  }

  // The first count of some channels; all of them for none.
  function Cut(all: seq<nat>, count: nat): seq<nat>
  {
    if 0 < count < |all| then all[..count] else all
  }

  // What the scan of one list comes to, begun with the distinct channels seen before.
  lemma {:induction false} CollectsDistinct(seen: seq<nat>, list: seq<nat>, whole: seq<nat>, count: nat)
    requires whole == seen + list && (count == 0 || |Distinct(seen)| < count)
    ensures Collect(Distinct(seen), list, count) == Cut(Distinct(whole), count)
    decreases list
  {
    if list == [] {
      assert whole == seen;
    } else {
      var next := seen + [list[0]];
      DistinctStep(seen, list[0]);
      assert whole == next + list[1..];
      if |Distinct(next)| == count {
        DistinctGrows(next, list[1..]);
      } else {
        CollectsDistinct(next, list[1..], whole, count);
      }
    }
  }

  lemma CutGrows(s: seq<nat>, more: seq<nat>, count: nat)
    requires count > 0 && |Distinct(s)| >= count
    ensures Cut(Distinct(s + more), count) == Distinct(s)[..count]
  {
    DistinctGrows(s, more);
  }

  lemma {:induction false} CollectsAllDistinct(seen: seq<nat>, over: seq<Slot>, whole: seq<nat>, count: nat)
    requires whole == seen + Flat(over) && (count == 0 || |Distinct(seen)| < count)
    requires count == 0 && over != [] ==> Distinct(seen + over[0].rx) != []
    ensures CollectAll(Distinct(seen), over, count) == Cut(Distinct(whole), count)
    decreases over
  {
    if over == [] {
      assert whole == seen;
    } else {
      var next := seen + over[0].rx;
      CollectsDistinct(seen, over[0].rx, next, count);
      assert whole == next + Flat(over[1..]);
      if count > 0 && |Distinct(next)| >= count {
        CutGrows(next, Flat(over[1..]), count);
      } else {
        if over[1..] != [] {
          DistinctGrows(next, over[1..][0].rx);
        }
        CollectsAllDistinct(next, over[1..], whole, count);
      }
    }
  }

  lemma StartsOver(slots: seq<Slot>, q: Request)
    ensures var over := Overlapping(slots, q.start, q.stop);
            StartsWithNone(slots, q) <==> over != [] && over[0].rx == []
  {
    Placing.NoneOverlaps(slots, q);
    assert forall i :: 0 <= i < |slots| ==> slots[i] in slots;
    if !Placing.Alone(slots, q) {
      var i := Placing.OverlappingStarts(slots, q);
      assert forall j: nat :: Placing.FirstInTheWay(slots, q, j) ==> j == i;
    }
  }

  lemma CollectedAreOnOffer(slots: seq<Slot>, q: Request)
    ensures CollectAll([], Overlapping(slots, q.start, q.stop), q.rxCount) == OnOffer(slots, q)
  {
    var over := Overlapping(slots, q.start, q.stop);
    ListedIsFlat(slots, q);
    StartsOver(slots, q);
    if over != [] && (q.rxCount > 0 || over[0].rx != []) {
      CollectedFromStart(over, q.rxCount);
    }
  }

  lemma CollectedFromStart(over: seq<Slot>, count: nat)
    requires over != [] && (count > 0 || over[0].rx != [])
    ensures CollectAll([], over, count) == Cut(Distinct(Flat(over)), count)
  {
    var none: seq<nat> := [];
    assert Distinct(none) == [] && none + Flat(over) == Flat(over);
    if count == 0 {
      DistinctKeeps(over[0].rx);
      assert none + over[0].rx == over[0].rx && over[0].rx[0] in Distinct(over[0].rx);
    }
    CollectsAllDistinct(none, over, Flat(over), count);
  }

  // ---- canCombine ----

  // Some window within the rate holds it all.
  ghost predicate WindowWithin(slots: seq<Slot>, q: Request, guardBand: real, maxRate: real)
  {
    exists cf, rate :: Holds(slots, q, guardBand, cf, rate) && rate <= maxRate
  }

  lemma RateExactly(slots: seq<Slot>, q: Request, guardBand: real, maxRate: real)
    ensures var over := Overlapping(slots, q.start, q.stop);
            var rate := CombinedRate(over, q.cf - q.bw / 2.0, q.cf + q.bw / 2.0, guardBand);
            rate <= maxRate <==> WindowWithin(slots, q, guardBand, maxRate)
  {
    CombinedIsNarrowest(slots, q, guardBand);
  }

  // Something is in the way, some window within the rate holds it all, and there are
  // channels: some on offer, or enough unused.
  ghost predicate CanCombine(slots: seq<Slot>, q: Request, lim: Limits, maxRate: real, reuse: bool)
  {
    && !Placing.Alone(slots, q)
    && WindowWithin(slots, q, lim.guardBand, maxRate)
    && if reuse then OnOffer(slots, q) != [] else Placing.Listed(slots, q, false) + q.rxCount <= lim.maxRx
  }

  // canCombine combines exactly then.
  lemma CombinesExactlyWhen(slots: seq<Slot>, q: Request, lim: Limits, maxRate: real, reuse: bool)
    ensures CombineFor(slots, q, lim, maxRate, reuse).Combined? <==> CanCombine(slots, q, lim, maxRate, reuse)
  {
    CombineRaw(slots, q, lim, maxRate, reuse);
    Placing.NoneOverlaps(slots, q);
    RateExactly(slots, q, lim.guardBand, maxRate);
    if reuse {
      CollectedAreOnOffer(slots, q);
    } else {
      Placing.ListedIsTotal(slots, q);
    }
  }

  lemma CombineRaw(slots: seq<Slot>, q: Request, lim: Limits, maxRate: real, reuse: bool)
    ensures var over := Overlapping(slots, q.start, q.stop);
            CombineFor(slots, q, lim, maxRate, reuse).Combined? <==>
              && over != []
              && CombinedRate(over, q.cf - q.bw / 2.0, q.cf + q.bw / 2.0, lim.guardBand) <= maxRate
              && if reuse then CollectAll([], over, q.rxCount) != []
                 else Channels.Total(Fitting.RxLists(over)) + q.rxCount <= lim.maxRx
  {
  }

  // It answers with the narrowest window, which there is only one of, and with those channels.
  lemma CombineGives(slots: seq<Slot>, q: Request, lim: Limits, maxRate: real, reuse: bool)
    requires CombineFor(slots, q, lim, maxRate, reuse).Combined?
    ensures var r := CombineFor(slots, q, lim, maxRate, reuse);
            && Narrowest(slots, q, lim.guardBand, r.cf, r.rate) && r.rate <= maxRate
            && r.lo == q.cf - q.bw / 2.0 && r.hi == q.cf + q.bw / 2.0
  {
    CombinedIsNarrowest(slots, q, lim.guardBand);
  }

  lemma CombineGivesChannels(slots: seq<Slot>, q: Request, lim: Limits, maxRate: real, reuse: bool)
    requires CombineFor(slots, q, lim, maxRate, reuse).Combined?
    ensures var r := CombineFor(slots, q, lim, maxRate, reuse);
            if reuse then r.rx == OnOffer(slots, q)
            else Placing.LowestUnused(r.rx, q.rxCount, lim.maxRx, slots, q, false)
  {
    if reuse {
      CollectedAreOnOffer(slots, q);
    } else {
      Placing.ListedIsTotal(slots, q);
      Placing.PickedAreLowest(slots, q, lim.maxRx, q.rxCount, false);
    }
  }

  // ---- The seat on one device ----

  // The device is in use at the frequency asked for, to within 1 Hz.
  ghost predicate InUseAt(slots: seq<Slot>, q: Request)
  {
    && !Placing.Alone(slots, q)
    && forall s :: s in slots && Placing.InTheWay(s, q) ==> -1.0 < s.cf - q.cf < 1.0
  }

  ghost predicate InFirstWindow(slots: seq<Slot>, q: Request)
  {
    exists i: nat ::
      Placing.FirstInTheWay(slots, q, i)
      && slots[i].cf - slots[i].rate / 2.0 <= q.cf - q.bw / 2.0
      && q.cf + q.bw / 2.0 <= slots[i].cf + slots[i].rate / 2.0
  }

  ghost predicate NobodyHigher(slots: seq<Slot>, registry: map<TaskId, Record>, q: Request, rank: int)
  {
    forall s :: s in slots && Placing.InTheWay(s, q) && LiveTask(registry, s.task) ==> registry[s.task].rank <= rank
  }

  ghost predicate SuitsSharing(dev: Device, q: Request)
  {
    && dev.online && dev.sharedLo
    && dev.caps.freqMin <= q.cf <= dev.caps.freqMax
    && q.bw <= dev.caps.bwMax && q.rxCount <= dev.caps.maxRx
  }

  // At the frequency in use a channel must be named, and be in use, and the slice lie in the
  // window as it is. At another one some window must hold everything, and there must be a
  // channel on offer: the one named, if one is.
  ghost predicate HasSeat(dev: Device, slots: seq<Slot>, registry: map<TaskId, Record>,
                          q: Request, rank: int, guardBand: real, channel: int)
  {
    && SuitsSharing(dev, q) && NobodyHigher(slots, registry, q, rank)
    && if InUseAt(slots, q) then
         channel >= 0 && Placing.InUse(slots, q, false, channel) && InFirstWindow(slots, q)
       else
         && !Placing.Alone(slots, q) && WindowWithin(slots, q, guardBand, dev.caps.rateMax)
         && OnOffer(slots, q) != [] && (channel >= 0 ==> channel in OnOffer(slots, q))
  }

  lemma SameCfIsInUse(slots: seq<Slot>, q: Request)
    ensures SameCf(Overlapping(slots, q.start, q.stop), q.cf) <==> InUseAt(slots, q)
  {
    Placing.NoneOverlaps(slots, q);
  }

  lemma SubscribesExactlyWhen(slots: seq<Slot>, q: Request, channel: int)
    requires InUseAt(slots, q)
    ensures var over := Overlapping(slots, q.start, q.stop);
            over != []
            && (SubscribeOn(over, q, channel) != NoSeat <==>
                  channel >= 0 && Placing.InUse(slots, q, false, channel) && InFirstWindow(slots, q))
  {
    var over := Overlapping(slots, q.start, q.stop);
    var i := Placing.OverlappingStarts(slots, q);
    assert forall j: nat :: Placing.FirstInTheWay(slots, q, j) ==> j == i;
    if s :| s in over && channel in s.rx {
      assert s in slots && Placing.InTheWay(s, q) && channel in Placing.ChannelsOf(s, false);
    }
    if Placing.InUse(slots, q, false, channel) {
      var s :| s in slots && Placing.InTheWay(s, q) && channel in Placing.ChannelsOf(s, false);
      assert s in over && channel in s.rx;
    }
  }

  lemma RanksAgree(slots: seq<Slot>, registry: map<TaskId, Record>, q: Request, rank: int)
    ensures RankAllows(Overlapping(slots, q.start, q.stop), registry, rank) <==> NobodyHigher(slots, registry, q, rank)
  {
  }

  // A device has a seat exactly then.
  lemma SeatExactlyWhen(dev: Device, slots: seq<Slot>, registry: map<TaskId, Record>,
                        q: Request, rank: int, guardBand: real, channel: int)
    ensures SeatOn(dev, slots, registry, q, rank, guardBand, channel) != NoSeat <==>
            HasSeat(dev, slots, registry, q, rank, guardBand, channel)
  {
    SameCfIsInUse(slots, q);
    RanksAgree(slots, registry, q, rank);
    if InUseAt(slots, q) {
      SubscribesExactlyWhen(slots, q, channel);
    } else {
      WidensExactlyWhen(dev, slots, q, guardBand, channel);
    }
  }

  lemma WidensExactlyWhen(dev: Device, slots: seq<Slot>, q: Request, guardBand: real, channel: int)
    ensures var r := CombineFor(slots, q, LimitsOf(dev, guardBand), dev.caps.rateMax, true);
            WidenOn(Overlapping(slots, q.start, q.stop), r, channel) != NoSeat <==>
              && !Placing.Alone(slots, q) && WindowWithin(slots, q, guardBand, dev.caps.rateMax)
              && OnOffer(slots, q) != [] && (channel >= 0 ==> channel in OnOffer(slots, q))
  {
    var lim := LimitsOf(dev, guardBand);
    CombinesExactlyWhen(slots, q, lim, dev.caps.rateMax, true);
    if CombineFor(slots, q, lim, dev.caps.rateMax, true).Combined? {
      CombineGivesChannels(slots, q, lim, dev.caps.rateMax, true);
    }
  }

  // The tunings differ by more than 1 Hz, in either direction.
  predicate Off(cf: real, rate: real, s: Slot)
  {
    cf - s.cf > 1.0 || s.cf - cf > 1.0 || rate - s.rate > 1.0 || s.rate - rate > 1.0
  }

  // A seat at the frequency in use leaves the first tuning as it is. One at another
  // frequency comes with the narrowest window, and the device is to be tuned to it exactly
  // if that is off the first tuning. The channels are those on offer, or the one named.
  ghost predicate SeatIs(slots: seq<Slot>, q: Request, guardBand: real, channel: int, seat: Seat)
    requires seat != NoSeat && seat.fit.Fit?
  {
    && seat.fit.lo == q.cf - q.bw / 2.0 && seat.fit.hi == q.cf + q.bw / 2.0 && seat.fit.tx == []
    && seat.fit.rx == (if channel >= 0 then [channel] else OnOffer(slots, q))
    && (forall i: nat :: Placing.FirstInTheWay(slots, q, i) ==>
          if InUseAt(slots, q) then
            seat.Subscribe? && seat.fit.cf == slots[i].cf && seat.fit.rate == slots[i].rate
          else
            seat.Widen? && (seat.tune <==> Off(seat.fit.cf, seat.fit.rate, slots[i])))
    && (!InUseAt(slots, q) ==> Narrowest(slots, q, guardBand, seat.fit.cf, seat.fit.rate))
  }

  lemma SeatGives(dev: Device, slots: seq<Slot>, registry: map<TaskId, Record>,
                  q: Request, rank: int, guardBand: real, channel: int)
    requires SeatOn(dev, slots, registry, q, rank, guardBand, channel) != NoSeat
    ensures SeatIs(slots, q, guardBand, channel, SeatOn(dev, slots, registry, q, rank, guardBand, channel))
  {
    var over := Overlapping(slots, q.start, q.stop);
    SameCfIsInUse(slots, q);
    SeatExactlyWhen(dev, slots, registry, q, rank, guardBand, channel);
    var i := Placing.OverlappingStarts(slots, q);
    assert forall j: nat :: Placing.FirstInTheWay(slots, q, j) ==> j == i;
    if !InUseAt(slots, q) {
      CombineGives(slots, q, LimitsOf(dev, guardBand), dev.caps.rateMax, true);
      CombineGivesChannels(slots, q, LimitsOf(dev, guardBand), dev.caps.rateMax, true);
    }
  }

  // ---- What is written to the timelines ----

  ghost predicate AllTunedTo(after: seq<Slot>, before: seq<Slot>, cf: real, rate: real)
  {
    |after| == |before| && forall i :: 0 <= i < |after| ==> after[i] == before[i].(cf := cf, rate := rate)
  }

  // Joining a device rewrites the tuning of all its slots exactly if the window granted is
  // more than 1 Hz off the first one in the way, and otherwise changes nothing there. The
  // other devices' timelines stay as they are.
  ghost predicate TunedOnly(before: seq<seq<Slot>>, after: seq<seq<Slot>>, q: Request, d: nat, fit: FitResult)
    requires |after| == |before| && d < |before| && fit.Fit?
  {
    && !Placing.Alone(before[d], q)
    && (forall i: nat :: Placing.FirstInTheWay(before[d], q, i) ==>
          if Off(fit.cf, fit.rate, before[d][i]) then AllTunedTo(after[d], before[d], fit.cf, fit.rate)
          else after[d] == before[d])
    && forall e: nat :: e < |before| && e != d ==> after[e] == before[e]
  }

  lemma SeatTunes(dev: Device, slots: seq<Slot>, registry: map<TaskId, Record>,
                  q: Request, rank: int, guardBand: real, channel: int)
    requires SeatOn(dev, slots, registry, q, rank, guardBand, channel) != NoSeat
    ensures var seat := SeatOn(dev, slots, registry, q, rank, guardBand, channel);
            && !Placing.Alone(slots, q)
            && forall i: nat :: Placing.FirstInTheWay(slots, q, i) ==>
                 if Off(seat.fit.cf, seat.fit.rate, slots[i])
                 then AllTunedTo(Seated(slots, seat), slots, seat.fit.cf, seat.fit.rate)
                 else Seated(slots, seat) == slots
  {
    SeatExactlyWhen(dev, slots, registry, q, rank, guardBand, channel);
    SeatGives(dev, slots, registry, q, rank, guardBand, channel);
  }

  lemma {:induction false} JoinTunes(devices: seq<Device>, b: Books, q: Request, rank: int, guardBand: real,
                                     channel: int, tunes: nat -> bool, i: nat)
    requires |b.timelines| == |devices| && i <= |devices|
    ensures var (after, chosen) := Joined(devices, b, q, rank, guardBand, channel, tunes, i);
            if chosen.None? then after == b
            else TunedOnly(b.timelines, after.timelines, q, chosen.value.0, chosen.value.1)
    decreases |devices| - i
  {
    if i == |devices| {
    } else if !CanJoin(devices, b, q, rank, guardBand, channel, tunes, i) {
      JoinTunes(devices, b, q, rank, guardBand, channel, tunes, i + 1);
    } else {
      SeatTunes(devices[i], b.timelines[i], b.registry, q, rank, guardBand, channel);
    }
  }

  // So where the slots in the way agreed on their tuning before, each of them is within 1 Hz
  // of the window granted afterwards, in centre and in rate.
  lemma JoinedAgree(devices: seq<Device>, b: Books, q: Request, rank: int, guardBand: real,
                    channel: int, tunes: nat -> bool)
    requires |b.timelines| == |devices|
    requires Joined(devices, b, q, rank, guardBand, channel, tunes, 0).1.Some?
    requires var d := Joined(devices, b, q, rank, guardBand, channel, tunes, 0).1.value.0;
             forall s, u ::
               s in b.timelines[d] && Placing.InTheWay(s, q) && u in b.timelines[d] && Placing.InTheWay(u, q) ==>
                 s.cf == u.cf && s.rate == u.rate
    ensures var (after, chosen) := Joined(devices, b, q, rank, guardBand, channel, tunes, 0);
            var (d, fit) := chosen.value;
            forall s :: s in after.timelines[d] && Placing.InTheWay(s, q) ==> !Off(fit.cf, fit.rate, s)
  {
    JoinTunes(devices, b, q, rank, guardBand, channel, tunes, 0);
    var (after, chosen) := Joined(devices, b, q, rank, guardBand, channel, tunes, 0);
    var (d, fit) := chosen.value;
    var i := Placing.OverlappingStarts(b.timelines[d], q);
    forall s | s in after.timelines[d] && Placing.InTheWay(s, q)
      ensures !Off(fit.cf, fit.rate, s)
    {
      var k :| 0 <= k < |after.timelines[d]| && after.timelines[d][k] == s;
      assert b.timelines[d][i] in b.timelines[d] && b.timelines[d][k] in b.timelines[d];
    }
  }

  // The narrowest window is off the first tuning.
  ghost predicate NeedsTuning(slots: seq<Slot>, q: Request, guardBand: real)
  {
    && !InUseAt(slots, q)
    && exists i: nat, cf, rate ::
         Placing.FirstInTheWay(slots, q, i) && Narrowest(slots, q, guardBand, cf, rate) && Off(cf, rate, slots[i])
  }

  // A device can be joined exactly if it has a seat and, if it needs tuning, can be tuned.
  lemma CanJoinExactlyWhen(devices: seq<Device>, b: Books, q: Request, rank: int, guardBand: real,
                           channel: int, tunes: nat -> bool, d: nat)
    requires |b.timelines| == |devices| && d < |devices|
    ensures CanJoin(devices, b, q, rank, guardBand, channel, tunes, d) <==>
              && HasSeat(devices[d], b.timelines[d], b.registry, q, rank, guardBand, channel)
              && (NeedsTuning(b.timelines[d], q, guardBand) ==> tunes(d))
  {
    var slots := b.timelines[d];
    SeatExactlyWhen(devices[d], slots, b.registry, q, rank, guardBand, channel);
    var seat := SeatOn(devices[d], slots, b.registry, q, rank, guardBand, channel);
    if seat != NoSeat {
      SeatGives(devices[d], slots, b.registry, q, rank, guardBand, channel);
      var i := Placing.OverlappingStarts(slots, q);
      assert forall j: nat :: Placing.FirstInTheWay(slots, q, j) ==> j == i;
      assert NeedsTuning(slots, q, guardBand) <==> seat.Widen? && seat.tune;
    }
  }
}
