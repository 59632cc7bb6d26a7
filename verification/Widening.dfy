// Sharing a device that is already in use (tryRetuneCombined,
// src/ResourceManager.cpp:910-1194): join a running channel at the same tuning, or widen
// the device's window so that it covers the new slice as well.
module Widening {
  import opened Basics
  import opened Slots
  import opened Fitting
  import opened Combining
  import opened DeviceSelection
  import opened Admission

  // What one device offers: nothing, a seat on the stream it has, or a seat on a wider
  // one, for which the hardware may have to be tuned.
  datatype Seat = NoSeat | Subscribe(fit: FitResult) | Widen(fit: FitResult, tune: bool)

  // Nobody alive in the way ranks higher.
  predicate RankAllows(over: seq<Slot>, registry: map<TaskId, Record>, rank: int)
  {
    forall s :: s in over && LiveTask(registry, s.task) ==> registry[s.task].rank <= rank
  }

  predicate SameCf(over: seq<Slot>, cf: real)
  {
    over != [] && forall s :: s in over ==> Abs(s.cf - cf) < 1.0
  }

  predicate InUse(over: seq<Slot>, channel: int)
  {
    exists s :: s in over && channel in s.rx
  }

  function SubscribeOn(over: seq<Slot>, q: Request, channel: int): Seat
    requires over != []
  {
    var cf, rate, lo, hi := over[0].cf, over[0].rate, q.cf - q.bw / 2.0, q.cf + q.bw / 2.0;
    if channel < 0 || !InUse(over, channel) || lo < WindowLo(cf, rate) || hi > WindowHi(cf, rate) then NoSeat
    else Subscribe(Fit(cf, rate, lo, hi, [channel], []))
  }

  function WidenOn(over: seq<Slot>, r: CombineResult, channel: int): Seat
  {
    if r.NotCombined? || (channel >= 0 && channel !in r.rx) then NoSeat
    else
      var tune := over != [] && (Abs(r.cf - over[0].cf) > 1.0 || Abs(r.rate - over[0].rate) > 1.0);
      Widen(Fit(r.cf, r.rate, r.lo, r.hi, if channel >= 0 then [channel] else r.rx, []), tune)
  }

  predicate Shareable(dev: Device, q: Request)
  {
    && dev.online && dev.sharedLo
    && dev.caps.freqMin <= q.cf <= dev.caps.freqMax
    && q.bw <= dev.caps.bwMax && q.rxCount <= dev.caps.maxRx
  }

  function SeatOn(dev: Device, slots: seq<Slot>, registry: map<TaskId, Record>,
                  q: Request, rank: int, guardBand: real, channel: int): (seat: Seat)
    ensures seat != NoSeat ==> seat.fit.Fit?
  {
    var over := Overlapping(slots, q.start, q.stop);
    if !Shareable(dev, q) then NoSeat
    else
      var seat := if SameCf(over, q.cf) then SubscribeOn(over, q, channel)
                  else WidenOn(over, CombineFor(slots, q, LimitsOf(dev, guardBand), dev.caps.rateMax, true), channel);
      if RankAllows(over, registry, rank) then seat else NoSeat
  }

  // A device with a seat to offer; one that has to be tuned and cannot be (tunes says
  // which can) is passed over.
  predicate CanJoin(devices: seq<Device>, b: Books, q: Request, rank: int, guardBand: real,
                    channel: int, tunes: nat -> bool, i: nat)
    requires |b.timelines| == |devices| && i < |devices|
  {
    var seat := SeatOn(devices[i], b.timelines[i], b.registry, q, rank, guardBand, channel);
    seat != NoSeat && (seat.Widen? && seat.tune ==> tunes(i))
  }

  function Seated(slots: seq<Slot>, seat: Seat): (r: seq<Slot>)
    requires seat != NoSeat && seat.fit.Fit?
  {
    if seat.Widen? && seat.tune then Retuned(slots, seat.fit.cf, seat.fit.rate) else slots
  }

  // The first device from index i on that can be joined.
  function Joined(devices: seq<Device>, b: Books, q: Request, rank: int, guardBand: real,
                  channel: int, tunes: nat -> bool, i: nat): (r: (Books, Option<(nat, FitResult)>))
    requires |b.timelines| == |devices| && i <= |devices|
    ensures r.0.registry == b.registry && r.0.pool == b.pool
    ensures |r.0.timelines| == |b.timelines|
    ensures r.1.Some? ==> i <= r.1.value.0 < |devices| && r.1.value.1.Fit?
    decreases |devices| - i
  {
    if i == |devices| then (b, None)
    else if !CanJoin(devices, b, q, rank, guardBand, channel, tunes, i) then
      Joined(devices, b, q, rank, guardBand, channel, tunes, i + 1)
    else
      var seat := SeatOn(devices[i], b.timelines[i], b.registry, q, rank, guardBand, channel);
      (b.(timelines := b.timelines[i := Seated(b.timelines[i], seat)]), Some((i, seat.fit)))
  }

  // Every device before the one that is joined could not be.
  lemma {:induction false} JoinsFirst(devices: seq<Device>, b: Books, q: Request, rank: int, guardBand: real,
                                      channel: int, tunes: nat -> bool, i: nat)
    requires |b.timelines| == |devices| && i <= |devices|
    ensures var choice := Joined(devices, b, q, rank, guardBand, channel, tunes, i).1;
            var end := if choice.Some? then choice.value.0 else |devices|;
            && (choice.Some? ==> CanJoin(devices, b, q, rank, guardBand, channel, tunes, end))
            && forall j: nat :: i <= j < end ==> !CanJoin(devices, b, q, rank, guardBand, channel, tunes, j)
    decreases |devices| - i
  {
    if i == |devices| || CanJoin(devices, b, q, rank, guardBand, channel, tunes, i) {
    } else {
      JoinsFirst(devices, b, q, rank, guardBand, channel, tunes, i + 1);
    }
  }

  // A seat means: the device is shared and in use by tasks none of which ranks higher, the
  // channels offered are ones it already streams, as many as can be had up to the number
  // asked for, and the slice lies in the window.
  lemma SeatIsSafe(dev: Device, slots: seq<Slot>, registry: map<TaskId, Record>,
                   q: Request, rank: int, guardBand: real, channel: int)
    requires guardBand >= 0.0
    requires SeatOn(dev, slots, registry, q, rank, guardBand, channel) != NoSeat
    ensures var fit := SeatOn(dev, slots, registry, q, rank, guardBand, channel).fit;
            var over := Overlapping(slots, q.start, q.stop);
            && dev.online && dev.sharedLo && fit.Fit? && over != []
            && RankAllows(over, registry, rank)
            && WindowLo(fit.cf, fit.rate) <= fit.lo && fit.hi <= WindowHi(fit.cf, fit.rate)
            && fit.lo == q.cf - q.bw / 2.0 && fit.hi == q.cf + q.bw / 2.0
            && fit.tx == [] && NoDuplicates(fit.rx) && fit.rx != []
            && (forall c: nat :: c in fit.rx ==> InUse(over, c))
            && (q.rxCount > 0 ==> |fit.rx| <= q.rxCount)
            && (channel >= 0 ==> fit.rx == [channel])
  {
    var over := Overlapping(slots, q.start, q.stop);
    if !SameCf(over, q.cf) {
      var lim := LimitsOf(dev, guardBand);
      CombineKeepsOverlappingSlots(slots, q, lim, dev.caps.rateMax, true);
      SharedChannelsOffered([], over, q.rxCount);
      var rx := CombineFor(slots, q, lim, dev.caps.rateMax, true).rx;
      assert forall c: nat :: c in rx ==> InUse(over, c);
    }
  }

  // The distinct RX channels some slots list.
  function Listed(over: seq<Slot>): set<nat>
  {
    set s, c | s in over && c in s.rx :: c
  }

  // How many RX channels a seat comes with.
  function OfferedChannels(over: seq<Slot>, q: Request, channel: int): nat
  {
    if channel >= 0 then 1
    else if q.rxCount == 0 then |Listed(over)|
    else Min(q.rxCount, |Listed(over)|)
  }

  lemma CollectedCount(over: seq<Slot>, count: nat)
    requires CollectAll([], over, count) != []
    ensures |CollectAll([], over, count)| == if count == 0 then |Listed(over)| else Min(count, |Listed(over)|)
  {
    var rx := CollectAll([], over, count);
    SharedChannelsOffered([], over, count);
    ElementsSize(rx);
    assert Elements(rx) <= Listed(over);
    SubsetSize(Elements(rx), Listed(over));
    if |rx| != count {
      assert Elements(rx) == Listed(over);
    }
  }

  // A seat comes with exactly that many, and with no TX channel.
  lemma SeatOffers(dev: Device, slots: seq<Slot>, registry: map<TaskId, Record>,
                   q: Request, rank: int, guardBand: real, channel: int)
    requires SeatOn(dev, slots, registry, q, rank, guardBand, channel) != NoSeat
    ensures var fit := SeatOn(dev, slots, registry, q, rank, guardBand, channel).fit;
            fit.tx == [] && |fit.rx| == OfferedChannels(Overlapping(slots, q.start, q.stop), q, channel)
  {
    var over := Overlapping(slots, q.start, q.stop);
    if !SameCf(over, q.cf) && channel < 0 {
      CollectedCount(over, q.rxCount);
    }
  }

  // Apart from its tuning, the slot is the same.
  predicate SameButTuning(a: Slot, b: Slot)
  {
    a == Tuned(b, a.cf, a.rate)
  }

  ghost predicate OnlyTuningChanged(a: seq<Slot>, b: seq<Slot>)
  {
    |a| == |b| && forall i :: 0 <= i < |a| ==> SameButTuning(a[i], b[i])
  }

  ghost predicate KeepGuards(slots: seq<Slot>, q: Request, guardBand: real)
  {
    forall s :: s in slots && Overlaps(s, q.start, q.stop) ==> Covers(s.cf, s.rate, s.lo, s.hi, guardBand)
  }

  lemma WideningMovesNothing(dev: Device, slots: seq<Slot>, registry: map<TaskId, Record>,
                             q: Request, rank: int, guardBand: real, channel: int)
    requires SeatOn(dev, slots, registry, q, rank, guardBand, channel).Widen?
    ensures var fit := SeatOn(dev, slots, registry, q, rank, guardBand, channel).fit;
            var after := Retuned(slots, fit.cf, fit.rate);
            OnlyTuningChanged(after, slots) && KeepGuards(after, q, guardBand)
  {
    CombineKeepsOverlappingSlots(slots, q, LimitsOf(dev, guardBand), dev.caps.rateMax, true);
  }

  // The seat taken, if any: which device, and what it offers.
  ghost predicate SeatTaken(devices: seq<Device>, b: Books, q: Request, rank: int, guardBand: real,
                            channel: int, d: nat, fit: FitResult)
    requires |b.timelines| == |devices| && d < |devices|
  {
    var seat := SeatOn(devices[d], b.timelines[d], b.registry, q, rank, guardBand, channel);
    seat != NoSeat && seat.fit == fit
  }

  // Joining a device moves no slot, on any device: only tunings change, and only on the
  // device that is joined. If that device was tuned at all, every overlapping slot keeps
  // its guard bands inside the window it then stores.
  lemma {:induction false} JoiningMovesNothing(devices: seq<Device>, b: Books, q: Request, rank: int, guardBand: real,
                                               channel: int, tunes: nat -> bool, i: nat, d: nat)
    requires |b.timelines| == |devices| && i <= |devices| && d < |devices|
    ensures var (after, chosen) := Joined(devices, b, q, rank, guardBand, channel, tunes, i);
            && OnlyTuningChanged(after.timelines[d], b.timelines[d])
            && (after.timelines[d] != b.timelines[d] ==>
                  chosen.Some? && chosen.value.0 == d && KeepGuards(after.timelines[d], q, guardBand))
            && (chosen.Some? && chosen.value.0 == d ==>
                  SeatTaken(devices, b, q, rank, guardBand, channel, d, chosen.value.1))
    decreases |devices| - i
  {
    if i == |devices| {
    } else if !CanJoin(devices, b, q, rank, guardBand, channel, tunes, i) {
      JoiningMovesNothing(devices, b, q, rank, guardBand, channel, tunes, i + 1, d);
    } else if SeatOn(devices[i], b.timelines[i], b.registry, q, rank, guardBand, channel).Widen? {
      WideningMovesNothing(devices[i], b.timelines[i], b.registry, q, rank, guardBand, channel);
    }
  }
}
