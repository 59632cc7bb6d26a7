// The per-device timeline object (src/SpectrumTimeline.cpp). Its methods are the loops
// of the source; each is proved against the functions of Fitting and Combining.
module SpectrumTimeline {
  import opened Basics
  import opened Slots
  import opened FirstFit
  import opened Channels
  import opened Fitting
  import opened Combining

  method FitIndependent(over: seq<Slot>, q: Request, lim: Limits, preferred: int) returns (fit: FitResult)
    ensures fit == IndependentFit(over, q, lim, preferred)
  {
    var rxUsed, usedRx := MarkUsed(RxLists(over), lim.maxRx);
    var txUsed, usedTx := MarkUsed(TxLists(over), lim.maxTx);
    if usedRx + q.rxCount > lim.maxRx {
      return NoFit(ChannelCountExceeded);
    }
    if usedTx + q.txCount > lim.maxTx {
      return NoFit(ChannelCountExceeded);
    }
    var rx: seq<nat>;
    if preferred >= 0 && q.rxCount == 1 {
      if preferred >= lim.maxRx || rxUsed[preferred] {
        return NoFit(ChannelCountExceeded);
      }
      rx := [preferred];
    } else {
      rx := PickFree(rxUsed, Taken(RxLists(over)), q.rxCount);
    }
    var tx := PickFree(txUsed, Taken(TxLists(over)), q.txCount);
    fit := Fit(q.cf, q.rate, q.cf - q.bw / 2.0, q.cf + q.bw / 2.0, rx, tx);
  }

  // The packing of the slices, given the window and the width with guards.
  method PlaceSlice(over: seq<Slot>, q: Request, lim: Limits, winLo: real, winHi: real, needed: real)
      returns (place: Option<real>)
    requires winLo == WindowLo(q.cf, q.rate) && winHi == WindowHi(q.cf, q.rate)
    requires needed == q.bw + 2.0 * InnerGuard(over, lim)
    ensures place == Placement(over, q, lim)
  {
    place := SortAndPack(Padded(over, lim.guardBand), winLo, winHi, needed);
  }

  method FitShared(over: seq<Slot>, q: Request, lim: Limits, preferred: int) returns (fit: FitResult)
    ensures fit == SharedFit(over, q, lim, preferred)
  {
    var devCf, devRate := q.cf, q.rate;
    if over != [] {
      devCf, devRate := over[0].cf, over[0].rate;
      if q.cf != devCf || q.rate != devRate {
        return NoFit(RetuneConflict);
      }
    }
    var winLo, winHi := devCf - devRate / 2.0, devCf + devRate / 2.0;
    if q.cf - q.bw / 2.0 < winLo || q.cf + q.bw / 2.0 > winHi {
      return NoFit(SpectrumConflict);
    }
    var guardInner := if over == [] then 0.0 else lim.guardBand;
    var place := PlaceSlice(over, q, lim, winLo, winHi, q.bw + 2.0 * guardInner);
    if place == None {
      return NoFit(SpectrumConflict);
    }
    var lo := place.value + guardInner;
    var channels := ShareChannels(over, q, lim, preferred);
    if channels == None {
      return NoFit(ChannelCountExceeded);
    }
    fit := Fit(devCf, devRate, lo, lo + q.bw, channels.value.0, channels.value.1);
  }

  method ShareChannels(over: seq<Slot>, q: Request, lim: Limits, preferred: int)
      returns (channels: Option<(seq<nat>, seq<nat>)>)
    ensures channels == SharedChannels(over, q, lim, preferred)
  {
    var rxUsed, usedRx := MarkUsed(RxLists(over), lim.maxRx);
    var txUsed, usedTx := MarkUsed(TxLists(over), lim.maxTx);
    var rx: seq<nat>;
    if preferred >= 0 && q.rxCount == 1 {
      if preferred >= lim.maxRx {
        return None;
      }
      rx := [preferred];
    } else {
      if usedRx + q.rxCount > lim.maxRx {
        return None;
      }
      rx := PickFree(rxUsed, Taken(RxLists(over)), q.rxCount);
    }
    if usedTx + q.txCount > lim.maxTx {
      return None;
    }
    var tx := PickFree(txUsed, Taken(TxLists(over)), q.txCount);
    channels := Some((rx, tx));
  }

  lemma RxListsAppend(slots: seq<Slot>, s: Slot)
    ensures Total(RxLists(slots + [s])) == Total(RxLists(slots)) + |s.rx|
  {
    assert RxLists(slots + [s])[..|slots|] == RxLists(slots);
  }

  method Edges(over: seq<Slot>, lo: real, hi: real) returns (minLo: real, maxHi: real)
    ensures minLo == LowEdge(over, lo) && maxHi == HighEdge(over, hi)
  {
    minLo, maxHi := lo, hi;
    for i := 0 to |over|
      invariant minLo == LowEdge(over[..i], lo) && maxHi == HighEdge(over[..i], hi)
    {
      assert over[..i + 1][..i] == over[..i];
      minLo := MinR(minLo, over[i].lo);
      maxHi := MaxR(maxHi, over[i].hi);
    }
    assert over[..|over|] == over;
  }

  // Distinct channels of the overlapping slots, stopping once there are `count`.
  method GatherChannels(over: seq<Slot>, count: nat) returns (existing: seq<nat>)
    ensures existing == CollectAll([], over, count)
  {
    existing := [];
    for i := 0 to |over|
      invariant CollectAll(existing, over[i..], count) == CollectAll([], over, count)
    {
      ghost var before := existing;
      var list := over[i].rx;
      var k := 0;
      var done := false;
      while k < |list| && !done
        invariant 0 <= k <= |list|
        invariant !done ==> Collect(existing, list[k..], count) == Collect(before, list, count)
        invariant done ==> existing == Collect(before, list, count)
      {
        if list[k] !in existing {
          existing := existing + [list[k]];
        }
        if |existing| == count {
          done := true;
        }
        k := k + 1;
      }
      if |existing| == count {
        return;
      }
    }
  }

  class SpectrumTimeline {
    var slots: seq<Slot>

    constructor ()
      ensures slots == []
    {
      slots := [];
    }

    method SlotsOverlapping(start: int, stop: int) returns (over: seq<Slot>)
      ensures over == Overlapping(slots, start, stop)
    {
      over := [];
      for i := 0 to |slots|
        invariant over == Overlapping(slots[..i], start, stop)
      {
        assert slots[..i + 1][..i] == slots[..i];
        if Overlaps(slots[i], start, stop) {
          over := over + [slots[i]];
        }
      }
      assert slots[..|slots|] == slots;
    }

    method CanFit(q: Request, lim: Limits, sharedLo: bool, preferred: int) returns (fit: FitResult)
      ensures fit == FitFor(slots, q, lim, sharedLo, preferred)
    {
      var over := SlotsOverlapping(q.start, q.stop);
      if !sharedLo {
        fit := FitIndependent(over, q, lim, preferred);
      } else {
        fit := FitShared(over, q, lim, preferred);
      }
    }

    method Insert(s: Slot)
      modifies this
      ensures slots == old(slots) + [s]
    {
      slots := slots + [s];
    }

    method Remove(task: TaskId)
      modifies this
      ensures slots == Without(old(slots), task)
    {
      var kept: seq<Slot> := [];
      for i := 0 to |slots|
        invariant slots == old(slots)
        invariant kept == Without(slots[..i], task)
      {
        assert slots[..i + 1][..i] == slots[..i];
        if slots[i].task != task {
          kept := kept + [slots[i]];
        }
      }
      assert slots[..|slots|] == slots;
      slots := kept;
    }

    // Every slot of the device takes the new tuning, whether or not it overlaps.
    method UpdateDeviceTune(cf: real, rate: real)
      modifies this
      ensures slots == Retuned(old(slots), cf, rate)
    {
      for i := 0 to |slots|
        invariant |slots| == |old(slots)|
        invariant forall k :: 0 <= k < i ==> slots[k] == Tuned(old(slots)[k], cf, rate)
        invariant forall k :: i <= k < |slots| ==> slots[k] == old(slots)[k]
      {
        slots := slots[i := slots[i].(cf := cf, rate := rate)];
      }
    }

    method CanCombine(q: Request, lim: Limits, maxRate: real, reuse: bool) returns (r: CombineResult)
      ensures r == CombineFor(slots, q, lim, maxRate, reuse)
    {
      var over := SlotsOverlapping(q.start, q.stop);
      if over == [] {
        return NotCombined;
      }
      var reqLo, reqHi := q.cf - q.bw / 2.0, q.cf + q.bw / 2.0;
      var minLo, maxHi := Edges(over, reqLo, reqHi);
      var rate := (maxHi - minLo) + 2.0 * lim.guardBand;
      var cf := (minLo + maxHi) / 2.0;
      if rate > maxRate {
        return NotCombined;
      }
      if reuse {
        var existing := GatherChannels(over, q.rxCount);
        if existing == [] {
          return NotCombined;
        }
        return Combined(cf, rate, reqLo, reqHi, existing);
      }
      var used, count := MarkUsed(RxLists(over), lim.maxRx);
      if count + q.rxCount > lim.maxRx {
        return NotCombined;
      }
      var rx := PickFree(used, Taken(RxLists(over)), q.rxCount);
      return Combined(cf, rate, reqLo, reqHi, rx);
    }

    method AllocatedBw(t: int) returns (sum: real)
      ensures sum == Bandwidth(Active(slots, t))
    {
      sum := 0.0;
      for i := 0 to |slots|
        invariant sum == Bandwidth(Active(slots[..i], t))
      {
        assert slots[..i + 1][..i] == slots[..i];
        ghost var before := Active(slots[..i], t);
        assert (before + [slots[i]])[..|before|] == before;
        if t >= slots[i].start && t < slots[i].stop {
          sum := sum + slots[i].hi - slots[i].lo;
        }
      }
      assert slots[..|slots|] == slots;
    }

    method UsedRx(t: int) returns (n: nat)
      ensures n == Total(RxLists(Active(slots, t)))
    {
      n := 0;
      for i := 0 to |slots|
        invariant n == Total(RxLists(Active(slots[..i], t)))
      {
        assert slots[..i + 1][..i] == slots[..i];
        ghost var before := Active(slots[..i], t);
        RxListsAppend(before, slots[i]);
        if t >= slots[i].start && t < slots[i].stop {
          n := n + |slots[i].rx|;
        }
      }
      assert slots[..|slots|] == slots;
    }
  }
}
