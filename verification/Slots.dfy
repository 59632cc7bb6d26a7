// The reservations a device timeline keeps, and what a caller asks of it
// (include/SpectrumTimeline.hpp). Frequencies and rates are reals in Hz, times
// are integer milliseconds.
module Slots {
  import opened Basics

  type TaskId = nat

  datatype Slot = Slot(
    task: TaskId,
    start: int, stop: int,
    cf: real, rate: real,
    lo: real, hi: real,
    rx: seq<nat>, tx: seq<nat>)

  datatype Request = Request(
    start: int, stop: int,
    cf: real, bw: real, rate: real,
    rxCount: nat, txCount: nat)

  // The limits of the device a timeline belongs to.
  datatype Limits = Limits(maxRx: nat, maxTx: nat, guardBand: real)

  datatype RejectCode = RetuneConflict | SpectrumConflict | ChannelCountExceeded

  datatype FitResult =
    | Fit(cf: real, rate: real, lo: real, hi: real, rx: seq<nat>, tx: seq<nat>)
    | NoFit(code: RejectCode)

  predicate TimesOverlap(a0: int, a1: int, b0: int, b1: int)
  {
    a0 < b1 && b0 < a1
  }

  predicate Overlaps(s: Slot, start: int, stop: int)
  {
    TimesOverlap(start, stop, s.start, s.stop)
  }

  predicate Clash(a: Slot, b: Slot)
  {
    TimesOverlap(a.start, a.stop, b.start, b.stop)
  }

  predicate ActiveAt(s: Slot, t: int)
  {
    s.start <= t < s.stop
  }

  // The slots overlapping a time window, in timeline order.
  function Overlapping(slots: seq<Slot>, start: int, stop: int): (over: seq<Slot>)
    ensures forall s :: s in over <==> s in slots && Overlaps(s, start, stop)
  {
    if slots == [] then []
    else
      var rest := Overlapping(slots[..|slots| - 1], start, stop);
      var last := slots[|slots| - 1];
      if Overlaps(last, start, stop) then rest + [last] else rest
  }

  function Active(slots: seq<Slot>, t: int): (active: seq<Slot>)
    ensures forall s :: s in active <==> s in slots && ActiveAt(s, t)
  {
    if slots == [] then []
    else
      var rest := Active(slots[..|slots| - 1], t);
      var last := slots[|slots| - 1];
      if ActiveAt(last, t) then rest + [last] else rest
  }

  // What is left when the slots of one task are removed.
  function Without(slots: seq<Slot>, task: TaskId): (rest: seq<Slot>)
    ensures forall s :: s in rest <==> s in slots && s.task != task
  {
    if slots == [] then []
    else
      var rest := Without(slots[..|slots| - 1], task);
      var last := slots[|slots| - 1];
      if last.task != task then rest + [last] else rest
  }

  // All three keep or drop each slot on its own and leave the order as it is.
  lemma OneSlot(s: Slot, start: int, stop: int, task: TaskId)
    ensures Overlapping([s], start, stop) == if s.start < stop && start < s.stop then [s] else []
    ensures Active([s], start) == if s.start <= start < s.stop then [s] else []
    ensures Without([s], task) == if s.task != task then [s] else []
  {
    assert [s][..0] == [];
  }

  lemma {:induction false} OverlappingSplits(a: seq<Slot>, b: seq<Slot>, start: int, stop: int)
    ensures Overlapping(a + b, start, stop) == Overlapping(a, start, stop) + Overlapping(b, start, stop)
  {
    if b == [] {
      assert a + b == a;
    } else {
      var n := |b| - 1;
      OverlappingSplits(a, b[..n], start, stop);
      assert (a + b)[..|a + b| - 1] == a + b[..n];
    }
  }

  lemma {:induction false} ActiveSplits(a: seq<Slot>, b: seq<Slot>, t: int)
    ensures Active(a + b, t) == Active(a, t) + Active(b, t)
  {
    if b == [] {
      assert a + b == a;
    } else {
      var n := |b| - 1;
      ActiveSplits(a, b[..n], t);
      assert (a + b)[..|a + b| - 1] == a + b[..n];
    }
  }

  lemma {:induction false} WithoutSplits(a: seq<Slot>, b: seq<Slot>, task: TaskId)
    ensures Without(a + b, task) == Without(a, task) + Without(b, task)
  {
    if b == [] {
      assert a + b == a;
    } else {
      var n := |b| - 1;
      WithoutSplits(a, b[..n], task);
      assert (a + b)[..|a + b| - 1] == a + b[..n];
    }
  }

  function Tuned(s: Slot, cf: real, rate: real): Slot
  {
    s.(cf := cf, rate := rate)
  }

  function WindowLo(cf: real, rate: real): real { cf - rate / 2.0 }

  function WindowHi(cf: real, rate: real): real { cf + rate / 2.0 }

  // The summed width of some slices.
  function Bandwidth(slots: seq<Slot>): real
  {
    if slots == [] then 0.0
    else Bandwidth(slots[..|slots| - 1]) + (slots[|slots| - 1].hi - slots[|slots| - 1].lo)
  }

  // One slot counts with its width, and more than one with their sum.
  lemma {:induction false} BandwidthAdds(a: seq<Slot>, b: seq<Slot>)
    ensures Bandwidth(a + b) == Bandwidth(a) + Bandwidth(b)
    ensures forall s :: Bandwidth([s]) == s.hi - s.lo
  {
    forall s: Slot
      ensures Bandwidth([s]) == s.hi - s.lo
    {
      assert [s][..0] == [];
    }
    if b == [] {
      assert a + b == a;
    } else {
      var n := |b| - 1;
      BandwidthAdds(a, b[..n]);
      assert (a + b)[..|a + b| - 1] == a + b[..n];
    }
  }
}
