// What every run of canFit-then-insert and remove keeps on one timeline.
module TimelineRuns {
  import opened Basics
  import opened Slots
  import opened FirstFit
  import opened Channels
  import opened Fitting
  import Placing

  // One caller-visible operation: ask for a fit and insert the slot it gives, or drop
  // the slots of a task.
  datatype Op =
    | Book(task: TaskId, q: Request, preferred: int)
    | Cancel(task: TaskId)

  function SlotOf(task: TaskId, q: Request, fit: FitResult): Slot
    requires fit.Fit?
  {
    Slot(task, q.start, q.stop, fit.cf, fit.rate, fit.lo, fit.hi, fit.rx, fit.tx)
  }

  function Apply(slots: seq<Slot>, op: Op, lim: Limits, sharedLo: bool): seq<Slot>
  {
    match op
    case Book(task, q, preferred) =>
      var fit := FitFor(slots, q, lim, sharedLo, preferred);
      if fit.Fit? then slots + [SlotOf(task, q, fit)] else slots
    case Cancel(task) => Without(slots, task)
  }

  function Run(ops: seq<Op>, lim: Limits, sharedLo: bool): seq<Slot>
  {
    if ops == [] then []
    else Apply(Run(ops[..|ops| - 1], lim, sharedLo), ops[|ops| - 1], lim, sharedLo)
  }

  ghost predicate Adds(before: seq<Slot>, after: seq<Slot>, task: TaskId, q: Request, lim: Limits, sharedLo: bool,
                       preferred: int, fit: FitResult)
  {
    && fit.Fit? && Placing.Given(before, q, lim, sharedLo, preferred, fit)
    && after == before + [Slot(task, q.start, q.stop, fit.cf, fit.rate, fit.lo, fit.hi, fit.rx, fit.tx)]
  }

  // Asking and inserting adds one slot for the task, at the end, with what fits, or nothing
  // if nothing does.
  lemma BookingAdds(ops: seq<Op>, lim: Limits, sharedLo: bool, task: TaskId, q: Request, preferred: int)
    ensures var before := Run(ops, lim, sharedLo);
            var after := Run(ops + [Book(task, q, preferred)], lim, sharedLo);
            if Placing.Fits(before, q, lim, sharedLo, preferred)
            then Adds(before, after, task, q, lim, sharedLo, preferred, FitFor(before, q, lim, sharedLo, preferred))
            else after == before
  {
    var op := Book(task, q, preferred);
    assert (ops + [op])[..|ops|] == ops;
    Placing.FitExactly(Run(ops, lim, sharedLo), q, lim, sharedLo, preferred);
    Placing.FitsExactlyWhen(Run(ops, lim, sharedLo), q, lim, sharedLo, preferred);
  }

  // ---- Relations that hold between every two slots ----

  ghost predicate Pairwise(rel: (Slot, Slot) -> bool, slots: seq<Slot>)
  {
    forall i, j :: 0 <= i < j < |slots| ==> rel(slots[i], slots[j])
  }

  lemma PairwiseAppend(rel: (Slot, Slot) -> bool, slots: seq<Slot>, s: Slot)
    requires Pairwise(rel, slots) && forall r :: r in slots ==> rel(r, s)
    ensures Pairwise(rel, slots + [s])
  {
  }

  lemma PairwisePrefix(rel: (Slot, Slot) -> bool, slots: seq<Slot>, n: nat)
    requires Pairwise(rel, slots) && n < |slots|
    ensures Pairwise(rel, slots[..n]) && forall r :: r in slots[..n] ==> rel(r, slots[n])
  {
    forall r | r in slots[..n]
      ensures rel(r, slots[n])
    {
      var i :| 0 <= i < n && slots[i] == r;
    }
  }

  lemma {:induction false} PairwiseWithout(rel: (Slot, Slot) -> bool, slots: seq<Slot>, task: TaskId)
    requires Pairwise(rel, slots)
    ensures Pairwise(rel, Without(slots, task))
  {
    if slots == [] {
    } else {
      var n := |slots| - 1;
      PairwisePrefix(rel, slots, n);
      PairwiseWithout(rel, slots[..n], task);
      PairwiseAppendIf(rel, Without(slots[..n], task), slots[n]);
    }
  }

  lemma {:induction false} PairwiseActive(rel: (Slot, Slot) -> bool, slots: seq<Slot>, t: int)
    requires Pairwise(rel, slots)
    ensures Pairwise(rel, Active(slots, t))
  {
    if slots == [] {
    } else {
      var n := |slots| - 1;
      PairwisePrefix(rel, slots, n);
      PairwiseActive(rel, slots[..n], t);
      PairwiseAppendIf(rel, Active(slots[..n], t), slots[n]);
    }
  }

  lemma PairwiseAppendIf(rel: (Slot, Slot) -> bool, slots: seq<Slot>, s: Slot)
    requires Pairwise(rel, slots)
    ensures (forall r :: r in slots ==> rel(r, s)) ==> Pairwise(rel, slots + [s])
  {
    if forall r :: r in slots ==> rel(r, s) {
      PairwiseAppend(rel, slots, s);
    }
  }

  // ---- Shared-LO timelines: guard separation ----

  ghost predicate Apart(a: Slot, b: Slot, gap: real)
  {
    a.hi + gap <= b.lo || b.hi + gap <= a.lo
  }

  ghost predicate InOwnWindow(s: Slot)
  {
    WindowLo(s.cf, s.rate) <= s.lo < s.hi <= WindowHi(s.cf, s.rate)
  }

  ghost function ClearOfEachOther(gap: real): (Slot, Slot) -> bool
  {
    (a: Slot, b: Slot) => Clash(a, b) ==> Apart(a, b, gap)
  }

  ghost predicate Packed(slots: seq<Slot>, guardBand: real)
  {
    && Pairwise(ClearOfEachOther(2.0 * guardBand), slots)
    && forall s :: s in slots ==> InOwnWindow(s)
  }

  // What doAcceptStandard demands of a request before it reaches the timeline.
  ghost predicate Admissible(op: Op)
  {
    op.Book? ==> op.q.bw > 0.0
  }

  lemma BookedSliceIsApart(slots: seq<Slot>, task: TaskId, q: Request, lim: Limits, preferred: int)
    requires lim.guardBand >= 0.0 && q.bw > 0.0
    requires FitFor(slots, q, lim, true, preferred).Fit?
    ensures var s := SlotOf(task, q, FitFor(slots, q, lim, true, preferred));
            InOwnWindow(s) && forall r :: r in slots && Clash(r, s) ==> Apart(r, s, 2.0 * lim.guardBand)
  {
    var over := Overlapping(slots, q.start, q.stop);
    var s := SlotOf(task, q, FitFor(slots, q, lim, true, preferred));
    SharedPlacementIsLeast(over, q, lim, preferred);
    assert CanLie(over, q, lim.guardBand, s.lo);
    forall r | r in slots && Clash(r, s)
      ensures Apart(r, s, 2.0 * lim.guardBand)
    {
      assert r in over;
    }
  }

  // In every run on a shared-LO timeline, any two slices that overlap in time are at
  // least two guard bands apart, and each lies inside the window it stores.
  lemma {:induction false} SharedRunStaysPacked(ops: seq<Op>, lim: Limits)
    requires lim.guardBand >= 0.0 && forall op :: op in ops ==> Admissible(op)
    ensures Packed(Run(ops, lim, true), lim.guardBand)
  {
    if ops == [] {
    } else {
      var n := |ops| - 1;
      SharedRunStaysPacked(ops[..n], lim);
      var before := Run(ops[..n], lim, true);
      var rel := ClearOfEachOther(2.0 * lim.guardBand);
      match ops[n]
      case Book(task, q, preferred) =>
        assert Admissible(ops[n]);
        if FitFor(before, q, lim, true, preferred).Fit? {
          BookedSliceIsApart(before, task, q, lim, preferred);
          PairwiseAppend(rel, before, SlotOf(task, q, FitFor(before, q, lim, true, preferred)));
        }
      case Cancel(task) =>
        PairwiseWithout(rel, before, task);
    }
  }

  // The slot that reaches highest.
  lemma {:induction false} HighestSlot(slots: seq<Slot>) returns (m: nat)
    requires slots != []
    ensures m < |slots| && forall i :: 0 <= i < |slots| ==> slots[i].hi <= slots[m].hi
  {
    var n := |slots| - 1;
    m := n;
    if n > 0 {
      var k := HighestSlot(slots[..n]);
      if slots[k].hi > slots[n].hi { m := k; }
    }
  }

  lemma {:induction false} BandwidthSplit(slots: seq<Slot>, m: nat)
    requires m < |slots|
    ensures Bandwidth(slots) == Bandwidth(slots[..m] + slots[m + 1..]) + slots[m].hi - slots[m].lo
  {
    var n := |slots| - 1;
    if m < n {
      BandwidthSplit(slots[..n], m);
      assert slots[..n][..m] + slots[..n][m + 1..] == (slots[..m] + slots[m + 1..])[..n - 1];
      assert (slots[..m] + slots[m + 1..])[n - 1] == slots[n];
    } else {
      assert slots[..m] + slots[m + 1..] == slots[..n];
    }
  }

  // n gaps in a row: n times the gap.
  ghost function Gaps(gap: real, n: nat): real
  {
    if n == 0 then 0.0 else Gaps(gap, n - 1) + gap
  }

  lemma {:induction false} GapsIsProduct(gap: real, n: nat)
    ensures Gaps(gap, n) == gap * n as real
  {
    if n == 0 {
    } else {
      GapsIsProduct(gap, n - 1);
      OneMore(gap, (n - 1) as real);
    }
  }

  lemma OneMore(x: real, y: real)
    ensures x * (y + 1.0) == x * y + x
  {
  }

  ghost predicate Inside(s: Slot, lo: real, hi: real)
  {
    lo <= s.lo < s.hi <= hi
  }

  ghost predicate SpreadOut(slots: seq<Slot>, lo: real, hi: real, gap: real)
  {
    && (forall i :: 0 <= i < |slots| ==> Inside(slots[i], lo, hi))
    && (forall i, j :: 0 <= i < j < |slots| ==> Apart(slots[i], slots[j], gap))
  }

  // Without its highest slice, a spread of slices lies below that slice and its gap.
  lemma DropHighest(slots: seq<Slot>, m: nat, lo: real, hi: real, gap: real)
    requires gap >= 0.0 && SpreadOut(slots, lo, hi, gap)
    requires m < |slots| && forall i :: 0 <= i < |slots| ==> slots[i].hi <= slots[m].hi
    ensures SpreadOut(slots[..m] + slots[m + 1..], lo, slots[m].lo - gap, gap)
  {
    var rest := slots[..m] + slots[m + 1..];
    forall i | 0 <= i < |rest|
      ensures Inside(rest[i], lo, slots[m].lo - gap)
    {
      var k := if i < m then i else i + 1;
      assert rest[i] == slots[k] && Inside(slots[k], lo, hi) && Inside(slots[m], lo, hi);
      assert if k < m then Apart(slots[k], slots[m], gap) else Apart(slots[m], slots[k], gap);
    }
    forall i, j | 0 <= i < j < |rest|
      ensures Apart(rest[i], rest[j], gap)
    {
      var i', j' := if i < m then i else i + 1, if j < m then j else j + 1;
      assert rest[i] == slots[i'] && rest[j] == slots[j'];
    }
  }

  // Slices that are pairwise apart and lie in a window leave room for all the gaps.
  lemma {:induction false} GapsFit(slots: seq<Slot>, lo: real, hi: real, gap: real)
    requires slots != [] && gap >= 0.0 && SpreadOut(slots, lo, hi, gap)
    ensures Bandwidth(slots) + Gaps(gap, |slots| - 1) <= hi - lo
    decreases |slots|
  {
    var m := HighestSlot(slots);
    BandwidthSplit(slots, m);
    assert Inside(slots[m], lo, hi);
    var rest := slots[..m] + slots[m + 1..];
    if rest == [] {
      assert Bandwidth(rest) == 0.0;
    } else {
      DropHighest(slots, m, lo, hi, gap);
      GapsFit(rest, lo, slots[m].lo - gap, gap);
    }
  }

  // The bandwidth of some slots, with two guard bands between each and the next, is at most
  // the rate.
  ghost predicate FitWithGuards(slots: seq<Slot>, guardBand: real, rate: real)
  {
    Bandwidth(slots) + 2.0 * guardBand * (|slots| - 1) as real <= rate
  }

  lemma GuardsFit(slots: seq<Slot>, lo: real, hi: real, guardBand: real)
    requires slots != [] && guardBand >= 0.0 && SpreadOut(slots, lo, hi, 2.0 * guardBand)
    ensures FitWithGuards(slots, guardBand, hi - lo)
  {
    GapsFit(slots, lo, hi, 2.0 * guardBand);
    GapsIsProduct(2.0 * guardBand, |slots| - 1);
  }

  // At any instant whose active slots agree on the tuning, the allocated bandwidth and
  // the guard bands between the slices fit in the sample rate.
  lemma AllocatedBandwidthFits(ops: seq<Op>, lim: Limits, t: int, cf: real, rate: real)
    requires lim.guardBand >= 0.0 && forall op :: op in ops ==> Admissible(op)
    requires var active := Active(Run(ops, lim, true), t);
             active != [] && forall s :: s in active ==> s.cf == cf && s.rate == rate
    ensures FitWithGuards(Active(Run(ops, lim, true), t), lim.guardBand, rate)
  {
    SharedRunStaysPacked(ops, lim);
    PackedBandwidthFits(Run(ops, lim, true), lim, t, cf, rate);
  }

  lemma PackedBandwidthFits(slots: seq<Slot>, lim: Limits, t: int, cf: real, rate: real)
    requires lim.guardBand >= 0.0 && Packed(slots, lim.guardBand)
    requires Active(slots, t) != [] && forall s :: s in Active(slots, t) ==> s.cf == cf && s.rate == rate
    ensures FitWithGuards(Active(slots, t), lim.guardBand, rate)
  {
    ActiveAreSpreadOut(slots, lim, t, cf, rate);
    GuardsFit(Active(slots, t), WindowLo(cf, rate), WindowHi(cf, rate), lim.guardBand);
  }

  lemma ActiveAreSpreadOut(slots: seq<Slot>, lim: Limits, t: int, cf: real, rate: real)
    requires Packed(slots, lim.guardBand)
    requires forall s :: s in Active(slots, t) ==> s.cf == cf && s.rate == rate
    ensures SpreadOut(Active(slots, t), WindowLo(cf, rate), WindowHi(cf, rate), 2.0 * lim.guardBand)
  {
    var active := Active(slots, t);
    PairwiseActive(ClearOfEachOther(2.0 * lim.guardBand), slots, t);
    forall i, j | 0 <= i < j < |active|
      ensures Apart(active[i], active[j], 2.0 * lim.guardBand)
    {
      assert ClearOfEachOther(2.0 * lim.guardBand)(active[i], active[j]);
      assert ActiveAt(active[i], t) && ActiveAt(active[j], t);
    }
    forall i | 0 <= i < |active|
      ensures Inside(active[i], WindowLo(cf, rate), WindowHi(cf, rate))
    {
      assert active[i] in active && InOwnWindow(active[i]);
    }
  }

  // ---- Independent-LO timelines: channels are exclusive ----

  ghost predicate OwnChannels(a: Slot, b: Slot)
  {
    Disjoint(a.rx, b.rx) && Disjoint(a.tx, b.tx)
  }

  ghost function NoSharedChannel(): (Slot, Slot) -> bool
  {
    (a: Slot, b: Slot) => Clash(a, b) ==> OwnChannels(a, b)
  }

  ghost predicate ChannelsOnDevice(s: Slot, lim: Limits)
  {
    && NoDuplicates(s.rx) && (forall c :: c in s.rx ==> c < lim.maxRx)
    && NoDuplicates(s.tx) && (forall c :: c in s.tx ==> c < lim.maxTx)
  }

  ghost predicate Unshared(slots: seq<Slot>, lim: Limits)
  {
    && Pairwise(NoSharedChannel(), slots)
    && forall s :: s in slots ==> ChannelsOnDevice(s, lim)
  }

  lemma BookedChannelsAreOwn(slots: seq<Slot>, task: TaskId, q: Request, lim: Limits, preferred: int)
    requires FitFor(slots, q, lim, false, preferred).Fit?
    ensures var s := SlotOf(task, q, FitFor(slots, q, lim, false, preferred));
            ChannelsOnDevice(s, lim) && forall r :: r in slots && Clash(r, s) ==> OwnChannels(r, s)
  {
    FitChannels(slots, q, lim, false, preferred);
    var fit := FitFor(slots, q, lim, false, preferred);
    var over := Overlapping(slots, q.start, q.stop);
    forall r | r in slots && Clash(r, SlotOf(task, q, fit))
      ensures OwnChannels(r, SlotOf(task, q, fit))
    {
      assert r in over;
      assert Disjoint(fit.rx, r.rx) && Disjoint(fit.tx, r.tx);
      DisjointIsSymmetric(fit.rx, r.rx);
      DisjointIsSymmetric(fit.tx, r.tx);
    }
  }

  lemma DisjointIsSymmetric(a: seq<nat>, b: seq<nat>)
    ensures Disjoint(a, b) <==> Disjoint(b, a)
  {
  }

  // In every run on an independent-LO timeline, slots that overlap in time hold
  // different channels, also when one was asked for by number.
  lemma {:induction false} IndependentRunStaysUnshared(ops: seq<Op>, lim: Limits)
    ensures Unshared(Run(ops, lim, false), lim)
  {
    if ops == [] {
    } else {
      var n := |ops| - 1;
      IndependentRunStaysUnshared(ops[..n], lim);
      var before := Run(ops[..n], lim, false);
      match ops[n]
      case Book(task, q, preferred) =>
        var fit := FitFor(before, q, lim, false, preferred);
        if fit.Fit? {
          BookedChannelsAreOwn(before, task, q, lim, preferred);
          PairwiseAppend(NoSharedChannel(), before, SlotOf(task, q, fit));
        }
      case Cancel(task) =>
        PairwiseWithout(NoSharedChannel(), before, task);
    }
  }

  // The channels that some slot lists at an instant.
  function ChannelsInUse(slots: seq<Slot>, t: int): set<int>
  {
    set s, c: int | s in slots && s.start <= t < s.stop && c in s.rx :: c
  }

  lemma InUseIsTaken(slots: seq<Slot>, t: int)
    ensures ChannelsInUse(slots, t) == Taken(RxLists(Active(slots, t)))
  {
    var active := Active(slots, t);
    forall c | c in ChannelsInUse(slots, t)
      ensures c in Taken(RxLists(active))
    {
      var s :| s in slots && s.start <= t < s.stop && c in s.rx;
      var i :| 0 <= i < |active| && active[i] == s;
      assert RxLists(active)[i] in RxLists(active);
    }
    forall c | c in Taken(RxLists(active))
      ensures c in ChannelsInUse(slots, t)
    {
      var list :| list in RxLists(active) && c in list;
      var i :| 0 <= i < |active| && RxLists(active)[i] == list;
      assert active[i] in active;
    }
  }

  // usedRx is the number of channels in use, and never exceeds the number the device has,
  // at any instant.
  lemma UsedRxWithinLimit(ops: seq<Op>, lim: Limits, t: int)
    ensures var slots := Run(ops, lim, false);
            Total(RxLists(Active(slots, t))) == |ChannelsInUse(slots, t)| <= lim.maxRx
  {
    var slots := Run(ops, lim, false);
    var active := Active(slots, t);
    IndependentRunStaysUnshared(ops, lim);
    PairwiseActive(NoSharedChannel(), slots, t);
    forall i, j | 0 <= i < j < |active|
      ensures Disjoint(RxLists(active)[i], RxLists(active)[j])
    {
      assert NoSharedChannel()(active[i], active[j]);
      assert ActiveAt(active[i], t) && ActiveAt(active[j], t);
    }
    forall i | 0 <= i < |active|
      ensures NoDuplicates(RxLists(active)[i]) && forall c :: c in RxLists(active)[i] ==> c < lim.maxRx
    {
      assert active[i] in active && ChannelsOnDevice(active[i], lim);
    }
    ExclusiveTotal(RxLists(active), lim.maxRx);
    InUseIsTaken(slots, t);
  }
}
