// The accepting side of ResourceManager: choosing a device, preempting lower ranks, and
// accepting a coherent task over several devices. One thread runs it at a time.
module Admission {
  import opened Basics
  import opened Slots
  import opened Channels
  import opened Fitting
  import opened DeviceSelection
  import opened TimelineRuns
  import opened UdpPortPool
  import Placing

  // What a task holds on one device.
  datatype Allocation = Allocation(device: nat, rx: seq<nat>, ports: seq<int>)

  datatype Record = Record(rank: int, live: bool, allocations: seq<Allocation>)

  // Everything accepting and deactivating changes.
  datatype Books = Books(timelines: seq<seq<Slot>>, registry: map<TaskId, Record>, pool: Ports)

  // ---- deactivateTask, as far as the books go ----

  // One allocation's slots leave its timeline and its ports go back to the pool.
  ghost function ReleaseOne(b: Books, a: Allocation, t: TaskId): (r: Books)
    ensures |r.timelines| == |b.timelines| && r.registry == b.registry
  {
    Books(if a.device < |b.timelines| then b.timelines[a.device := Without(b.timelines[a.device], t)]
          else b.timelines,
          b.registry, GiveBack(b.pool, Elements(a.ports)))
  }

  ghost function Release(b: Books, allocations: seq<Allocation>, t: TaskId): (r: Books)
    ensures |r.timelines| == |b.timelines| && r.registry == b.registry
    decreases allocations
  {
    if allocations == [] then b
    else
      Release(ReleaseOne(b, allocations[0], t), allocations[1..], t)
  }

  predicate LiveTask(registry: map<TaskId, Record>, t: TaskId)
  {
    t in registry && registry[t].live
  }

  // The first call for a live task ends it and releases what it holds; later ones do nothing.
  ghost function Cancelled(b: Books, t: TaskId): (r: Books)
    ensures |r.timelines| == |b.timelines| && r.registry.Keys == b.registry.Keys
  {
    if !LiveTask(b.registry, t) then b
    else
      var ended := b.registry[t].(live := false);
      Release(b.(registry := b.registry[t := ended]), ended.allocations, t)
  }

  ghost function CancelledAll(b: Books, tasks: seq<TaskId>): (r: Books)
    ensures |r.timelines| == |b.timelines| && r.registry.Keys == b.registry.Keys
    decreases tasks
  {
    if tasks == [] then b else CancelledAll(Cancelled(b, tasks[0]), tasks[1..])
  }

  predicate AllocatedOn(allocations: seq<Allocation>, d: nat)
  {
    exists a :: a in allocations && a.device == d
  }

  lemma {:induction false} ReleaseDropsSlots(b: Books, allocations: seq<Allocation>, t: TaskId, d: nat, s: Slot)
    requires d < |b.timelines|
    ensures s in Release(b, allocations, t).timelines[d] <==>
            s in b.timelines[d] && !(s.task == t && AllocatedOn(allocations, d))
    decreases allocations
  {
    if allocations == [] {
    } else {
      ReleaseDropsSlots(ReleaseOne(b, allocations[0], t), allocations[1..], t, d, s);
      assert AllocatedOn(allocations, d) <==> allocations[0].device == d || AllocatedOn(allocations[1..], d);
    }
  }

  // Cancelling some tasks ends exactly the live ones among them, and removes exactly their
  // slots on the devices they are allocated on.
  lemma {:induction false} CancelledAllEffect(b: Books, tasks: seq<TaskId>, d: nat, s: Slot, u: TaskId)
    requires d < |b.timelines|
    ensures var r := CancelledAll(b, tasks);
            && (s in r.timelines[d] <==>
                  s in b.timelines[d]
                  && !(s.task in tasks && LiveTask(b.registry, s.task)
                       && AllocatedOn(b.registry[s.task].allocations, d)))
            && (u in b.registry ==>
                  r.registry[u] == b.registry[u].(live := b.registry[u].live && u !in tasks))
    decreases tasks
  {
    if tasks == [] {
    } else {
      var b' := Cancelled(b, tasks[0]);
      CancelledEffect(b, tasks[0], d, s, u);
      CancelledEffect(b, tasks[0], d, s, s.task);
      CancelledAllEffect(b', tasks[1..], d, s, u);
      assert forall t :: t in tasks <==> t == tasks[0] || t in tasks[1..];
    }
  }

  lemma CancelledEffect(b: Books, t: TaskId, d: nat, s: Slot, u: TaskId)
    requires d < |b.timelines|
    ensures var r := Cancelled(b, t);
            && (s in r.timelines[d] <==>
                  s in b.timelines[d]
                  && !(s.task == t && LiveTask(b.registry, t) && AllocatedOn(b.registry[t].allocations, d)))
            && (u in b.registry ==> r.registry[u] == b.registry[u].(live := b.registry[u].live && u != t))
  {
    if LiveTask(b.registry, t) {
      var ended := b.registry[t].(live := false);
      ReleaseDropsSlots(b.(registry := b.registry[t := ended]), ended.allocations, t, d, s);
    }
  }

  // ---- findBestDevice ----

  // The device named by the request: none, one that is not configured, or one that is.
  datatype Wanted = Anything | Unknown | Index(d: nat)

  predicate Candidate(devices: seq<Device>, wanted: Wanted, required: bool, d: nat)
  {
    && d < |devices|
    && (required && wanted != Anything ==> wanted == Index(d))
  }

  function PreferredIndex(wanted: Wanted): int
  {
    if wanted.Index? then wanted.d else -1
  }

  // The bandwidth allocated on each device at one instant.
  function Allocated(timelines: seq<seq<Slot>>, now: int): (alloc: seq<real>)
    ensures |alloc| == |timelines|
    ensures forall d :: 0 <= d < |timelines| ==> alloc[d] == Bandwidth(Active(timelines[d], now))
  {
    seq(|timelines|, d requires 0 <= d < |timelines| => Bandwidth(Active(timelines[d], now)))
  }

  // A search for a device: what is asked, and where.
  datatype Search = Search(
    devices: seq<Device>, timelines: seq<seq<Slot>>, guardBand: real,
    q: Request, channel: int, wanted: Wanted, required: bool, now: int)

  function OfferOf(s: Search, d: nat): Option<FitResult>
    requires d < |s.devices| && d < |s.timelines|
  {
    Offer(s.devices[d], s.timelines[d], s.q, s.guardBand, s.channel)
  }

  ghost predicate Offers(s: Search, d: nat)
    requires |s.timelines| == |s.devices|
  {
    Candidate(s.devices, s.wanted, s.required, d) && OfferOf(s, d).Some?
  }

  // A device that fits and is tried before every other that fits.
  ghost predicate IsBest(s: Search, best: Option<(nat, FitResult)>)
    requires |s.timelines| == |s.devices|
  {
    match best
    case None => forall d: nat :: !Offers(s, d)
    case Some((d, fit)) =>
      && Offers(s, d) && OfferOf(s, d) == Some(fit)
      && forall e: nat :: Offers(s, e) && e != d ==>
           Earlier(Allocated(s.timelines, s.now), PreferredIndex(s.wanted), d, e)
  }

  // Comparing the devices one by one leaves one that is tried before all others.
  lemma {:induction false} FirstExists(alloc: seq<real>, preferred: int, ok: nat -> bool, n: nat)
      returns (first: Option<nat>)
    requires n <= |alloc|
    ensures first == None ==> forall d: nat :: d < n ==> !ok(d)
    ensures first.Some? ==> first.value < n && ok(first.value)
    ensures first.Some? ==>
              forall e: nat :: e < n && ok(e) && e != first.value ==> Earlier(alloc, preferred, first.value, e)
  {
    if n == 0 {
      return None;
    }
    first := FirstExists(alloc, preferred, ok, n - 1);
    if ok(n - 1) && (first == None || Earlier(alloc, preferred, n - 1, first.value)) {
      first := Some(n - 1);
    }
  }

  ghost function BestOf(s: Search): (best: Option<(nat, FitResult)>)
    requires |s.timelines| == |s.devices|
    ensures IsBest(s, best)
  {
    assert exists best :: IsBest(s, best) by {
      var ok := (d: nat) => Offers(s, d);
      var first := FirstExists(Allocated(s.timelines, s.now), PreferredIndex(s.wanted), ok, |s.devices|);
      assert forall d: nat :: Offers(s, d) ==> ok(d) && d < |s.devices|;
      assert IsBest(s, if first == None then None else Some((first.value, OfferOf(s, first.value).value)));
    }
    var best :| IsBest(s, best);
    best
  }

  // There is one answer: nothing exactly when no candidate fits, the preferred device if it
  // fits, and otherwise, of the fitting ones with the least bandwidth allocated, the first.
  lemma BestDevice(s: Search, best: Option<(nat, FitResult)>, other: Option<(nat, FitResult)>)
    requires |s.timelines| == |s.devices| && IsBest(s, best)
    ensures IsBest(s, other) ==> best == other
    ensures best == None <==> forall d: nat :: !Offers(s, d)
    ensures best.Some? && s.wanted.Index? && Offers(s, s.wanted.d) ==> best.value.0 == s.wanted.d
    ensures best.Some? && PreferredIndex(s.wanted) != best.value.0 ==>
              forall e: nat :: Offers(s, e) ==>
                var alloc := Allocated(s.timelines, s.now);
                alloc[best.value.0] < alloc[e] || (alloc[best.value.0] == alloc[e] && best.value.0 <= e)
  {
    if best.Some? {
      assert Offers(s, best.value.0);
    }
    if other.Some? && IsBest(s, other) {
      assert Offers(s, other.value.0);
    }
  }

  // ---- tryPreemptConflicting ----

  // The live tasks among some slots, in slot order.
  function LiveOwners(over: seq<Slot>, registry: map<TaskId, Record>): (owners: seq<TaskId>)
    ensures forall t :: t in owners <==> LiveTask(registry, t) && exists s :: s in over && s.task == t
  {
    if over == [] then []
    else
      var rest := LiveOwners(over[..|over| - 1], registry);
      var last := over[|over| - 1];
      assert forall s :: s in over <==> s in over[..|over| - 1] || s == last;
      if LiveTask(registry, last.task) then rest + [last.task] else rest
  }

  // May a request of this rank take the device: are there live tasks in its way, and are
  // they all of lower rank?
  predicate Outranks(over: seq<Slot>, registry: map<TaskId, Record>, rank: int)
  {
    && LiveOwners(over, registry) != []
    && forall s :: s in over && LiveTask(registry, s.task) ==> registry[s.task].rank < rank
  }

  predicate Preemptable(dev: Device, timeline: seq<Slot>, registry: map<TaskId, Record>, q: Request, rank: int)
  {
    Capable(dev, q) && Outranks(Overlapping(timeline, q.start, q.stop), registry, rank)
  }

  // The first device in iteration order that can be taken, from index i on.
  function Victim(devices: seq<Device>, b: Books, q: Request, rank: int, i: nat): (v: Option<nat>)
    requires |b.timelines| == |devices| && i <= |devices|
    ensures v.Some? ==>
              i <= v.value < |devices|
              && Preemptable(devices[v.value], b.timelines[v.value], b.registry, q, rank)
    ensures v.None? ==> forall j :: i <= j < |devices| ==> !Preemptable(devices[j], b.timelines[j], b.registry, q, rank)
    decreases |devices| - i
  {
    if i == |devices| then None
    else if Preemptable(devices[i], b.timelines[i], b.registry, q, rank) then Some(i)
    else Victim(devices, b, q, rank, i + 1)
  }

  ghost function Preempted(devices: seq<Device>, b: Books, q: Request, rank: int): (Books, bool)
    requires |b.timelines| == |devices|
  {
    var v := Victim(devices, b, q, rank, 0);
    if v.None? then (b, false)
    else (CancelledAll(b, LiveOwners(Overlapping(b.timelines[v.value], q.start, q.stop), b.registry)), true)
  }

  // Some live task is in the way on the device, and every one that is ranks lower.
  ghost predicate CanBeTaken(dev: Device, slots: seq<Slot>, registry: map<TaskId, Record>, q: Request, rank: int)
  {
    && dev.online
    && dev.caps.freqMin <= q.cf <= dev.caps.freqMax
    && q.bw <= dev.caps.bwMax && q.rate <= dev.caps.rateMax
    && q.rxCount <= dev.caps.maxRx && q.txCount <= dev.caps.maxTx
    && (exists s :: s in slots && Placing.InTheWay(s, q) && LiveTask(registry, s.task))
    && (forall s :: s in slots && Placing.InTheWay(s, q) && LiveTask(registry, s.task) ==>
          registry[s.task].rank < rank)
  }

  lemma TakenExactlyWhen(dev: Device, slots: seq<Slot>, registry: map<TaskId, Record>, q: Request, rank: int)
    ensures Preemptable(dev, slots, registry, q, rank) <==> CanBeTaken(dev, slots, registry, q, rank)
  {
    var over := Overlapping(slots, q.start, q.stop);
    var owners := LiveOwners(over, registry);
    if owners != [] {
      assert owners[0] in owners;
    }
    if s :| s in slots && Placing.InTheWay(s, q) && LiveTask(registry, s.task) {
      assert s in over && s.task in owners;
    }
  }

  // Preemption takes the first device that can be taken, and none exactly if there is none.
  // It ends the live tasks in the way there and no others.
  lemma PreemptsFirst(devices: seq<Device>, b: Books, q: Request, rank: int, d: nat)
    requires |b.timelines| == |devices| && d < |devices|
    ensures Victim(devices, b, q, rank, 0) == Some(d) <==>
              && CanBeTaken(devices[d], b.timelines[d], b.registry, q, rank)
              && forall e: nat :: e < d ==> !CanBeTaken(devices[e], b.timelines[e], b.registry, q, rank)
    ensures var (after, done) := Preempted(devices, b, q, rank);
            && (done <==> exists e: nat :: e < |devices| && CanBeTaken(devices[e], b.timelines[e], b.registry, q, rank))
            && (Victim(devices, b, q, rank, 0) == Some(d) ==>
                  forall t :: t in b.registry ==>
                    after.registry[t] == b.registry[t].(live := b.registry[t].live
                      && !exists s :: s in b.timelines[d] && Placing.InTheWay(s, q) && s.task == t))
  {
    forall e: nat | e < |devices|
      ensures Preemptable(devices[e], b.timelines[e], b.registry, q, rank)
              <==> CanBeTaken(devices[e], b.timelines[e], b.registry, q, rank)
    {
      TakenExactlyWhen(devices[e], b.timelines[e], b.registry, q, rank);
    }
    FirstVictim(devices, b, q, rank, 0);
    if Victim(devices, b, q, rank, 0) == Some(d) {
      TakenEnds(devices, b, q, rank, d);
    }
  }

  lemma {:induction false} FirstVictim(devices: seq<Device>, b: Books, q: Request, rank: int, i: nat)
    requires |b.timelines| == |devices| && i <= |devices|
    ensures var v := Victim(devices, b, q, rank, i);
            v.Some? ==> forall j :: i <= j < v.value ==> !Preemptable(devices[j], b.timelines[j], b.registry, q, rank)
    decreases |devices| - i
  {
    if i == |devices| || Preemptable(devices[i], b.timelines[i], b.registry, q, rank) {
    } else {
      FirstVictim(devices, b, q, rank, i + 1);
    }
  }

  lemma TakenEnds(devices: seq<Device>, b: Books, q: Request, rank: int, d: nat)
    requires |b.timelines| == |devices| && d < |devices| && Victim(devices, b, q, rank, 0) == Some(d)
    ensures var after := Preempted(devices, b, q, rank).0;
            forall t :: t in b.registry ==>
              after.registry[t] == b.registry[t].(live := b.registry[t].live
                && !exists s :: s in b.timelines[d] && Placing.InTheWay(s, q) && s.task == t)
  {
    var over := Overlapping(b.timelines[d], q.start, q.stop);
    var owners := LiveOwners(over, b.registry);
    forall t | t in b.registry
      ensures CancelledAll(b, owners).registry[t]
           == b.registry[t].(live := b.registry[t].live
                && !exists s :: s in b.timelines[d] && Placing.InTheWay(s, q) && s.task == t)
    {
      CancelledAllEffect(b, owners, d, AnySlot(), t);
      assert (exists s :: s in over && s.task == t)
        <==> exists s :: s in b.timelines[d] && Placing.InTheWay(s, q) && s.task == t;
    }
  }

  function AnySlot(): Slot
  {
    Slot(0, 0, 0, 0.0, 0.0, 0.0, 0.0, [], [])
  }

  // No task of the request's rank or above is ever cancelled, and nothing at all happens
  // unless a whole device is cleared of the live tasks in the way.
  lemma PreemptionSparesRank(devices: seq<Device>, b: Books, q: Request, rank: int, t: TaskId)
    requires |b.timelines| == |devices| && t in b.registry
    ensures var (after, done) := Preempted(devices, b, q, rank);
            && (b.registry[t].rank >= rank ==> after.registry[t] == b.registry[t])
            && (!done ==> after == b)
            && (done ==> exists d: nat ::
                  d < |devices| && Capable(devices[d], q)
                  && forall s :: s in Overlapping(b.timelines[d], q.start, q.stop) ==>
                       !LiveTask(after.registry, s.task))
  {
    var v := Victim(devices, b, q, rank, 0);
    if v.Some? {
      var d := v.value;
      var over := Overlapping(b.timelines[d], q.start, q.stop);
      var owners := LiveOwners(over, b.registry);
      var after := CancelledAll(b, owners);
      if over != [] {
        CancelledAllEffect(b, owners, d, over[0], t);
      }
      forall s | s in over
        ensures !LiveTask(after.registry, s.task)
      {
        CancelledAllEffect(b, owners, d, s, s.task);
      }
    }
  }

  // Every slot overlapping the request belongs to a live task allocated on its device.
  ghost predicate SlotsOfLiveTasks(b: Books, q: Request)
  {
    forall d: nat, s :: d < |b.timelines| && s in Overlapping(b.timelines[d], q.start, q.stop) ==>
      LiveTask(b.registry, s.task) && AllocatedOn(b.registry[s.task].allocations, d)
  }

  lemma ClearedTimeline(b: Books, owners: seq<TaskId>, d: nat, q: Request)
    requires d < |b.timelines| && SlotsOfLiveTasks(b, q)
    requires owners == LiveOwners(Overlapping(b.timelines[d], q.start, q.stop), b.registry)
    ensures Overlapping(CancelledAll(b, owners).timelines[d], q.start, q.stop) == []
  {
    var after := CancelledAll(b, owners).timelines[d];
    var over := Overlapping(after, q.start, q.stop);
    if over != [] {
      var s := over[0];
      assert s in over;
      CancelledAllEffect(b, owners, d, s, s.task);
      assert false;
    }
  }

  // When slots stand for live tasks only, a preemption that reports success has cleared a
  // device, and that device fits the request exactly when the device, idle, could: it can
  // be acquired at a rate the slice fits in, and has the channel asked for by number.
  lemma PreemptionSuffices(devices: seq<Device>, b: Books, q: Request, rank: int, guardBand: real, channel: int)
      returns (d: nat)
    requires |b.timelines| == |devices| && SlotsOfLiveTasks(b, q)
    requires Preempted(devices, b, q, rank).1
    ensures d < |devices| && Capable(devices[d], q)
    ensures var after := Preempted(devices, b, q, rank).0;
            var rate := AcquiredRate(devices[d].caps, q.rate);
            Offer(devices[d], after.timelines[d], q, guardBand, channel).Some? <==>
              && rate.Some?
              && (Pinned(q, channel) ==> channel < devices[d].caps.maxRx)
              && (devices[d].sharedLo ==> q.bw <= rate.value)
  {
    d := Victim(devices, b, q, rank, 0).value;
    var owners := LiveOwners(Overlapping(b.timelines[d], q.start, q.stop), b.registry);
    ClearedTimeline(b, owners, d, q);
    var rate := AcquiredRate(devices[d].caps, q.rate);
    if rate.Some? {
      FitOnIdleDevice(CancelledAll(b, owners).timelines[d], q.(rate := rate.value),
                      LimitsOf(devices[d], guardBand), devices[d].sharedLo, channel);
    }
  }

  // So the retried search finds a device, for a request at or above the devices' floors
  // whose band fits its rate, whose channel is in range, and that names no required device.
  lemma RetryAfterPreemptionSucceeds(s: Search, b: Books, rank: int, best: Option<(nat, FitResult)>)
    requires |b.timelines| == |s.devices| && SlotsOfLiveTasks(b, s.q) && Preempted(s.devices, b, s.q, rank).1
    requires s.timelines == Preempted(s.devices, b, s.q, rank).0.timelines
    requires !s.required && s.q.bw <= s.q.rate
    requires forall d :: 0 <= d < |s.devices| ==>
               s.q.rate >= s.devices[d].caps.rateMin && (Pinned(s.q, s.channel) ==> s.channel < s.devices[d].caps.maxRx)
    requires IsBest(s, best)
    ensures best.Some?
  {
    var d := PreemptionSuffices(s.devices, b, s.q, rank, s.guardBand, s.channel);
    assert AcquiredRate(s.devices[d].caps, s.q.rate) == Some(s.q.rate);
    assert Offers(s, d);
  }
}
