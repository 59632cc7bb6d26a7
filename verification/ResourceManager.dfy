// The accepting side of the resource manager, with its timelines and pool as objects that
// are changed in place (src/ResourceManager.cpp). Each method is proved to do to the books
// what the functions of Admission, Widening, Acceptance and Coherent say. A task id is
// generated by the caller and has not been used before.
module ResourceManager {
  import opened Basics
  import opened Slots
  import opened Fitting
  import opened Combining
  import opened TimelineRuns
  import opened DeviceSelection
  import opened Admission
  import opened Widening
  import opened Grants
  import opened Acceptance
  import opened Coherent
  import SpectrumTimeline
  import UdpPortPool

  class ResourceManager {
    const setup: Setup
    const timelines: seq<SpectrumTimeline.SpectrumTimeline>
    const pool: UdpPortPool.UdpPortPool
    var registry: map<TaskId, Record>

    ghost predicate Valid()
      reads this, pool
    {
      && |timelines| == |setup.devices|
      && (forall i, j :: 0 <= i < j < |timelines| ==> timelines[i] != timelines[j])
      && pool.Valid()
    }

    ghost function Reserved(): (r: seq<seq<Slot>>)
      reads timelines
      ensures |r| == |timelines| && forall i :: 0 <= i < |r| ==> r[i] == timelines[i].slots
    {
      seq(|timelines|, i requires 0 <= i < |timelines| reads timelines => timelines[i].slots)
    }

    ghost function Value(): (b: Books)
      reads this, timelines, pool
      ensures |b.timelines| == |timelines|
    {
      Books(Reserved(), registry, pool.Contents())
    }

    constructor (setup: Setup, pool: UdpPortPool.UdpPortPool)
      requires pool.Valid()
      ensures Valid() && this.setup == setup && this.pool == pool
      ensures Value() == Books(seq(|setup.devices|, _ => []), map[], pool.Contents())
    {
      var lines: seq<SpectrumTimeline.SpectrumTimeline> := [];
      for i := 0 to |setup.devices|
        invariant |lines| == i
        invariant forall k :: 0 <= k < i ==> fresh(lines[k]) && lines[k].slots == []
        invariant forall j, k :: 0 <= j < k < i ==> lines[j] != lines[k]
      {
        var line := new SpectrumTimeline.SpectrumTimeline();
        lines := lines + [line];
      }
      this.setup, this.pool, timelines, registry := setup, pool, lines, map[];
      new;
      assert Reserved() == seq(|setup.devices|, _ => []);
    }

    // ---- deactivateTask, as far as the books go ----

    method ReleaseAllocation(a: Allocation, t: TaskId)
      requires Valid()
      modifies timelines, pool
      ensures Valid() && Value() == ReleaseOne(old(Value()), a, t)
    {
      ghost var before := Value();
      if a.device < |timelines| {
        timelines[a.device].Remove(t);
      }
      assert Reserved() == ReleaseOne(before, a, t).timelines;
      pool.ReleaseAll(a.ports);
    }

    method Deactivate(t: TaskId)
      requires Valid()
      modifies this, timelines, pool
      ensures Valid() && Value() == Cancelled(old(Value()), t)
    {
      if t !in registry || !registry[t].live {
        return;
      }
      ghost var goal := Cancelled(Value(), t);
      var ended := registry[t].(live := false);
      registry := registry[t := ended];
      for i := 0 to |ended.allocations|
        invariant Valid()
        invariant Release(Value(), ended.allocations[i..], t) == goal
      {
        ReleaseAllocation(ended.allocations[i], t);
      }
    }

    // ---- findBestDevice ----

    method AllocatedBandwidth(now: int) returns (alloc: seq<real>)
      requires Valid()
      ensures alloc == Allocated(Reserved(), now)
    {
      alloc := [];
      for d := 0 to |timelines|
        invariant |alloc| == d
        invariant forall k :: 0 <= k < d ==> alloc[k] == Bandwidth(Active(timelines[k].slots, now))
      {
        var bw := timelines[d].AllocatedBw(now);
        alloc := alloc + [bw];
      }
    }

    method DevicesInOrder(wanted: Wanted, required: bool, now: int) returns (order: seq<nat>)
      requires Valid()
      ensures InOrder(Allocated(Reserved(), now), PreferredIndex(wanted), order)
      ensures forall d: nat :: d in order <==> Candidate(setup.devices, wanted, required, d)
    {
      if required && wanted != Anything {
        if wanted.Index? && wanted.d < |setup.devices| {
          return [wanted.d];
        }
        return [];
      }
      var alloc := AllocatedBandwidth(now);
      order := SortByFree(alloc, PreferredIndex(wanted));
    }

    method TryDevice(d: nat, q: Request, channel: int) returns (offer: Option<FitResult>)
      requires Valid() && d < |timelines|
      ensures offer == Offer(setup.devices[d], timelines[d].slots, q, setup.guardBand, channel)
    {
      var dev := setup.devices[d];
      if !dev.online
         || q.cf < dev.caps.freqMin || q.cf > dev.caps.freqMax
         || q.bw > dev.caps.bwMax || q.rate > dev.caps.rateMax
         || q.rxCount > dev.caps.maxRx || q.txCount > dev.caps.maxTx {
        return None;
      }
      var rate := RateFor(dev.caps, q.rate);
      if rate == None {
        return None;
      }
      var fit := timelines[d].CanFit(q.(rate := rate.value), LimitsOf(dev, setup.guardBand), dev.sharedLo, channel);
      offer := if fit.Fit? then Some(fit) else None;
    }

    method FindBestDevice(ask: Ask, now: int) returns (best: Choice)
      requires Valid()
      ensures best == BestOf(SearchFor(setup, Value(), ask, now))
    {
      ghost var s := SearchFor(setup, Value(), ask, now);
      var order := DevicesInOrder(ask.wanted, ask.required, now);
      for i := 0 to |order|
        invariant forall k :: 0 <= k < i ==> !Offers(s, order[k])
      {
        assert order[i] in order;
        var offer := TryDevice(order[i], ask.q, ask.channel);
        if offer.Some? {
          FirstOfferIsBest(s, order, i);
          return Some((order[i], offer.value));
        }
      }
      NoOfferAtAll(s, order);
      best := None;
    }

    // ---- tryPreemptConflicting ----

    // The live tasks among some slots, unless one of them cannot be preempted.
    method Conflicting(over: seq<Slot>, rank: int) returns (owners: Option<seq<TaskId>>)
      ensures owners.Some? <==> forall s :: s in over && LiveTask(registry, s.task) ==> registry[s.task].rank < rank
      ensures owners.Some? ==> owners.value == LiveOwners(over, registry)
    {
      var found: seq<TaskId> := [];
      for i := 0 to |over|
        invariant found == LiveOwners(over[..i], registry)
        invariant forall s :: s in over[..i] && LiveTask(registry, s.task) ==> registry[s.task].rank < rank
      {
        assert over[..i + 1][..i] == over[..i] && over[i] in over;
        var t := over[i].task;
        if t in registry && registry[t].live {
          if registry[t].rank >= rank {
            return None;
          }
          found := found + [t];
        }
      }
      assert over[..|over|] == over;
      owners := Some(found);
    }

    method PreemptAll(tasks: seq<TaskId>)
      requires Valid()
      modifies this, timelines, pool
      ensures Valid() && Value() == CancelledAll(old(Value()), tasks)
    {
      ghost var goal := CancelledAll(Value(), tasks);
      for i := 0 to |tasks|
        invariant Valid()
        invariant CancelledAll(Value(), tasks[i..]) == goal
      {
        Deactivate(tasks[i]);
      }
    }

    method TryPreempt(q: Request, rank: int) returns (done: bool)
      requires Valid()
      modifies this, timelines, pool
      ensures Valid() && (Value(), done) == Preempted(setup.devices, old(Value()), q, rank)
    {
      ghost var b := Value();
      for d := 0 to |timelines|
        invariant Valid() && Value() == b
        invariant Victim(setup.devices, b, q, rank, 0) == Victim(setup.devices, b, q, rank, d)
      {
        if Capable(setup.devices[d], q) {
          var over := timelines[d].SlotsOverlapping(q.start, q.stop);
          if over != [] {
            var owners := Conflicting(over, rank);
            if owners.Some? && owners.value != [] {
              PreemptAll(owners.value);
              return true;
            }
          }
        }
      }
      done := false;
    }

    // ---- tryRetuneCombined ----

    method NoneRanksAbove(over: seq<Slot>, rank: int) returns (ok: bool)
      ensures ok == RankAllows(over, registry, rank)
    {
      for i := 0 to |over|
        invariant RankAllows(over[..i], registry, rank)
      {
        assert over[i] in over && over[..i + 1] == over[..i] + [over[i]];
        var t := over[i].task;
        if t in registry && registry[t].live && rank < registry[t].rank {
          return false;
        }
      }
      assert over[..|over|] == over;
      ok := true;
    }

    method FindSeat(d: nat, ask: Ask) returns (seat: Seat)
      requires Valid() && d < |timelines|
      ensures seat == SeatOn(setup.devices[d], timelines[d].slots, registry,
                             ask.q, ask.rank, setup.guardBand, ask.channel)
    {
      if !Shareable(setup.devices[d], ask.q) {
        return NoSeat;
      }
      var over := timelines[d].SlotsOverlapping(ask.q.start, ask.q.stop);
      if SameCf(over, ask.q.cf) {
        seat := SubscribeOn(over, ask.q, ask.channel);
      } else {
        var r := timelines[d].CanCombine(ask.q, LimitsOf(setup.devices[d], setup.guardBand),
                                         setup.devices[d].caps.rateMax, true);
        seat := WidenOn(over, r, ask.channel);
      }
      var allowed := NoneRanksAbove(over, ask.rank);
      if !allowed {
        seat := NoSeat;
      }
    }

    method TakeSeat(d: nat, seat: Seat)
      requires Valid() && d < |timelines| && seat != NoSeat && seat.fit.Fit?
      modifies timelines
      ensures Valid() && Reserved() == old(Reserved())[d := Seated(old(Reserved())[d], seat)]
    {
      if seat.Widen? && seat.tune {
        timelines[d].UpdateDeviceTune(seat.fit.cf, seat.fit.rate);
      }
    }

    method TryJoin(ask: Ask, tunes: nat -> bool) returns (choice: Choice)
      requires Valid()
      modifies timelines
      ensures Valid()
      ensures (Value(), choice) ==
              Joined(setup.devices, old(Value()), ask.q, ask.rank, setup.guardBand, ask.channel, tunes, 0)
    {
      ghost var b := Value();
      ghost var goal := Joined(setup.devices, b, ask.q, ask.rank, setup.guardBand, ask.channel, tunes, 0);
      for d := 0 to |timelines|
        invariant Valid() && Value() == b
        invariant Joined(setup.devices, b, ask.q, ask.rank, setup.guardBand, ask.channel, tunes, d) == goal
      {
        var seat := FindSeat(d, ask);
        assert b.timelines[d] == timelines[d].slots;
        if seat != NoSeat && (seat.Widen? && seat.tune ==> tunes(d)) {
          TakeSeat(d, seat);
          return Some((d, seat.fit));
        }
        assert !CanJoin(setup.devices, b, ask.q, ask.rank, setup.guardBand, ask.channel, tunes, d);
      }
      choice := None;
    }

    // ---- doAcceptStandard, single device ----

    method ChooseDevice(ask: Ask, env: Env) returns (choice: Choice)
      requires Valid()
      modifies this, timelines, pool
      ensures Valid() && (Value(), choice) == Chosen(setup, old(Value()), ask, env)
    {
      choice := FindBestDevice(ask, env.now);
      if choice == None && ask.rank > 0 {
        var done := TryPreempt(ask.q, ask.rank);
        if done {
          choice := FindBestDevice(ask, env.later);
        }
      }
      if choice == None {
        choice := TryJoin(ask, env.tunes);
      }
    }

    method TopUp(ports: seq<int>, need: nat) returns (all: Option<seq<int>>)
      requires Valid()
      modifies pool
      ensures Valid() && (pool.Contents(), all) == ToppedUp(old(pool.Contents()), need, ports)
    {
      var extra := pool.AllocateN(need);
      if |extra| < need {
        assert Elements(extra) == {};
        pool.ReleaseAll(extra);
        return None;
      }
      all := Some(ports + extra);
    }

    method TakePorts(q: Request, clientPorts: seq<int>) returns (ports: Option<seq<int>>)
      requires Valid()
      modifies pool
      ensures Valid() && (pool.Contents(), ports) == PortsFor(old(pool.Contents()), q, clientPorts)
    {
      var count := q.rxCount + q.txCount;
      if clientPorts != [] {
        if count <= |clientPorts| {
          assert PortsNeeded(q, clientPorts) == 0;
          NothingMissing(pool.Contents(), clientPorts);
          return Some(clientPorts);
        }
        assert PortsNeeded(q, clientPorts) == count - |clientPorts|;
        ports := TopUp(clientPorts, count - |clientPorts|);
      } else {
        assert PortsNeeded(q, clientPorts) == count;
        ports := TopUp([], count);
      }
    }

    method InsertSlot(t: TaskId, q: Request, grant: Grant)
      requires Valid() && grant.device < |timelines| && grant.fit.Fit?
      modifies timelines
      ensures Valid() && Reserved() == Inserted(old(Reserved()), [grant], t, q)
    {
      ghost var before := Reserved();
      timelines[grant.device].Insert(SlotOf(t, q, grant.fit));
      assert Reserved() == before[grant.device := before[grant.device] + [SlotOf(t, q, grant.fit)]];
      assert [grant][1..] == [];
    }

    method EnterOne(t: TaskId, q: Request, rank: int, grant: Grant)
      requires Valid() && grant.device < |timelines| && grant.fit.Fit?
      modifies this, timelines
      ensures Valid() && Value() == Entered(old(Value()), t, q, rank, [grant])
    {
      InsertSlot(t, q, grant);
      registry := registry[t := Record(rank, true, AllocationsOf([grant]))];
    }

    method AcceptOne(ask: Ask, env: Env, t: TaskId) returns (grant: Option<Grant>)
      requires Valid()
      modifies this, timelines, pool
      ensures Valid() && (Value(), grant) == AcceptedOne(setup, old(Value()), ask, env, t)
    {
      var choice := ChooseDevice(ask, env);
      if choice == None {
        return None;
      }
      var ports := TakePorts(ask.q, ask.clientPorts);
      if ports == None {
        return None;
      }
      var g := GrantFor(choice.value, ports.value);
      EnterOne(t, ask.q, ask.rank, g);
      grant := Some(g);
    }

    // ---- doAcceptStandard, coherency group ----

    method GroupMembers(group: nat) returns (members: seq<nat>)
      ensures members == Members(setup.devices, group, |setup.devices|)
    {
      members := [];
      for d := 0 to |setup.devices|
        invariant members == Members(setup.devices, group, d)
      {
        if setup.devices[d].online && setup.devices[d].group == group {
          members := members + [d];
        }
      }
    }

    method MakePlan(members: seq<nat>, want: nat) returns (plan: seq<Share>, left: nat)
      requires OnDevices(setup.devices, members)
      ensures (plan, left) == Plan(setup.devices, members, want)
    {
      plan, left := [], want;
      var i := 0;
      assert members[0..] == members;
      ghost var whole := Plan(setup.devices, members, want);
      assert [] + whole.0 == whole.0;
      while i < |members| && left > 0
        invariant 0 <= i <= |members|
        invariant var (rest, over) := Plan(setup.devices, members[i..], left);
                  (plan + rest, over) == whole
      {
        var n := Min(left, setup.devices[members[i]].caps.maxRx);
        assert members[i..][1..] == members[i + 1..];
        ghost var rest := Plan(setup.devices, members[i + 1..], left - n).0;
        assert plan + ([Share(members[i], n)] + rest) == plan + [Share(members[i], n)] + rest;
        plan := plan + [Share(members[i], n)];
        left := left - n;
        i := i + 1;
      }
      assert Plan(setup.devices, members[i..], left) == ([], left) && plan + [] == plan;
    }

    method FitShares(q: Request, plan: seq<Share>) returns (fits: Option<seq<FitResult>>)
      requires Valid() && forall i :: 0 <= i < |plan| ==> plan[i].device < |setup.devices|
      ensures fits.Some? <==> AllFit(setup.devices, Reserved(), setup.guardBand, q, plan)
      ensures fits.Some? ==> fits.value == FitsOf(setup.devices, Reserved(), setup.guardBand, q, plan)
    {
      var found: seq<FitResult> := [];
      for i := 0 to |plan|
        invariant |found| == i
        invariant forall k :: 0 <= k < i ==>
                    plan[k].device < |setup.devices| && found[k].Fit?
                    && found[k] == ShareFit(setup.devices, Reserved(), setup.guardBand, q, plan[k])
      {
        assert plan[i] in plan;
        var dev := setup.devices[plan[i].device];
        var fit := timelines[plan[i].device].CanFit(ShareRequest(q, plan[i].count), LimitsOf(dev, setup.guardBand),
                                                    dev.sharedLo, -1);
        if !fit.Fit? {
          return None;
        }
        found := found + [fit];
      }
      fits := Some(found);
    }

    method InsertAll(t: TaskId, q: Request, grants: seq<Grant>)
      requires Valid() && Placed(grants, |timelines|)
      modifies timelines
      ensures Valid() && Reserved() == Inserted(old(Reserved()), grants, t, q)
    {
      ghost var goal := Inserted(Reserved(), grants, t, q);
      for i := 0 to |grants|
        invariant Valid()
        invariant Inserted(Reserved(), grants[i..], t, q) == goal
      {
        assert grants[i] in grants;
        InsertSlot(t, q, grants[i]);
      }
    }

    method EnterGroup(t: TaskId, q: Request, rank: int, grants: seq<Grant>)
      requires Valid() && Placed(grants, |timelines|)
      modifies this, timelines
      ensures Valid() && Value() == Entered(old(Value()), t, q, rank, grants)
    {
      InsertAll(t, q, grants);
      registry := registry[t := Record(rank, true, AllocationsOf(grants))];
    }

    // Which device contributes how many channels, and where its share would go.
    method PlanShares(q: Request, group: nat) returns (shares: Option<(seq<Share>, seq<FitResult>)>)
      requires Valid()
      ensures var (plan, left) := PlanFor(setup.devices, group, q.rxCount);
              && (shares.Some? <==> Members(setup.devices, group, |setup.devices|) != [] && left == 0
                                    && AllFit(setup.devices, Reserved(), setup.guardBand, q, plan))
              && (shares.Some? ==> Planned(plan) == q.rxCount
                                   && (forall i :: 0 <= i < |plan| ==> plan[i].device < |setup.devices|)
                                   && shares.value
                                      == (plan, FitsOf(setup.devices, Reserved(), setup.guardBand, q, plan)))
    {
      var members := GroupMembers(group);
      if members == [] {
        return None;
      }
      var plan, left := MakePlan(members, q.rxCount);
      if left > 0 {
        return None;
      }
      PlanCovers(setup.devices, members, q.rxCount);
      var fits := FitShares(q, plan);
      shares := if fits == None then None else Some((plan, fits.value));
    }

    method AcceptGroup(q: Request, rank: int, group: nat, t: TaskId) returns (grants: Option<seq<Grant>>)
      requires Valid()
      modifies this, timelines, pool
      ensures Valid()
      ensures (Value(), grants) == AcceptedCoherent(setup.devices, setup.guardBand, old(Value()), q, rank, group, t)
    {
      var shares := PlanShares(q, group);
      if shares == None {
        return None;
      }
      var (plan, fits) := shares.value;
      var ports := pool.AllocateN(q.rxCount);
      if |ports| < q.rxCount {
        return None;
      }
      DealtArePlaced(setup.devices, Reserved(), setup.guardBand, q, plan, ports);
      var given := EnterShares(t, q, rank, plan, fits, ports);
      grants := Some(given);
    }

    method EnterShares(t: TaskId, q: Request, rank: int, plan: seq<Share>, fits: seq<FitResult>, ports: seq<int>)
        returns (grants: seq<Grant>)
      requires Valid() && |fits| == |plan| && Planned(plan) == |ports|
      requires Placed(Deal(plan, fits, ports), |timelines|)
      modifies this, timelines
      ensures Valid() && grants == Deal(plan, fits, ports)
      ensures Value() == Entered(old(Value()), t, q, rank, grants)
    {
      grants := DealPorts(plan, fits, ports);
      EnterGroup(t, q, rank, grants);
    }
  }

  lemma DealtArePlaced(devices: seq<Device>, timelines: seq<seq<Slot>>, guardBand: real, q: Request,
                       plan: seq<Share>, ports: seq<int>)
    requires |timelines| == |devices| && AllFit(devices, timelines, guardBand, q, plan) && Planned(plan) == |ports|
    ensures forall i :: 0 <= i < |plan| ==> plan[i].device < |devices|
    ensures Placed(Deal(plan, FitsOf(devices, timelines, guardBand, q, plan), ports), |devices|)
  {
    assert forall i :: 0 <= i < |plan| ==> plan[i] in plan;
  }

  // The next ports in the row go to the next share.
  method DealPorts(plan: seq<Share>, fits: seq<FitResult>, ports: seq<int>) returns (grants: seq<Grant>)
    requires |fits| == |plan| && Planned(plan) == |ports|
    ensures grants == Deal(plan, fits, ports)
  {
    grants := [];
    var ahead := ports;
    for i := 0 to |plan|
      invariant Planned(plan[i..]) == |ahead|
      invariant grants + Deal(plan[i..], fits[i..], ahead) == Deal(plan, fits, ports)
    {
      var n := plan[i].count;
      var g := Grant(plan[i].device, fits[i], ahead[..n]);
      assert plan[i..][1..] == plan[i + 1..] && fits[i..][1..] == fits[i + 1..];
      ghost var rest := Deal(plan[i + 1..], fits[i + 1..], ahead[n..]);
      assert grants + ([g] + rest) == (grants + [g]) + rest;
      grants := grants + [g];
      ahead := ahead[n..];
    }
  }

  // The rate a device is acquired at: the least multiple of the request it can run at, or
  // none if that is out of its reach.
  method RateFor(caps: Caps, requested: real) returns (rate: Option<real>)
    ensures 0.0 < requested <= caps.rateMax ==> LeastInReach(caps, requested, rate)
    ensures rate == AcquiredRate(caps, requested)
  {
    if 0.0 < requested <= caps.rateMax {
      AcquiredAtLeastMultiple(caps, requested);
    }
    if caps.rateMin > 0.0 && requested > 0.0 && requested < caps.rateMin {
      var multiple := Ceil(caps.rateMin / requested);
      if multiple > MAX_DECIMATION {
        return None;
      }
      var acquired := Times(requested, Max(1, multiple));
      if caps.rateMax > 0.0 && acquired > caps.rateMax {
        return None;
      }
      return Some(acquired);
    }
    rate := Some(requested);
  }

  lemma FirstOfferIsBest(s: Search, order: seq<nat>, i: nat)
    requires |s.timelines| == |s.devices| && i < |order|
    requires InOrder(Allocated(s.timelines, s.now), PreferredIndex(s.wanted), order)
    requires forall d: nat :: d in order <==> Candidate(s.devices, s.wanted, s.required, d)
    requires Offers(s, order[i]) && forall k :: 0 <= k < i ==> !Offers(s, order[k])
    ensures BestOf(s) == Some((order[i], OfferOf(s, order[i]).value))
  {
    var best := Some((order[i], OfferOf(s, order[i]).value));
    forall e: nat | Offers(s, e) && e != order[i]
      ensures Earlier(Allocated(s.timelines, s.now), PreferredIndex(s.wanted), order[i], e)
    {
      assert e in order;
      var k :| 0 <= k < |order| && order[k] == e;
      assert i < k;
    }
    BestDevice(s, best, BestOf(s));
  }

  lemma NoOfferAtAll(s: Search, order: seq<nat>)
    requires |s.timelines| == |s.devices|
    requires forall d: nat :: d in order <==> Candidate(s.devices, s.wanted, s.required, d)
    requires forall k :: 0 <= k < |order| ==> !Offers(s, order[k])
    ensures BestOf(s) == None
  {
    assert forall d: nat :: Offers(s, d) ==> d in order;
  }
}
