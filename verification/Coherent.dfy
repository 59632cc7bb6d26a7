// Tasks spread over the devices of a coherency group (src/ResourceManager.cpp:310-438).
module Coherent {
  import opened Basics
  import opened Slots
  import opened Fitting
  import opened TimelineRuns
  import opened DeviceSelection
  import opened Admission
  import opened Grants
  import UdpPortPool
  import Channels
  import Placing

  // How many RX channels one device contributes.
  datatype Share = Share(device: nat, count: nat)

  predicate Member(devices: seq<Device>, group: nat, d: nat)
  {
    d < |devices| && devices[d].online && devices[d].group == group
  }

  // The online devices of a group among the first n, in iteration order.
  function Members(devices: seq<Device>, group: nat, n: nat): (members: seq<nat>)
    requires n <= |devices|
    ensures forall d: nat :: d in members <==> d < n && Member(devices, group, d)
    ensures OnDevices(devices, members)
  {
    if n == 0 then []
    else
      var rest := Members(devices, group, n - 1);
      if devices[n - 1].online && devices[n - 1].group == group then rest + [n - 1] else rest
  }

  lemma {:induction false} MembersAscend(devices: seq<Device>, group: nat, n: nat)
    requires n <= |devices|
    ensures NoDuplicates(Members(devices, group, n))
  {
    if n == 0 {
    } else {
      MembersAscend(devices, group, n - 1);
      var rest := Members(devices, group, n - 1);
      assert forall i :: 0 <= i < |rest| ==> rest[i] in rest;
    }
  }

  ghost predicate OnDevices(devices: seq<Device>, members: seq<nat>)
  {
    forall i :: 0 <= i < |members| ==> members[i] < |devices|
  }

  // Each device in turn is filled to its cap; the second result is what is left over.
  function Plan(devices: seq<Device>, members: seq<nat>, want: nat): (r: (seq<Share>, nat))
    requires OnDevices(devices, members)
    decreases members
  {
    if members == [] || want == 0 then ([], want)
    else
      var n := Min(want, devices[members[0]].caps.maxRx);
      var (rest, left) := Plan(devices, members[1..], want - n);
      ([Share(members[0], n)] + rest, left)
  }

  ghost function Capacity(devices: seq<Device>, members: seq<nat>): nat
    requires OnDevices(devices, members)
    decreases members
  {
    if members == [] then 0 else devices[members[0]].caps.maxRx + Capacity(devices, members[1..])
  }

  ghost function Planned(plan: seq<Share>): nat
    decreases plan
  {
    if plan == [] then 0 else plan[0].count + Planned(plan[1..])
  }

  // The greedy plan covers the request exactly when the group has enough channels. It goes
  // down the group in order, loads no device beyond its cap, and all but the last fully.
  lemma {:induction false} PlanCovers(devices: seq<Device>, members: seq<nat>, want: nat)
    requires OnDevices(devices, members)
    ensures var (plan, left) := Plan(devices, members, want);
            && (left == 0 <==> Capacity(devices, members) >= want)
            && Planned(plan) + left == want
            && |plan| <= |members|
            && (forall i :: 0 <= i < |plan| ==>
                  plan[i].device == members[i] && plan[i].count <= devices[members[i]].caps.maxRx)
            && (forall i :: 0 <= i < |plan| - 1 ==> plan[i].count == devices[members[i]].caps.maxRx)
    decreases members
  {
    if members == [] || want == 0 {
    } else {
      var n := Min(want, devices[members[0]].caps.maxRx);
      PlanCovers(devices, members[1..], want - n);
      var (rest, left) := Plan(devices, members[1..], want - n);
      assert Plan(devices, members, want) == ([Share(members[0], n)] + rest, left);
      if n == want {
        assert rest == [];
      }
    }
  }

  function ShareRequest(q: Request, count: nat): Request
  {
    q.(rxCount := count, txCount := 0)
  }

  function ShareFit(devices: seq<Device>, timelines: seq<seq<Slot>>, guardBand: real,
                    q: Request, share: Share): FitResult
    requires |timelines| == |devices| && share.device < |devices|
  {
    FitFor(timelines[share.device], ShareRequest(q, share.count), LimitsOf(devices[share.device], guardBand),
           devices[share.device].sharedLo, -1)
  }

  ghost predicate AllFit(devices: seq<Device>, timelines: seq<seq<Slot>>, guardBand: real, q: Request, plan: seq<Share>)
    requires |timelines| == |devices|
  {
    forall share :: share in plan ==>
      share.device < |devices| && ShareFit(devices, timelines, guardBand, q, share).Fit?
  }

  function FitsOf(devices: seq<Device>, timelines: seq<seq<Slot>>, guardBand: real, q: Request, plan: seq<Share>):
      (fits: seq<FitResult>)
    requires |timelines| == |devices| && forall i :: 0 <= i < |plan| ==> plan[i].device < |devices|
    ensures |fits| == |plan|
    ensures forall i :: 0 <= i < |plan| ==> fits[i] == ShareFit(devices, timelines, guardBand, q, plan[i])
  {
    seq(|plan|, i requires 0 <= i < |plan| => ShareFit(devices, timelines, guardBand, q, plan[i]))
  }

  // Nothing on the device's timeline stands against its share: its oscillator is not held at
  // another tuning, there is room for the slice, and enough channels are left.
  ghost predicate Takes(dev: Device, slots: seq<Slot>, guardBand: real, q: Request, count: nat)
  {
    Placing.Fits(slots, q.(rxCount := count, txCount := 0), Limits(dev.caps.maxRx, dev.caps.maxTx, guardBand),
                 dev.sharedLo, -1)
  }

  ghost predicate AllTake(devices: seq<Device>, timelines: seq<seq<Slot>>, guardBand: real,
                          q: Request, plan: seq<Share>)
    requires |timelines| == |devices|
  {
    forall share :: share in plan ==>
      share.device < |devices|
      && Takes(devices[share.device], timelines[share.device], guardBand, q, share.count)
  }

  lemma AllFitExactlyWhen(devices: seq<Device>, timelines: seq<seq<Slot>>, guardBand: real,
                          q: Request, plan: seq<Share>)
    requires |timelines| == |devices|
    ensures AllFit(devices, timelines, guardBand, q, plan) <==> AllTake(devices, timelines, guardBand, q, plan)
  {
    forall share | share in plan && share.device < |devices|
      ensures ShareFit(devices, timelines, guardBand, q, share).Fit?
              <==> Takes(devices[share.device], timelines[share.device], guardBand, q, share.count)
    {
      Placing.FitsExactlyWhen(timelines[share.device], ShareRequest(q, share.count),
                              LimitsOf(devices[share.device], guardBand), devices[share.device].sharedLo, -1);
    }
  }

  // The ports are dealt out in plan order, one per channel.
  function Deal(plan: seq<Share>, fits: seq<FitResult>, ports: seq<int>): (r: seq<Grant>)
    requires |fits| == |plan| && Planned(plan) == |ports|
    ensures |r| == |plan|
    ensures forall i :: 0 <= i < |plan| ==>
              r[i].device == plan[i].device && r[i].fit == fits[i] && |r[i].ports| == plan[i].count
    decreases plan
  {
    if plan == [] then []
    else
      var n := plan[0].count;
      [Grant(plan[0].device, fits[0], ports[..n])] + Deal(plan[1..], fits[1..], ports[n..])
  }

  function PlanFor(devices: seq<Device>, group: nat, want: nat): (seq<Share>, nat)
  {
    Plan(devices, Members(devices, group, |devices|), want)
  }

  // All of it or nothing.
  ghost function AcceptedCoherent(devices: seq<Device>, guardBand: real, b: Books,
                                  q: Request, rank: int, group: nat, t: TaskId): (Books, Option<seq<Grant>>)
    requires |b.timelines| == |devices|
  {
    var (plan, left) := PlanFor(devices, group, q.rxCount);
    PlanCovers(devices, Members(devices, group, |devices|), q.rxCount);
    var (pool, ports) := UdpPortPool.Draw(b.pool, q.rxCount);
    if Members(devices, group, |devices|) == [] || left > 0 || !AllFit(devices, b.timelines, guardBand, q, plan)
       || |ports| < q.rxCount then (b, None)
    else
      DrawSize(b.pool, q.rxCount);
      assert forall i :: 0 <= i < |plan| ==> plan[i] in plan;
      var grants := Deal(plan, FitsOf(devices, b.timelines, guardBand, q, plan), ports);
      assert Placed(grants, |b.timelines|);
      (Entered(b.(pool := pool), t, q, rank, grants), Some(grants))
  }

  lemma DrawSize(pool: UdpPortPool.Ports, n: nat)
    ensures |UdpPortPool.Draw(pool, n).1| == if n <= |pool.free| then n else 0
  {
    if n <= |pool.free| {
      UdpPortPool.LowestPorts(pool.free, n);
    }
  }

  // Accepted exactly when the group is there and large enough, each planned device can
  // take its share, and the pool has a port for each channel. Otherwise nothing changes.
  lemma AcceptedExactlyWhen(devices: seq<Device>, guardBand: real, b: Books,
                            q: Request, rank: int, group: nat, t: TaskId)
    requires |b.timelines| == |devices|
    ensures var (after, grants) := AcceptedCoherent(devices, guardBand, b, q, rank, group, t);
            var members := Members(devices, group, |devices|);
            && (grants.Some? <==>
                  && (exists d: nat :: Member(devices, group, d))
                  && Capacity(devices, members) >= q.rxCount
                  && AllTake(devices, b.timelines, guardBand, q, PlanFor(devices, group, q.rxCount).0)
                  && |b.pool.free| >= q.rxCount)
            && (grants.None? ==> after == b)
  {
    var members := Members(devices, group, |devices|);
    PlanCovers(devices, members, q.rxCount);
    DrawSize(b.pool, q.rxCount);
    AllFitExactlyWhen(devices, b.timelines, guardBand, q, PlanFor(devices, group, q.rxCount).0);
    if members != [] {
      assert members[0] in members;
    }
  }

  ghost function DealtPorts(grants: seq<Grant>): seq<int>
    decreases grants
  {
    if grants == [] then [] else grants[0].ports + DealtPorts(grants[1..])
  }

  lemma {:induction false} AllPortsDealt(plan: seq<Share>, fits: seq<FitResult>, ports: seq<int>)
    requires |fits| == |plan| && Planned(plan) == |ports|
    ensures DealtPorts(Deal(plan, fits, ports)) == ports
    decreases plan
  {
    if plan == [] {
    } else {
      AllPortsDealt(plan[1..], fits[1..], ports[plan[0].count..]);
    }
  }

  // One share of an accepted request: a slot at the tuning and with the width asked for,
  // around the centre frequency or, where the oscillator is shared, clear of the others and
  // as low as there is room; the lowest channels not in use, as many as planned, and a port
  // for each; and nothing else new on that timeline.
  ghost predicate ShareHonoured(devices: seq<Device>, guardBand: real, before: seq<seq<Slot>>, after: seq<seq<Slot>>,
                                q: Request, t: TaskId, share: Share, g: Grant)
    requires |before| == |devices| && |after| == |devices|
  {
    && g.device == share.device && g.device < |devices| && g.fit.Fit?
    && |g.fit.rx| == share.count == |g.ports| && g.fit.tx == []
    && g.fit.cf == q.cf && g.fit.rate == q.rate
    && (var r := q.(rxCount := share.count, txCount := 0);
        && Placing.SliceAt(before[g.device], r, guardBand, devices[g.device].sharedLo, g.fit.lo, g.fit.hi)
        && Placing.LowestUnused(g.fit.rx, share.count, devices[g.device].caps.maxRx, before[g.device], r, false))
    && after[g.device] == before[g.device] + [Slot(t, q.start, q.stop, q.cf, q.rate, g.fit.lo, g.fit.hi, g.fit.rx, [])]
  }

  // The grants of an accepted request, in terms of the plan.
  ghost predicate FromPlan(devices: seq<Device>, timelines: seq<seq<Slot>>, guardBand: real, q: Request,
                           plan: seq<Share>, grants: seq<Grant>)
    requires |timelines| == |devices|
  {
    && |grants| == |plan| && Placed(grants, |devices|) && AllFit(devices, timelines, guardBand, q, plan)
    && (forall i :: 0 <= i < |plan| ==>
          grants[i].device == plan[i].device && |grants[i].ports| == plan[i].count
          && plan[i].device < |devices| && grants[i].fit == ShareFit(devices, timelines, guardBand, q, plan[i]))
    && (forall i, j :: 0 <= i < j < |plan| ==> plan[i].device != plan[j].device)
  }

  lemma PlanIsDistinct(devices: seq<Device>, group: nat, want: nat)
    ensures var (plan, left) := PlanFor(devices, group, want);
            && Planned(plan) + left == want
            && (forall i :: 0 <= i < |plan| ==> Member(devices, group, plan[i].device))
            && (forall i, j :: 0 <= i < j < |plan| ==> plan[i].device != plan[j].device)
  {
    var members := Members(devices, group, |devices|);
    MembersAscend(devices, group, |devices|);
    PlanCovers(devices, members, want);
    assert forall i :: 0 <= i < |members| ==> members[i] in members;
  }

  lemma GrantsFollowPlan(devices: seq<Device>, guardBand: real, b: Books,
                         q: Request, rank: int, group: nat, t: TaskId)
    requires |b.timelines| == |devices|
    requires AcceptedCoherent(devices, guardBand, b, q, rank, group, t).1.Some?
    ensures var (after, r) := AcceptedCoherent(devices, guardBand, b, q, rank, group, t);
            var plan := PlanFor(devices, group, q.rxCount).0;
            var (pool, ports) := UdpPortPool.Draw(b.pool, q.rxCount);
            && Planned(plan) == q.rxCount == |ports|
            && FromPlan(devices, b.timelines, guardBand, q, plan, r.value)
            && DealtPorts(r.value) == ports
            && after == Entered(b.(pool := pool), t, q, rank, r.value)
            && forall i :: 0 <= i < |plan| ==> Member(devices, group, plan[i].device)
  {
    var plan := PlanFor(devices, group, q.rxCount).0;
    PlanIsDistinct(devices, group, q.rxCount);
    DrawSize(b.pool, q.rxCount);
    assert forall i :: 0 <= i < |plan| ==> plan[i] in plan;
    AllPortsDealt(plan, FitsOf(devices, b.timelines, guardBand, q, plan), UdpPortPool.Draw(b.pool, q.rxCount).1);
  }

  lemma SharesAreHonoured(devices: seq<Device>, timelines: seq<seq<Slot>>, guardBand: real, q: Request, t: TaskId,
                          plan: seq<Share>, grants: seq<Grant>, i: nat)
    requires |timelines| == |devices| && FromPlan(devices, timelines, guardBand, q, plan, grants) && i < |plan|
    ensures ShareHonoured(devices, guardBand, timelines, Inserted(timelines, grants, t, q), q, t, plan[i], grants[i])
  {
    assert grants[i] in grants && plan[i] in plan;
    InsertedOnce(timelines, grants, t, q, grants[i].device);
    ShareGiven(devices, timelines, guardBand, q, plan[i]);
  }

  // An accepted request gets its channels, no more and no fewer: one slot per planned
  // device, all of them members of the group, the drawn ports dealt out in order with none
  // left over, and every other timeline untouched.
  lemma AcceptedInFull(devices: seq<Device>, guardBand: real, b: Books,
                       q: Request, rank: int, group: nat, t: TaskId)
    requires |b.timelines| == |devices|
    requires AcceptedCoherent(devices, guardBand, b, q, rank, group, t).1.Some?
    ensures var (after, r) := AcceptedCoherent(devices, guardBand, b, q, rank, group, t);
            var plan := PlanFor(devices, group, q.rxCount).0;
            var grants := r.value;
            && |grants| == |plan| && Planned(plan) == q.rxCount == |DealtPorts(grants)|
            && (forall i :: 0 <= i < |plan| ==>
                  Member(devices, group, plan[i].device)
                  && ShareHonoured(devices, guardBand, b.timelines, after.timelines, q, t, plan[i], grants[i]))
            && (forall d: nat :: d < |devices| && !GrantedOn(grants, d) ==> after.timelines[d] == b.timelines[d])
            && (after.pool, DealtPorts(grants)) == UdpPortPool.Draw(b.pool, q.rxCount)
            && (forall g :: g in grants ==> g.fit.Fit?)
            && after.registry == b.registry[t := Record(rank, true, AllocationsOf(grants))]
  {
    var plan := PlanFor(devices, group, q.rxCount).0;
    var grants := AcceptedCoherent(devices, guardBand, b, q, rank, group, t).1.value;
    GrantsFollowPlan(devices, guardBand, b, q, rank, group, t);
    forall d: nat | d < |devices| && !GrantedOn(grants, d)
      ensures Inserted(b.timelines, grants, t, q)[d] == b.timelines[d]
    {
      WithoutInserted(b.timelines, grants, t, q, d);
    }
    forall i | 0 <= i < |plan|
      ensures ShareHonoured(devices, guardBand, b.timelines, Inserted(b.timelines, grants, t, q), q, t,
                            plan[i], grants[i])
    {
      SharesAreHonoured(devices, b.timelines, guardBand, q, t, plan, grants, i);
    }
  }

  lemma ShareGiven(devices: seq<Device>, timelines: seq<seq<Slot>>, guardBand: real, q: Request, share: Share)
    requires |timelines| == |devices| && share.device < |devices|
    requires ShareFit(devices, timelines, guardBand, q, share).Fit?
    ensures var fit, dev := ShareFit(devices, timelines, guardBand, q, share), devices[share.device];
            && Placing.Given(timelines[share.device], q.(rxCount := share.count, txCount := 0),
                             Limits(dev.caps.maxRx, dev.caps.maxTx, guardBand), dev.sharedLo, -1, fit)
            && fit.tx == []
  {
    Placing.FitExactly(timelines[share.device], ShareRequest(q, share.count),
                       LimitsOf(devices[share.device], guardBand), devices[share.device].sharedLo, -1);
  }

  // The demand on TX plays no part: a request for TX channels only is accepted by any
  // group with an online member, and is given no device at all.
  lemma TransmitDemandIsIgnored(devices: seq<Device>, guardBand: real, b: Books,
                                q: Request, rank: int, group: nat, t: TaskId)
    requires |b.timelines| == |devices| && q.rxCount == 0
    ensures AcceptedCoherent(devices, guardBand, b, q, rank, group, t).1 ==
            if exists d: nat :: Member(devices, group, d) then Some([]) else None
  {
    AcceptedExactlyWhen(devices, guardBand, b, q, rank, group, t);
    PlanCovers(devices, Members(devices, group, |devices|), 0);
  }

  // ---- What is not looked at ----

  // The same devices, but for the ranges of frequency, bandwidth and rate they can do.
  ghost predicate SameButRanges(a: seq<Device>, b: seq<Device>)
  {
    |a| == |b| && forall i :: 0 <= i < |a| ==>
      && a[i].online == b[i].online && a[i].sharedLo == b[i].sharedLo && a[i].group == b[i].group
      && a[i].caps.maxRx == b[i].caps.maxRx && a[i].caps.maxTx == b[i].caps.maxTx
  }

  lemma {:induction false} SameMembers(a: seq<Device>, b: seq<Device>, group: nat, n: nat)
    requires SameButRanges(a, b) && n <= |a|
    ensures Members(a, group, n) == Members(b, group, n)
  {
    if n == 0 {
    } else {
      SameMembers(a, b, group, n - 1);
    }
  }

  lemma {:induction false} SamePlan(a: seq<Device>, b: seq<Device>, members: seq<nat>, want: nat)
    requires SameButRanges(a, b) && OnDevices(a, members)
    ensures Plan(a, members, want) == Plan(b, members, want)
    decreases members
  {
    if members == [] || want == 0 {
    } else {
      SamePlan(a, b, members[1..], want - Min(want, a[members[0]].caps.maxRx));
    }
  }

  // The ranges of the members play no part: whether a coherent request is accepted, and with
  // what, is the same whatever they are, so also if a member cannot be tuned to it at all.
  lemma RangesAreIgnored(a: seq<Device>, b: seq<Device>, guardBand: real, books: Books,
                         q: Request, rank: int, group: nat, t: TaskId)
    requires |books.timelines| == |a| && SameButRanges(a, b)
    ensures AcceptedCoherent(a, guardBand, books, q, rank, group, t)
         == AcceptedCoherent(b, guardBand, books, q, rank, group, t)
  {
    SameMembers(a, b, group, |a|);
    SamePlan(a, b, Members(a, group, |a|), q.rxCount);
    PlanIsDistinct(a, group, q.rxCount);
    var plan := PlanFor(a, group, q.rxCount).0;
    forall share: Share | share.device < |a|
      ensures ShareFit(a, books.timelines, guardBand, q, share) == ShareFit(b, books.timelines, guardBand, q, share)
    {
    }
    assert FitsOf(a, books.timelines, guardBand, q, plan) == FitsOf(b, books.timelines, guardBand, q, plan);
  }
}
