// What an accept on one device comes to, told from the books before the request: whether it
// is accepted, with which channels, and what becomes of its ports and of those it preempts.
module Outcomes {
  import opened Basics
  import opened Slots
  import opened Fitting
  import opened DeviceSelection
  import opened Admission
  import opened Widening
  import opened Grants
  import opened Acceptance
  import Placing
  import Sharing
  import TimelineRuns
  import UdpPortPool

  // Some device that may be used has a place for the request.
  ghost predicate Placeable(setup: Setup, b: Books, ask: Ask)
    requires |b.timelines| == |setup.devices|
  {
    exists d: nat :: Candidate(setup.devices, ask.wanted, ask.required, d) && HasPlace(setup, b, ask, d)
  }

  // No device has a place, not even once room is made, and this one is the first to share.
  ghost predicate ByJoining(setup: Setup, b: Books, ask: Ask, env: Env, d: nat)
    requires |b.timelines| == |setup.devices|
  {
    var cleared := Cleared(setup, b, ask);
    && d < |setup.devices| && !Placeable(setup, b, ask) && !Placeable(setup, cleared, ask)
    && Joinable(setup, cleared, ask, env, d) && forall j: nat :: j < d ==> !Joinable(setup, cleared, ask, env, j)
  }

  // How many RX channels the device then offers.
  ghost function Offered(setup: Setup, b: Books, ask: Ask, d: nat): nat
    requires |b.timelines| == |setup.devices| && d < |setup.devices|
  {
    OfferedChannels(Overlapping(Cleared(setup, b, ask).timelines[d], ask.q.start, ask.q.stop), ask.q, ask.channel)
  }

  // The books a request finds its device in.
  ghost function Ready(setup: Setup, b: Books, ask: Ask): (r: Books)
    requires |b.timelines| == |setup.devices|
    ensures |r.timelines| == |b.timelines|
  {
    if Placeable(setup, b, ask) then b else Cleared(setup, b, ask)
  }

  // ---- How the device is chosen ----

  lemma SearchFindsPlace(setup: Setup, b: Books, ask: Ask, now: int)
    requires |b.timelines| == |setup.devices|
    ensures BestOf(SearchFor(setup, b, ask, now)).Some? <==> Placeable(setup, b, ask)
  {
    var s := SearchFor(setup, b, ask, now);
    assert forall d: nat :: Offers(s, d) <==>
      Candidate(setup.devices, ask.wanted, ask.required, d) && HasPlace(setup, b, ask, d);
  }

  lemma SearchedHow(setup: Setup, b: Books, ask: Ask, env: Env)
    requires |b.timelines| == |setup.devices|
    ensures Searched(setup, b, ask, env).0 == Ready(setup, b, ask)
    ensures Searched(setup, b, ask, env).1.Some? <==>
              Placeable(setup, b, ask) || Placeable(setup, Cleared(setup, b, ask), ask)
  {
    SearchFindsPlace(setup, b, ask, env.now);
    SearchFindsPlace(setup, Cleared(setup, b, ask), ask, env.later);
  }

  // A device found by searching gives the channels asked for.
  lemma SearchedAsAsked(setup: Setup, b: Books, ask: Ask, env: Env)
    requires |b.timelines| == |setup.devices| && Searched(setup, b, ask, env).1.Some?
    ensures AsAsked(ask, Searched(setup, b, ask, env).1.value.1)
  {
    var (after, choice) := Searched(setup, b, ask, env);
    var first := SearchFor(setup, b, ask, env.now);
    var second := SearchFor(setup, after, ask, env.later);
    if BestOf(first).Some? {
      OfferServes(first, choice.value.0);
    } else {
      OfferServes(second, choice.value.0);
    }
  }

  lemma JoinedHow(setup: Setup, b: Books, ask: Ask, env: Env)
    requires |b.timelines| == |setup.devices| && Searched(setup, b, ask, env).1.None?
    ensures Chosen(setup, b, ask, env).1.Some? <==> exists d: nat :: ByJoining(setup, b, ask, env, d)
    ensures Chosen(setup, b, ask, env).1.Some? ==>
              var (d, fit) := Chosen(setup, b, ask, env).1.value;
              ByJoining(setup, b, ask, env, d) && fit.tx == [] && |fit.rx| == Offered(setup, b, ask, d)
    ensures Chosen(setup, b, ask, env).0.pool == Ready(setup, b, ask).pool
  {
    SearchedHow(setup, b, ask, env);
    var c := Cleared(setup, b, ask);
    var choice := Chosen(setup, b, ask, env).1;
    assert forall d: nat :: ByJoining(setup, b, ask, env, d) ==> d < |setup.devices| && Joinable(setup, c, ask, env, d);
    JoinsFirst(setup.devices, c, ask.q, ask.rank, setup.guardBand, ask.channel, env.tunes, 0);
    if choice.Some? {
      var d := choice.value.0;
      assert Joinable(setup, c, ask, env, d);
      JoiningTakesSeat(setup, c, ask, env, d);
      SeatOffers(setup.devices[d], c.timelines[d], c.registry, ask.q, ask.rank, setup.guardBand, ask.channel);
      assert ByJoining(setup, b, ask, env, d);
    }
  }

  lemma JoiningTakesSeat(setup: Setup, c: Books, ask: Ask, env: Env, d: nat)
    requires |c.timelines| == |setup.devices| && d < |setup.devices|
    requires var choice := Joined(setup.devices, c, ask.q, ask.rank, setup.guardBand, ask.channel, env.tunes, 0).1;
             choice.Some? && choice.value.0 == d
    ensures var choice := Joined(setup.devices, c, ask.q, ask.rank, setup.guardBand, ask.channel, env.tunes, 0).1;
            SeatTaken(setup.devices, c, ask.q, ask.rank, setup.guardBand, ask.channel, d, choice.value.1)
  {
    JoiningMovesNothing(setup.devices, c, ask.q, ask.rank, setup.guardBand, ask.channel, env.tunes, 0, d);
  }

  lemma OneJoins(setup: Setup, b: Books, ask: Ask, env: Env, d: nat, e: nat)
    requires |b.timelines| == |setup.devices|
    requires ByJoining(setup, b, ask, env, d) && ByJoining(setup, b, ask, env, e)
    ensures d == e
  {
    var cleared := Cleared(setup, b, ask);
    assert Joinable(setup, cleared, ask, env, d) && Joinable(setup, cleared, ask, env, e);
  }

  // ---- Accepted or not ----

  // A request is accepted exactly when some device has a place for it, or has once room is
  // made, or can be joined, and the pool has the ports that the client did not bring.
  lemma OneAcceptedExactlyWhen(setup: Setup, b: Books, ask: Ask, env: Env, t: TaskId)
    requires |b.timelines| == |setup.devices|
    ensures AcceptedOne(setup, b, ask, env, t).1.Some? <==>
              && (Placeable(setup, b, ask) || Placeable(setup, Cleared(setup, b, ask), ask)
                  || exists d: nat :: ByJoining(setup, b, ask, env, d))
              && |Ready(setup, b, ask).pool.free| >= PortsNeeded(ask.q, ask.clientPorts)
  {
    SearchedHow(setup, b, ask, env);
    if Searched(setup, b, ask, env).1.None? {
      JoinedHow(setup, b, ask, env);
    }
  }

  // ---- With which channels ----

  // What the accepted request was given: as many channels of each kind as asked for, or the
  // RX channels that a shared device offers and no TX channel.
  lemma GivenExactly(setup: Setup, b: Books, ask: Ask, env: Env, t: TaskId)
    requires |b.timelines| == |setup.devices| && AcceptedOne(setup, b, ask, env, t).1.Some?
    ensures var grant := AcceptedOne(setup, b, ask, env, t).1.value;
            && grant.fit.Fit?
            && |grant.ports| == Min(|grant.fit.rx| + |grant.fit.tx|,
                                    Max(ask.q.rxCount + ask.q.txCount, |ask.clientPorts|))
            && if Placeable(setup, b, ask) || Placeable(setup, Cleared(setup, b, ask), ask) then AsAsked(ask, grant.fit)
               else ByJoining(setup, b, ask, env, grant.device) && grant.fit.tx == []
                    && |grant.fit.rx| == Offered(setup, b, ask, grant.device)
  {
    SearchedHow(setup, b, ask, env);
    var (ready, choice) := Chosen(setup, b, ask, env);
    if Searched(setup, b, ask, env).1.None? {
      JoinedHow(setup, b, ask, env);
    } else {
      SearchedAsAsked(setup, b, ask, env);
    }
    PortsCount(ready.pool, ask.q, ask.clientPorts);
  }

  lemma GivenByJoining(setup: Setup, b: Books, ask: Ask, env: Env, t: TaskId, d: nat)
    requires |b.timelines| == |setup.devices| && AcceptedOne(setup, b, ask, env, t).1.Some?
    requires ByJoining(setup, b, ask, env, d)
    ensures var grant := AcceptedOne(setup, b, ask, env, t).1.value;
            grant.fit.Fit? && grant.fit.tx == [] && |grant.fit.rx| == Offered(setup, b, ask, d)
  {
    GivenExactly(setup, b, ask, env, t);
    OneJoins(setup, b, ask, env, d, AcceptedOne(setup, b, ask, env, t).1.value.device);
  }

  lemma PortsCount(pool: UdpPortPool.Ports, q: Request, clientPorts: seq<int>)
    requires PortsFor(pool, q, clientPorts).1.Some?
    ensures |PortsFor(pool, q, clientPorts).1.value| == Max(q.rxCount + q.txCount, |clientPorts|)
  {
    UdpPortPool.LowestPorts(pool.free, PortsNeeded(q, clientPorts));
  }

  // An accepted request is given the channels it asked for exactly when a search has a place
  // for it, before or after room is made, or it asks for no TX channel and the first device
  // that can be joined offers as many RX channels as it asks for.
  lemma AsAskedExactlyWhen(setup: Setup, b: Books, ask: Ask, env: Env, t: TaskId)
    requires |b.timelines| == |setup.devices| && AcceptedOne(setup, b, ask, env, t).1.Some?
    ensures AsAsked(ask, AcceptedOne(setup, b, ask, env, t).1.value.fit) <==>
              || Placeable(setup, b, ask)
              || Placeable(setup, Cleared(setup, b, ask), ask)
              || (ask.q.txCount == 0
                  && exists d: nat :: ByJoining(setup, b, ask, env, d) && Offered(setup, b, ask, d) == ask.q.rxCount)
  {
    GivenExactly(setup, b, ask, env, t);
    if d: nat :| ByJoining(setup, b, ask, env, d) {
      GivenByJoining(setup, b, ask, env, t, d);
    }
    forall d: nat, e: nat | ByJoining(setup, b, ask, env, d) && ByJoining(setup, b, ask, env, e)
      ensures d == e
    {
      OneJoins(setup, b, ask, env, d, e);
    }
  }

  // There are fewer ports than channels, so that the list of ports is read past its end,
  // exactly when a request for TX channels only that names no channel joins a device whose
  // overlapping tasks list more RX channels than it asks TX channels for or brings ports.
  lemma OverrunExactlyWhen(setup: Setup, b: Books, ask: Ask, env: Env, t: TaskId)
    requires |b.timelines| == |setup.devices| && AcceptedOne(setup, b, ask, env, t).1.Some?
    requires ask.q.rxCount + ask.q.txCount >= 1
    ensures var grant := AcceptedOne(setup, b, ask, env, t).1.value;
            |grant.ports| < |grant.fit.rx| + |grant.fit.tx| <==>
              && ask.q.rxCount == 0 && ask.channel < 0
              && exists d: nat :: ByJoining(setup, b, ask, env, d)
                                  && Offered(setup, b, ask, d) > Max(ask.q.txCount, |ask.clientPorts|)
  {
    GivenExactly(setup, b, ask, env, t);
    if d: nat :| ByJoining(setup, b, ask, env, d) {
      GivenByJoining(setup, b, ask, env, t, d);
    }
    forall d: nat, e: nat | ByJoining(setup, b, ask, env, d) && ByJoining(setup, b, ask, env, e)
      ensures d == e
    {
      OneJoins(setup, b, ask, env, d, e);
    }
  }

  // ---- What is given, and what is written ----

  // A request that a search has a place for is on the best device, with the slice and the
  // channels that fit there at the rate it can be acquired at.
  lemma GivenBySearch(setup: Setup, b: Books, ask: Ask, env: Env)
    requires |b.timelines| == |setup.devices| && ask.q.rate > 0.0
    requires Placeable(setup, b, ask) || Placeable(setup, Cleared(setup, b, ask), ask)
    ensures var (c, choice) := Chosen(setup, b, ask, env);
            && c == Ready(setup, b, ask) && choice.Some?
            && var (d, fit) := choice.value;
               && IsBest(SearchFor(setup, c, ask, if Placeable(setup, b, ask) then env.now else env.later), choice)
               && fit.Fit?
               && exists rate :: LeastInReach(setup.devices[d].caps, ask.q.rate, Some(rate))
                    && Placing.Given(c.timelines[d], ask.q.(rate := rate),
                                     Limits(setup.devices[d].caps.maxRx, setup.devices[d].caps.maxTx, setup.guardBand),
                                     setup.devices[d].sharedLo, ask.channel, fit)
  {
    SearchedHow(setup, b, ask, env);
    SearchFindsPlace(setup, b, ask, env.now);
    var c := Ready(setup, b, ask);
    var (d, fit) := Chosen(setup, b, ask, env).1.value;
    var dev := setup.devices[d];
    OfferExactlyWhen(dev, c.timelines[d], ask.q, setup.guardBand, ask.channel);
    var rate :| LeastInReach(dev.caps, ask.q.rate, Some(rate))
                && Placing.Fits(c.timelines[d], ask.q.(rate := rate),
                                Limits(dev.caps.maxRx, dev.caps.maxTx, setup.guardBand), dev.sharedLo, ask.channel);
    OfferGives(dev, c.timelines[d], ask.q, setup.guardBand, ask.channel, rate);
  }

  // One that has to share is on the first device that can be joined, with what its seat
  // comes with; and that device's timeline is retuned if need be.
  lemma GivenASeat(setup: Setup, b: Books, ask: Ask, env: Env)
    requires |b.timelines| == |setup.devices|
    requires !Placeable(setup, b, ask) && !Placeable(setup, Cleared(setup, b, ask), ask)
    requires Chosen(setup, b, ask, env).1.Some?
    ensures var cleared := Cleared(setup, b, ask);
            var (c, choice) := Chosen(setup, b, ask, env);
            var (d, fit) := choice.value;
            && ByJoining(setup, b, ask, env, d) && fit.Fit?
            && Sharing.HasSeat(setup.devices[d], cleared.timelines[d], cleared.registry, ask.q, ask.rank,
                               setup.guardBand, ask.channel)
            && (exists seat :: seat != NoSeat && seat.fit == fit
                  && Sharing.SeatIs(cleared.timelines[d], ask.q, setup.guardBand, ask.channel, seat))
            && Sharing.TunedOnly(cleared.timelines, c.timelines, ask.q, d, fit)
            && c == cleared.(timelines := c.timelines)
  {
    SearchedHow(setup, b, ask, env);
    JoinedHow(setup, b, ask, env);
    var c := Cleared(setup, b, ask);
    var (d, fit) := Chosen(setup, b, ask, env).1.value;
    JoiningTakesSeat(setup, c, ask, env, d);
    Sharing.JoinTunes(setup.devices, c, ask.q, ask.rank, setup.guardBand, ask.channel, env.tunes, 0);
    Sharing.SeatExactlyWhen(setup.devices[d], c.timelines[d], c.registry, ask.q, ask.rank, setup.guardBand,
                            ask.channel);
    Sharing.SeatGives(setup.devices[d], c.timelines[d], c.registry, ask.q, ask.rank, setup.guardBand, ask.channel);
    JoinedOnlyTimelines(setup, c, ask, env);
  }

  lemma JoinedOnlyTimelines(setup: Setup, c: Books, ask: Ask, env: Env)
    requires |c.timelines| == |setup.devices|
    ensures var after := Joined(setup.devices, c, ask.q, ask.rank, setup.guardBand, ask.channel, env.tunes, 0).0;
            after == c.(timelines := after.timelines)
  {
  }

  // What an accepted request leaves in the books: one slot at the end of one timeline, with
  // the time asked for and the slice, tuning and channels given; a live record with its rank
  // and that one allocation; and as many ports fewer in the pool as the client brought too
  // few. Channel by channel, RX first, it has the client's ports in their order and then the
  // drawn ones in theirs.
  lemma AcceptedOneInFull(setup: Setup, b: Books, ask: Ask, env: Env, t: TaskId)
    requires |b.timelines| == |setup.devices| && AcceptedOne(setup, b, ask, env, t).1.Some?
    ensures var (after, grant) := AcceptedOne(setup, b, ask, env, t);
            var (c, choice) := Chosen(setup, b, ask, env);
            var need := if ask.q.rxCount + ask.q.txCount > |ask.clientPorts|
                        then ask.q.rxCount + ask.q.txCount - |ask.clientPorts| else 0;
            var (pool, drawn) := UdpPortPool.Draw(c.pool, need);
            && choice == Some((grant.value.device, grant.value.fit)) && grant.value.fit.Fit?
            && WrittenOnce(c, after, t, ask, grant.value)
            && after.pool == pool && |drawn| == need
            && forall i :: 0 <= i < |grant.value.ports| ==>
                 i < |ask.clientPorts| + |drawn|
                 && grant.value.ports[i] == if i < |ask.clientPorts| then ask.clientPorts[i]
                                            else drawn[i - |ask.clientPorts|]
  {
    var (c, choice) := Chosen(setup, b, ask, env);
    var (pool, ports) := PortsFor(c.pool, ask.q, ask.clientPorts);
    UdpPortPool.LowestPorts(c.pool.free, PortsNeeded(ask.q, ask.clientPorts));
    var grant := AcceptedOne(setup, b, ask, env, t).1.value;
    EnteredOnce(c, pool, t, ask, grant);
  }

  ghost predicate WrittenOnce(before: Books, after: Books, t: TaskId, ask: Ask, grant: Grant)
    requires grant.fit.Fit?
  {
    var d, fit := grant.device, grant.fit;
    && d < |before.timelines| == |after.timelines|
    && after.timelines[d] == before.timelines[d] + [Slot(t, ask.q.start, ask.q.stop, fit.cf, fit.rate,
                                                         fit.lo, fit.hi, fit.rx, fit.tx)]
    && (forall e :: 0 <= e < |before.timelines| && e != d ==> after.timelines[e] == before.timelines[e])
    && after.registry == before.registry[t := Record(ask.rank, true, [Allocation(d, fit.rx, grant.ports)])]
  }

  lemma EnteredOnce(c: Books, pool: UdpPortPool.Ports, t: TaskId, ask: Ask, grant: Grant)
    requires grant.device < |c.timelines| && grant.fit.Fit?
    ensures var after := Entered(c.(pool := pool), t, ask.q, ask.rank, [grant]);
            WrittenOnce(c, after, t, ask, grant) && after.pool == pool
  {
    var d := grant.device;
    var entered := c.timelines[d := c.timelines[d] + [TimelineRuns.SlotOf(t, ask.q, grant.fit)]];
    assert [grant][1..] == [];
    assert Inserted(entered, [], t, ask.q) == entered;
    assert Inserted(c.timelines, [grant], t, ask.q) == entered;
    assert AllocationsOf([grant]) == [Allocation(d, grant.fit.rx, grant.ports)];
  }

  // ---- What becomes of the ports ----

  // The request joins a device that offers fewer channels than it asks for, and the ports
  // for them come from the pool.
  ghost predicate LeavesPorts(setup: Setup, b: Books, ask: Ask, env: Env)
    requires |b.timelines| == |setup.devices|
  {
    var count := ask.q.rxCount + ask.q.txCount;
    && |ask.clientPorts| < count && |Cleared(setup, b, ask).pool.free| >= PortsNeeded(ask.q, ask.clientPorts)
    && exists d: nat :: ByJoining(setup, b, ask, env, d) && Offered(setup, b, ask, d) < count
  }

  lemma LeavesPortsExactlyWhen(setup: Setup, b: Books, ask: Ask, env: Env, t: TaskId)
    requires |b.timelines| == |setup.devices|
    ensures LeavesPorts(setup, b, ask, env) <==>
              var grant := AcceptedOne(setup, b, ask, env, t).1;
              grant.Some? && !PortsRecorded(ask, grant.value.fit)
  {
    OneAcceptedExactlyWhen(setup, b, ask, env, t);
    if d: nat :| ByJoining(setup, b, ask, env, d) {
      JoinedLeavesPorts(setup, b, ask, env, t, d);
    } else if AcceptedOne(setup, b, ask, env, t).1.Some? {
      GivenExactly(setup, b, ask, env, t);
    }
  }

  lemma JoinedLeavesPorts(setup: Setup, b: Books, ask: Ask, env: Env, t: TaskId, d: nat)
    requires |b.timelines| == |setup.devices| && ByJoining(setup, b, ask, env, d)
    ensures LeavesPorts(setup, b, ask, env) <==>
              var grant := AcceptedOne(setup, b, ask, env, t).1;
              grant.Some? && !PortsRecorded(ask, grant.value.fit)
  {
    OneAcceptedExactlyWhen(setup, b, ask, env, t);
    forall e: nat | ByJoining(setup, b, ask, env, e)
      ensures d == e
    {
      OneJoins(setup, b, ask, env, d, e);
    }
    if AcceptedOne(setup, b, ask, env, t).1.Some? {
      GivenByJoining(setup, b, ask, env, t, d);
    }
  }

  // ---- What preemption is good for ----

  // Some live task was ended, and still no device was found by searching.
  ghost predicate EndedInVain(setup: Setup, b: Books, ask: Ask, env: Env)
    requires |b.timelines| == |setup.devices|
  {
    var (after, choice) := Searched(setup, b, ask, env);
    choice.None? && exists t :: LiveTask(b.registry, t) && !LiveTask(after.registry, t)
  }

  // That happens exactly when no device had a place, one could be taken from lower ranks,
  // and still none that may be used has a place.
  lemma InVainExactlyWhen(setup: Setup, b: Books, ask: Ask, env: Env)
    requires |b.timelines| == |setup.devices|
    ensures EndedInVain(setup, b, ask, env) <==>
              && ask.rank > 0 && !Placeable(setup, b, ask)
              && Victim(setup.devices, b, ask.q, ask.rank, 0).Some?
              && !Placeable(setup, Cleared(setup, b, ask), ask)
  {
    SearchedHow(setup, b, ask, env);
    var v := Victim(setup.devices, b, ask.q, ask.rank, 0);
    if ask.rank > 0 && v.Some? {
      var owners := LiveOwners(Overlapping(b.timelines[v.value], ask.q.start, ask.q.stop), b.registry);
      var t := owners[0];
      assert t in owners && LiveTask(b.registry, t);
      CancelledAllEffect(b, owners, v.value, AnySlot(), t);
      assert !LiveTask(Cleared(setup, b, ask).registry, t);
    }
  }

  // Where slots stand for live tasks, and within the devices' limits, the device that was
  // cleared has a place; so tasks are ended in vain only for the sake of a device that the
  // request, naming another one, may not use.
  lemma InVainOnlyElsewhere(setup: Setup, b: Books, ask: Ask, env: Env)
    requires |b.timelines| == |setup.devices| && SlotsOfLiveTasks(b, ask.q) && ask.q.bw <= ask.q.rate
    requires forall d :: 0 <= d < |setup.devices| ==>
               ask.q.rate >= setup.devices[d].caps.rateMin
               && (Pinned(ask.q, ask.channel) ==> ask.channel < setup.devices[d].caps.maxRx)
    requires EndedInVain(setup, b, ask, env)
    ensures ask.required && ask.wanted != Anything
    ensures ask.wanted != Index(Victim(setup.devices, b, ask.q, ask.rank, 0).value)
  {
    InVainExactlyWhen(setup, b, ask, env);
    VictimHasPlace(setup, b, ask);
  }

  lemma VictimHasPlace(setup: Setup, b: Books, ask: Ask)
    requires |b.timelines| == |setup.devices| && SlotsOfLiveTasks(b, ask.q) && ask.q.bw <= ask.q.rate
    requires forall d :: 0 <= d < |setup.devices| ==>
               ask.q.rate >= setup.devices[d].caps.rateMin
               && (Pinned(ask.q, ask.channel) ==> ask.channel < setup.devices[d].caps.maxRx)
    requires ask.rank > 0 && Victim(setup.devices, b, ask.q, ask.rank, 0).Some?
    ensures var v := Victim(setup.devices, b, ask.q, ask.rank, 0).value;
            HasPlace(setup, Cleared(setup, b, ask), ask, v)
  {
    var v := Victim(setup.devices, b, ask.q, ask.rank, 0).value;
    var owners := LiveOwners(Overlapping(b.timelines[v], ask.q.start, ask.q.stop), b.registry);
    ClearedTimeline(b, owners, v, ask.q);
    assert AcquiredRate(setup.devices[v].caps, ask.q.rate) == Some(ask.q.rate);
    FitOnIdleDevice(CancelledAll(b, owners).timelines[v], ask.q,
                    LimitsOf(setup.devices[v], setup.guardBand), setup.devices[v].sharedLo, ask.channel);
  }
}
