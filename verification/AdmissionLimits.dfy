// Where the promises of admission stop: runs of accepted requests on two devices, one of
// them offline, that end where the code meant them not to.
module AdmissionLimits {
  import opened Basics
  import opened Slots
  import opened Fitting
  import opened Combining
  import opened DeviceSelection
  import opened Admission
  import opened Widening
  import opened Grants
  import opened Acceptance
  import opened AdmissionRuns
  import opened Outcomes
  import UdpPortPool

  function TwoDevices(): Setup
  {
    var caps := Caps(0.0, 1000.0, 100.0, 0.0, 100.0, 2, 0);
    Setup([Device(true, true, 0, caps), Device(false, true, 0, caps)], 1.0)
  }

  const PORTS: set<int> := {0, 1, 2}

  function AllTune(): Env
  {
    Env(0, 0, (_: nat) => true)
  }

  function AskFor(q: Request, channel: int, wanted: Wanted, required: bool): Ask
  {
    Ask(q, 0, channel, wanted, required, [])
  }

  // The first task takes 95 to 105 on the device that is online, on n channels.
  function FirstAsk(n: nat): Ask { AskFor(Request(0, 10, 100.0, 10.0, 10.0, n, 0), -1, Anything, false) }

  function FirstChannels(n: nat): seq<nat> { if n == 1 then [0] else [0, 1] }

  function FirstSlot(n: nat): Slot { Slot(7, 0, 10, 100.0, 10.0, 95.0, 105.0, FirstChannels(n), []) }

  // A request of rank zero is accepted by searching alone if only device 0 has a place.
  lemma AcceptedBySearch(b: Books, ask: Ask, t: TaskId, fit: FitResult)
    requires |b.timelines| == 2 && ask.rank == 0 && ask.wanted == Anything && ask.clientPorts == []
    requires Offer(TwoDevices().devices[0], b.timelines[0], ask.q, 1.0, ask.channel) == Some(fit)
    requires fit.Fit? && |b.pool.free| >= ask.q.rxCount + ask.q.txCount
    ensures var (after, grant) := AcceptedOne(TwoDevices(), b, ask, AllTune(), t);
            && grant.Some? && grant.value.device == 0 && grant.value.fit == fit
            && after.timelines == [b.timelines[0] + [TimelineRuns.SlotOf(t, ask.q, fit)], b.timelines[1]]
            && after.registry.Keys == b.registry.Keys + {t}
            && after.pool == UdpPortPool.Draw(b.pool, ask.q.rxCount + ask.q.txCount).0
            && after.registry[t].rank == 0
            && forall u :: u in b.registry && u != t ==> after.registry[u] == b.registry[u]
  {
    var s := SearchFor(TwoDevices(), b, ask, 0);
    assert OfferOf(s, 1) == None;
    assert Offers(s, 0) && forall d: nat :: Offers(s, d) ==> d == 0;
    BestDevice(s, Some((0, fit)), BestOf(s));
    assert Chosen(TwoDevices(), b, ask, AllTune()) == (b, Some((0, fit)));
    var grant := AcceptedOne(TwoDevices(), b, ask, AllTune(), t).1.value;
    Entering(b.(pool := UdpPortPool.Draw(b.pool, ask.q.rxCount + ask.q.txCount).0), t, ask.q, ask.rank, grant);
  }

  lemma Entering(b: Books, t: TaskId, q: Request, rank: int, grant: Grant)
    requires |b.timelines| == 2 && grant.device == 0 && grant.fit.Fit?
    ensures var after := Entered(b, t, q, rank, [grant]);
            && after.timelines == [b.timelines[0] + [TimelineRuns.SlotOf(t, q, grant.fit)], b.timelines[1]]
            && after.registry.Keys == b.registry.Keys + {t} && after.pool == b.pool
            && after.registry[t].rank == rank
            && forall u :: u in b.registry && u != t ==> after.registry[u] == b.registry[u]
  {
    var entered := b.timelines[0 := b.timelines[0] + [TimelineRuns.SlotOf(t, q, grant.fit)]];
    assert [grant][1..] == [];
    assert Inserted(entered, [], t, q) == entered;
    assert Inserted(b.timelines, [grant], t, q) == entered;
    assert entered == [b.timelines[0] + [TimelineRuns.SlotOf(t, q, grant.fit)], b.timelines[1]];
  }

  lemma FirstOffer(n: nat)
    requires 1 <= n <= 2
    ensures Offer(TwoDevices().devices[0], [], FirstAsk(n).q, 1.0, -1)
         == Some(Fit(100.0, 10.0, 95.0, 105.0, FirstChannels(n), []))
  {
    var q := FirstAsk(n).q;
    var lim := LimitsOf(TwoDevices().devices[0], 1.0);
    assert AcquiredRate(TwoDevices().devices[0].caps, 10.0) == Some(10.0);
    assert q.(rate := 10.0) == q;
    assert Overlapping([], 0, 10) == [];
    IdleChannels(q, lim);
    assert Placement([], q, lim) == Some(95.0);
  }

  lemma IdleChannels(q: Request, lim: Limits)
    requires 1 <= q.rxCount <= 2 && q.txCount == 0 && lim.maxRx == 2
    ensures SharedChannels([], q, lim, -1) == Some((FirstChannels(q.rxCount), []))
  {
    assert RxLists([]) == [] && TxLists([]) == [] && Channels.Taken(RxLists([])) == {};
    assert Channels.LowestFree(0, 2, {}, 1) == [0] + Channels.LowestFree(1, 2, {}, 0) == [0];
    assert Channels.LowestFree(1, 2, {}, 1) == [1] + Channels.LowestFree(2, 2, {}, 0) == [1];
    assert Channels.LowestFree(0, 2, {}, 2) == [0] + Channels.LowestFree(1, 2, {}, 1) == [0, 1];
    assert Channels.LowestFree(0, lim.maxTx, Channels.Taken(TxLists([])), 0) == [];
  }

  lemma FirstAccepted(b0: Books, n: nat)
    requires 1 <= n <= 2 && b0.timelines == [[], []] && b0.registry == map[]
    requires b0.pool.free !! b0.pool.used && |b0.pool.free| == 3
    ensures var b := AcceptedOne(TwoDevices(), b0, FirstAsk(n), AllTune(), 7).0;
            && b.timelines == [[FirstSlot(n)], []] && |b.pool.free| == 3 - n
            && b.registry.Keys == {7} && b.registry[7].rank == 0
  {
    FirstOffer(n);
    AcceptedBySearch(b0, FirstAsk(n), 7, Fit(100.0, 10.0, 95.0, 105.0, FirstChannels(n), []));
    assert [] + [FirstSlot(n)] == [FirstSlot(n)];
    DrawnSize(b0.pool, n);
  }

  lemma FirstLeavesNothing(b0: Books, n: nat)
    requires 1 <= n <= 2 && b0.timelines == [[], []]
    ensures !LeavesPorts(TwoDevices(), b0, FirstAsk(n), AllTune())
  {
    FirstOffer(n);
    assert HasPlace(TwoDevices(), b0, FirstAsk(n), 0);
    assert Placeable(TwoDevices(), b0, FirstAsk(n));
  }

  // After the first request.
  lemma OneTask(n: nat) returns (b: Books)
    requires 1 <= n <= 2
    ensures b == Run(TwoDevices(), PORTS, [AcceptOne(FirstAsk(n), AllTune(), 7)])
    ensures b.timelines == [[FirstSlot(n)], []] && |b.pool.free| == 3 - n
    ensures b.registry.Keys == {7} && b.registry[7].rank == 0
    ensures Agree(b, PORTS) && NoLeak(b)
  {
    var op := AcceptOne(FirstAsk(n), AllTune(), 7);
    var b0 := Run(TwoDevices(), PORTS, []);
    assert [op][..0] == [];
    assert b0.timelines == [[], []];
    b := Run(TwoDevices(), PORTS, [op]);
    FirstAccepted(b0, n);
    FirstLeavesNothing(b0, n);
    assert AllLeaveNothing(TwoDevices(), PORTS, []) && LeavesNothing(TwoDevices(), b0, op);
    assert AllLeaveNothing(TwoDevices(), PORTS, [op]);
    RunAgrees(TwoDevices(), PORTS, [op]);
  }

  lemma DrawnSize(pool: UdpPortPool.Ports, n: nat)
    requires pool.free !! pool.used && |pool.free| >= n
    ensures |UdpPortPool.Draw(pool, n).0.free| == |pool.free| - n
  {
    UdpPortPool.DrawMovesPorts(pool, n);
    var out := UdpPortPool.Lowest(pool.free, n);
    ElementsSize(out);
    SizeOfRest(pool.free, Elements(out));
  }

  lemma SizeOfRest<T>(a: set<T>, b: set<T>)
    requires b <= a
    ensures |a - b| == |a| - |b|
  {
    assert a == (a - b) + b;
  }

  // A request of rank zero that no search can place is accepted by sharing device 0.
  lemma AcceptedByJoining(b: Books, ask: Ask, t: TaskId, seat: Seat)
    requires |b.timelines| == 2 && ask.rank == 0 && ask.clientPorts == []
    requires BestOf(SearchFor(TwoDevices(), b, ask, 0)) == None
    requires seat == SeatOn(TwoDevices().devices[0], b.timelines[0], b.registry, ask.q, 0, 1.0, ask.channel)
    requires seat != NoSeat && seat.fit.Fit? && |b.pool.free| >= ask.q.rxCount + ask.q.txCount
    ensures var (after, grant) := AcceptedOne(TwoDevices(), b, ask, AllTune(), t);
            && grant.Some? && grant.value.device == 0 && grant.value.fit == seat.fit
            && |grant.value.ports| == Min(|seat.fit.rx| + |seat.fit.tx|, ask.q.rxCount + ask.q.txCount)
            && after.timelines
               == [Seated(b.timelines[0], seat) + [TimelineRuns.SlotOf(t, ask.q, seat.fit)], b.timelines[1]]
  {
    var setup, env := TwoDevices(), AllTune();
    var joined := b.(timelines := b.timelines[0 := Seated(b.timelines[0], seat)]);
    assert Searched(setup, b, ask, env) == (b, None);
    assert CanJoin(setup.devices, b, ask.q, 0, 1.0, ask.channel, env.tunes, 0);
    assert Chosen(setup, b, ask, env) == (joined, Some((0, seat.fit)));
    var (pool, ports) := PortsFor(b.pool, ask.q, []);
    PortsCount(b.pool, ask.q, []);
    Entering(joined.(pool := pool), t, ask.q, 0, GrantFor((0, seat.fit), ports.value));
  }

  // ---- A required device that is missed ----

  // The second request requires the offline device, and is put on the other one, where it
  // shares the channel of the first.
  function RequiringAsk(): Ask { AskFor(Request(0, 10, 100.0, 4.0, 10.0, 1, 0), 0, Index(1), true) }

  lemma OneOverlaps(n: nat)
    ensures Overlapping([FirstSlot(n)], 0, 10) == [FirstSlot(n)]
  {
    assert [FirstSlot(n)][..0] == [];
    assert Overlapping([FirstSlot(n)][..0], 0, 10) == [];
  }

  lemma SharedSeat(registry: map<TaskId, Record>)
    requires registry.Keys == {7} && registry[7].rank == 0
    ensures SeatOn(TwoDevices().devices[0], [FirstSlot(1)], registry, RequiringAsk().q, 0, 1.0, 0)
         == Subscribe(Fit(100.0, 10.0, 98.0, 102.0, [0], []))
  {
    var over := [FirstSlot(1)];
    OneOverlaps(1);
    assert SameCf(over, 100.0) && FirstSlot(1) in over && InUse(over, 0);
    assert RankAllows(over, registry, 0);
  }

  lemma RequiredDeviceMissed()
    ensures var setup := TwoDevices();
            var b := Run(setup, PORTS, [AcceptOne(FirstAsk(1), AllTune(), 7)]);
            var grant := AcceptedOne(setup, b, RequiringAsk(), AllTune(), 9).1;
            && RequiringAsk().required && RequiringAsk().wanted == Index(1) && !setup.devices[1].online
            && Agree(b, PORTS) && grant.Some? && grant.value.device == 0
  {
    var b := OneTask(1);
    RequiredSearch(TwoDevices(), b, RequiringAsk(), 0, 1);
    SharedSeat(b.registry);
    AcceptedByJoining(b, RequiringAsk(), 9, Subscribe(Fit(100.0, 10.0, 98.0, 102.0, [0], [])));
  }

  // ---- Ports that nobody holds ----

  // The second request wants two channels at another frequency. The device is widened, but
  // has only one channel to share; the port drawn for the second is recorded nowhere.
  function WideAsk(): Ask { AskFor(Request(0, 10, 110.0, 4.0, 10.0, 2, 0), -1, Anything, false) }

  lemma NoPlaceAt110(b: Books, ask: Ask, n: nat)
    requires |b.timelines| == 2 && b.timelines[0] != [] && b.timelines[0][0] == FirstSlot(n)
    requires ask.q.start == 0 && ask.q.stop == 10 && ask.q.cf == 110.0
    requires Overlapping(b.timelines[0], 0, 10) == [FirstSlot(n)]
    ensures BestOf(SearchFor(TwoDevices(), b, ask, 0)) == None
  {
    var s := SearchFor(TwoDevices(), b, ask, 0);
    assert OfferOf(s, 0) == None && OfferOf(s, 1) == None;
    assert forall d: nat :: !Offers(s, d);
  }

  lemma EdgesAt110(n: nat)
    ensures LowEdge([FirstSlot(n)], 108.0) == 95.0 && HighEdge([FirstSlot(n)], 112.0) == 112.0
  {
    assert [FirstSlot(n)][..0] == [];
    assert LowEdge([], 108.0) == 108.0 && HighEdge([], 112.0) == 112.0;
  }

  lemma WidenedSeat(slots: seq<Slot>, registry: map<TaskId, Record>, n: nat, q: Request)
    requires Overlapping(slots, 0, 10) == [FirstSlot(n)]
    requires q == Request(0, 10, 110.0, 4.0, 10.0, q.rxCount, q.txCount) && q.rxCount <= 2
    requires CollectAll([], [FirstSlot(n)], q.rxCount) == FirstChannels(n)
    requires 7 in registry && registry[7].rank == 0
    ensures SeatOn(TwoDevices().devices[0], slots, registry, q, 0, 1.0, -1)
         == Widen(Fit(103.5, 19.0, 108.0, 112.0, FirstChannels(n), []), true)
  {
    var over := [FirstSlot(n)];
    assert FirstSlot(n) in over && !SameCf(over, 110.0);
    assert RankAllows(over, registry, 0);
    EdgesAt110(n);
  }

  lemma CollectsFirst(n: nat, count: nat)
    requires n == 1 || (n == 2 && count == 0)
    ensures CollectAll([], [FirstSlot(n)], count) == FirstChannels(n)
  {
    var over := [FirstSlot(n)];
    if n == 1 {
      assert Collect([], [0], count) == [0];
    } else {
      assert [0, 1][1..] == [1] && [1][1..] == [];
      assert Collect([0, 1], [], 0) == [0, 1];
      assert Collect([0], [1], 0) == Collect([0] + [1], [], 0) == [0, 1];
      assert Collect([], [0, 1], 0) == Collect([] + [0], [1], 0) == [0, 1];
    }
    assert over[1..] == [];
  }

  lemma SecondLeaks(b: Books)
    requires b.timelines == [[FirstSlot(1)], []] && b.registry.Keys == {7} && b.registry[7].rank == 0
    requires |b.pool.free| == 2 && Agree(b, PORTS) && NoLeak(b)
    ensures !NoLeak(AcceptedOne(TwoDevices(), b, WideAsk(), AllTune(), 9).0)
  {
    OneOverlaps(1);
    NoPlaceAt110(b, WideAsk(), 1);
    CollectsFirst(1, 2);
    WidenedSeat([FirstSlot(1)], b.registry, 1, WideAsk().q);
    AcceptedByJoining(b, WideAsk(), 9, Widen(Fit(103.5, 19.0, 108.0, 112.0, [0], []), true));
    LeavesPortsExactlyWhen(TwoDevices(), b, WideAsk(), AllTune(), 9);
    AcceptOneKeeps(TwoDevices(), b, WideAsk(), AllTune(), 9, PORTS);
  }

  lemma UnrecordedPort()
    ensures var ops := [AcceptOne(FirstAsk(1), AllTune(), 7), AcceptOne(WideAsk(), AllTune(), 9)];
            (forall op :: op in ops ==> OwnPorts(op, PORTS)) && !NoLeak(Run(TwoDevices(), PORTS, ops))
  {
    var first, second := AcceptOne(FirstAsk(1), AllTune(), 7), AcceptOne(WideAsk(), AllTune(), 9);
    var b := OneTask(1);
    SecondLeaks(b);
    TwoSteps(first, second);
  }

  lemma TwoSteps(a: Op, b: Op)
    ensures Run(TwoDevices(), PORTS, [a, b]) == Apply(TwoDevices(), Run(TwoDevices(), PORTS, [a]), b)
  {
    assert [a, b][..1] == [a];
  }

  // ---- Channels that nobody asked for ----

  // A request for one TX channel and no RX channel. The device that is online cannot
  // transmit, but is shared: the request is given both RX channels of the first task, and
  // one port for the two.
  function TransmitAsk(): Ask { AskFor(Request(0, 10, 110.0, 4.0, 10.0, 0, 1), -1, Anything, false) }

  lemma TransmitGetsReceivers()
    ensures var setup := TwoDevices();
            var b := Run(setup, PORTS, [AcceptOne(FirstAsk(2), AllTune(), 7)]);
            var grant := AcceptedOne(setup, b, TransmitAsk(), AllTune(), 9).1;
            && setup.devices[0].caps.maxTx == 0 && Agree(b, PORTS)
            && grant.Some? && grant.value.device == 0 && grant.value.fit.Fit?
            && grant.value.fit.rx == [0, 1] && grant.value.fit.tx == [] && |grant.value.ports| == 1
  {
    var b := OneTask(2);
    OneOverlaps(2);
    NoPlaceAt110(b, TransmitAsk(), 2);
    CollectsFirst(2, 0);
    WidenedSeat([FirstSlot(2)], b.registry, 2, TransmitAsk().q);
    AcceptedByJoining(b, TransmitAsk(), 9, Widen(Fit(103.5, 19.0, 108.0, 112.0, [0, 1], []), true));
  }

  // ---- A channel in use that is passed over ----

  // Two requests for one channel at another frequency, each naming one of the two that the
  // first task uses. Only the first channel in use is on offer; the other is refused.
  function NamingAsk(channel: int): Ask
  {
    AskFor(Request(0, 10, 110.0, 4.0, 10.0, 1, 0), channel, Anything, false)
  }

  lemma SeatForNamed(registry: map<TaskId, Record>, channel: int)
    requires 7 in registry && registry[7].rank == 0 && 0 <= channel <= 1
    ensures SeatOn(TwoDevices().devices[0], [FirstSlot(2)], registry, NamingAsk(channel).q, 0, 1.0, channel)
         == if channel == 0 then Widen(Fit(103.5, 19.0, 108.0, 112.0, [0], []), true) else NoSeat
  {
    var over := [FirstSlot(2)];
    OneOverlaps(2);
    assert FirstSlot(2) in over && !SameCf(over, 110.0);
    assert RankAllows(over, registry, 0);
    assert over[..0] == [];
    EdgesAt110(2);
    assert Collect([], [0, 1], 1) == [0];
    assert CollectAll([], over, 1) == [0];
  }

  lemma NamedIsRefused(b: Books)
    requires b.timelines == [[FirstSlot(2)], []] && 7 in b.registry && b.registry[7].rank == 0
    ensures AcceptedOne(TwoDevices(), b, NamingAsk(1), AllTune(), 9).1 == None
  {
    OneOverlaps(2);
    SeatForNamed(b.registry, 1);
    NoPlaceAt110(b, NamingAsk(1), 2);
    assert !CanJoin(TwoDevices().devices, b, NamingAsk(1).q, 0, 1.0, 1, AllTune().tunes, 0);
    assert !CanJoin(TwoDevices().devices, b, NamingAsk(1).q, 0, 1.0, 1, AllTune().tunes, 1);
  }

  lemma NamedChannelPassedOver()
    ensures var setup := TwoDevices();
            var b := Run(setup, PORTS, [AcceptOne(FirstAsk(2), AllTune(), 7)]);
            && InUse(b.timelines[0], 0) && InUse(b.timelines[0], 1)
            && AcceptedOne(setup, b, NamingAsk(0), AllTune(), 9).1.Some?
            && AcceptedOne(setup, b, NamingAsk(1), AllTune(), 9).1 == None
  {
    var b := OneTask(2);
    assert FirstSlot(2) in b.timelines[0] && 0 in FirstSlot(2).rx && 1 in FirstSlot(2).rx;
    OneOverlaps(2);
    SeatForNamed(b.registry, 0);
    NoPlaceAt110(b, NamingAsk(0), 2);
    AcceptedByJoining(b, NamingAsk(0), 9, Widen(Fit(103.5, 19.0, 108.0, 112.0, [0], []), true));
    NamedIsRefused(b);
  }

  // ---- A task that is ended for nothing ----

  // A request of higher rank requires the offline device. The first task is cancelled on
  // the other one, which the request may not use; it is turned down all the same.
  function VainAsk(): Ask { AskFor(FirstAsk(1).q, -1, Index(1), true).(rank := 1) }

  lemma NothingToJoin(b: Books, ask: Ask)
    requires |b.timelines| == 2 && Overlapping(b.timelines[0], ask.q.start, ask.q.stop) == []
    ensures forall i: nat :: i < 2 ==> !Joinable(TwoDevices(), b, ask, AllTune(), i)
  {
    assert !Joinable(TwoDevices(), b, ask, AllTune(), 0);
  }

  // The first device can be taken from the first task, and is then empty.
  lemma FirstIsVictim(b: Books)
    requires b.timelines == [[FirstSlot(1)], []] && LiveTask(b.registry, 7) && b.registry[7].rank == 0
    ensures Victim(TwoDevices().devices, b, VainAsk().q, 1, 0) == Some(0)
  {
    OneOverlaps(1);
    assert FirstSlot(1) in Overlapping(b.timelines[0], 0, 10);
    assert 7 in LiveOwners(Overlapping(b.timelines[0], 0, 10), b.registry);
    assert Preemptable(TwoDevices().devices[0], b.timelines[0], b.registry, VainAsk().q, 1);
  }

  lemma FirstIsTaken(b: Books)
    requires b.timelines == [[FirstSlot(1)], []] && b.registry.Keys == {7} && b.registry[7].rank == 0
    requires Agree(b, PORTS)
    ensures var cleared := Cleared(TwoDevices(), b, VainAsk());
            && LiveTask(b.registry, 7) && Victim(TwoDevices().devices, b, VainAsk().q, 1, 0) == Some(0)
            && cleared.registry.Keys == {7} && !cleared.registry[7].live
            && Overlapping(cleared.timelines[0], 0, 10) == []
  {
    assert FirstSlot(1) in b.timelines[0];
    assert HasSlot(b.timelines[0], 7) <==> OnDevice(b.registry, 7, 0);
    FirstIsVictim(b);
    var owners := LiveOwners(Overlapping(b.timelines[0], 0, 10), b.registry);
    OneOverlaps(1);
    assert FirstSlot(1) in [FirstSlot(1)];
    assert 7 in owners;
    CancelledAllEffect(b, owners, 0, FirstSlot(1), 7);
    AgreeingSlots(b, VainAsk().q, PORTS);
    ClearedTimeline(b, owners, 0, VainAsk().q);
  }

  lemma EndedForNothing()
    ensures var setup := TwoDevices();
            var b := Run(setup, PORTS, [AcceptOne(FirstAsk(1), AllTune(), 7)]);
            var (after, grant) := AcceptedOne(setup, b, VainAsk(), AllTune(), 9);
            && LiveTask(b.registry, 7) && EndedInVain(setup, b, VainAsk(), AllTune())
            && grant == None && after.registry.Keys == {7} && !after.registry[7].live
  {
    var b := OneTask(1);
    FirstIsTaken(b);
    RefusedInVain(b);
  }

  lemma RefusedInVain(b: Books)
    requires |b.timelines| == 2
    requires Victim(TwoDevices().devices, b, VainAsk().q, 1, 0) == Some(0)
    requires Overlapping(Cleared(TwoDevices(), b, VainAsk()).timelines[0], 0, 10) == []
    ensures EndedInVain(TwoDevices(), b, VainAsk(), AllTune())
    ensures var (after, grant) := AcceptedOne(TwoDevices(), b, VainAsk(), AllTune(), 9);
            grant == None && after.registry == Cleared(TwoDevices(), b, VainAsk()).registry
  {
    var setup, ask := TwoDevices(), VainAsk();
    var cleared := Cleared(setup, b, ask);
    assert !Placeable(setup, b, ask) && !Placeable(setup, cleared, ask);
    InVainExactlyWhen(setup, b, ask, AllTune());
    NothingToJoin(cleared, ask);
    SearchedHow(setup, b, ask, AllTune());
    JoinedHow(setup, b, ask, AllTune());
  }

  // ---- A slot that is left outside its window ----

  // A task booked for later at 50, then a request now at 110: the device is widened around
  // 103.5, and the later slot is left below the window it then stores.
  function LaterAsk(): Ask { AskFor(Request(20, 30, 50.0, 10.0, 10.0, 1, 0), -1, Anything, false) }

  function LaterSlot(): Slot { Slot(8, 20, 30, 50.0, 10.0, 45.0, 55.0, [0], []) }

  function NowAsk(): Ask { AskFor(Request(0, 10, 110.0, 4.0, 10.0, 1, 0), -1, Anything, false) }

  lemma LaterOffer()
    ensures Offer(TwoDevices().devices[0], [FirstSlot(1)], LaterAsk().q, 1.0, -1)
         == Some(Fit(50.0, 10.0, 45.0, 55.0, [0], []))
  {
    var q := LaterAsk().q;
    var lim := LimitsOf(TwoDevices().devices[0], 1.0);
    assert q.(rate := 10.0) == q;
    assert [FirstSlot(1)][..0] == [];
    assert Overlapping([FirstSlot(1)], 20, 30) == [];
    IdleChannels(q, lim);
    assert Placement([], q, lim) == Some(45.0);
  }

  lemma TwoTasks() returns (b: Books)
    ensures b == Run(TwoDevices(), PORTS, [AcceptOne(FirstAsk(1), AllTune(), 7), AcceptOne(LaterAsk(), AllTune(), 8)])
    ensures b.timelines == [[FirstSlot(1), LaterSlot()], []] && |b.pool.free| == 1
    ensures b.registry.Keys == {7, 8} && b.registry[7].rank == 0
  {
    var b1 := OneTask(1);
    TwoSteps(AcceptOne(FirstAsk(1), AllTune(), 7), AcceptOne(LaterAsk(), AllTune(), 8));
    LaterOffer();
    AcceptedBySearch(b1, LaterAsk(), 8, Fit(50.0, 10.0, 45.0, 55.0, [0], []));
    DrawnSize(b1.pool, 1);
    assert [FirstSlot(1)] + [LaterSlot()] == [FirstSlot(1), LaterSlot()];
    b := Run(TwoDevices(), PORTS, [AcceptOne(FirstAsk(1), AllTune(), 7), AcceptOne(LaterAsk(), AllTune(), 8)]);
  }

  lemma LaterDoesNotOverlap()
    ensures Overlapping([FirstSlot(1), LaterSlot()], 0, 10) == [FirstSlot(1)]
  {
    OneOverlaps(1);
    assert [FirstSlot(1), LaterSlot()][..1] == [FirstSlot(1)];
  }

  // What the third request does to the timeline.
  lemma ThirdJoins(b: Books)
    requires b.timelines == [[FirstSlot(1), LaterSlot()], []] && |b.pool.free| == 1
    requires 7 in b.registry && b.registry[7].rank == 0
    ensures var after := AcceptedOne(TwoDevices(), b, NowAsk(), AllTune(), 9).0;
            |after.timelines[0]| == 3 && after.timelines[0][1] == LaterSlot().(cf := 103.5, rate := 19.0)
  {
    var slots := [FirstSlot(1), LaterSlot()];
    LaterDoesNotOverlap();
    NoPlaceAt110(b, NowAsk(), 1);
    CollectsFirst(1, 1);
    WidenedSeat(slots, b.registry, 1, NowAsk().q);
    var seat := Widen(Fit(103.5, 19.0, 108.0, 112.0, [0], []), true);
    AcceptedByJoining(b, NowAsk(), 9, seat);
    assert Seated(slots, seat)[1] == LaterSlot().(cf := 103.5, rate := 19.0);
  }

  lemma LaterSlotStranded()
    ensures var ops := [AcceptOne(FirstAsk(1), AllTune(), 7), AcceptOne(LaterAsk(), AllTune(), 8),
                        AcceptOne(NowAsk(), AllTune(), 9)];
            var b := Run(TwoDevices(), PORTS, ops);
            exists s :: s in b.timelines[0] && s.task == 8 && s.lo < WindowLo(s.cf, s.rate)
  {
    var first, later, now := AcceptOne(FirstAsk(1), AllTune(), 7), AcceptOne(LaterAsk(), AllTune(), 8),
                             AcceptOne(NowAsk(), AllTune(), 9);
    var b := TwoTasks();
    ThirdJoins(b);
    ThreeSteps(first, later, now);
    var s := Run(TwoDevices(), PORTS, [first, later, now]).timelines[0][1];
    assert s.lo < WindowLo(s.cf, s.rate);
  }

  lemma ThreeSteps(a: Op, b: Op, c: Op)
    ensures Run(TwoDevices(), PORTS, [a, b, c]) == Apply(TwoDevices(), Run(TwoDevices(), PORTS, [a, b]), c)
  {
    var ops := [a, b, c];
    assert ops != [] && |ops| - 1 == 2 && ops[2] == c;
    assert ops[..2] == [a, b];
  }
}
