// The single-device path of doAcceptStandard (src/ResourceManager.cpp:440-563).
module Acceptance {
  import opened Basics
  import opened Slots
  import opened Fitting
  import opened TimelineRuns
  import opened DeviceSelection
  import opened Admission
  import opened Widening
  import opened Grants
  import UdpPortPool

  datatype Setup = Setup(devices: seq<Device>, guardBand: real)

  // A request for one device. clientPorts are the ports the client has bound itself.
  datatype Ask = Ask(q: Request, rank: int, channel: int, wanted: Wanted, required: bool, clientPorts: seq<int>)

  // What the surroundings contribute: the clock at each search, and which devices can be
  // tuned.
  datatype Env = Env(now: int, later: int, tunes: nat -> bool)

  type Choice = Option<(nat, FitResult)>

  function SearchFor(setup: Setup, b: Books, ask: Ask, now: int): Search
  {
    Search(setup.devices, b.timelines, setup.guardBand, ask.q, ask.channel, ask.wanted, ask.required, now)
  }

  // Search; failing that, make room by preemption and search again.
  ghost function Searched(setup: Setup, b: Books, ask: Ask, env: Env): (r: (Books, Choice))
    requires |b.timelines| == |setup.devices|
    ensures |r.0.timelines| == |b.timelines|
    ensures r.1.Some? ==> r.1.value.0 < |setup.devices| && r.1.value.1.Fit?
  {
    var first := BestOf(SearchFor(setup, b, ask, env.now));
    if first.Some? || ask.rank <= 0 then (b, first)
    else
      var (cleared, done) := Preempted(setup.devices, b, ask.q, ask.rank);
      (cleared, if done then BestOf(SearchFor(setup, cleared, ask, env.later)) else None)
  }

  // Failing that too, share a device.
  ghost function Chosen(setup: Setup, b: Books, ask: Ask, env: Env): (r: (Books, Choice))
    requires |b.timelines| == |setup.devices|
    ensures |r.0.timelines| == |b.timelines|
    ensures r.1.Some? ==> r.1.value.0 < |setup.devices| && r.1.value.1.Fit?
  {
    var (after, choice) := Searched(setup, b, ask, env);
    if choice.Some? then (after, choice)
    else Joined(setup.devices, after, ask.q, ask.rank, setup.guardBand, ask.channel, env.tunes, 0)
  }

  function PortsNeeded(q: Request, clientPorts: seq<int>): nat
  {
    Max(0, q.rxCount + q.txCount - |clientPorts|)
  }

  // Some ports, topped up from the pool; None when the pool has not got that many.
  ghost function ToppedUp(pool: UdpPortPool.Ports, need: nat, ports: seq<int>):
      (r: (UdpPortPool.Ports, Option<seq<int>>))
    ensures r.1.None? ==> r.0 == pool
  {
    var (after, extra) := UdpPortPool.Draw(pool, need);
    if |pool.free| < need then (pool, None) else (after, Some(ports + extra))
  }

  // The client's ports first, then as many from the pool as are missing.
  ghost function PortsFor(pool: UdpPortPool.Ports, q: Request, clientPorts: seq<int>):
      (r: (UdpPortPool.Ports, Option<seq<int>>))
    ensures r.1.None? ==> r.0 == pool
  {
    ToppedUp(pool, PortsNeeded(q, clientPorts), clientPorts)
  }

  lemma NothingMissing(pool: UdpPortPool.Ports, ports: seq<int>)
    ensures ToppedUp(pool, 0, ports) == (pool, Some(ports))
  {
    UdpPortPool.DrawNothing(pool);
    assert ports + [] == ports;
  }

  // One port per channel, RX before TX, of those there are.
  function GrantFor(choice: (nat, FitResult), ports: seq<int>): Grant
    requires choice.1.Fit?
  {
    Grant(choice.0, choice.1, ports[..Min(|choice.1.rx| + |choice.1.tx|, |ports|)])
  }

  ghost function AcceptedOne(setup: Setup, b: Books, ask: Ask, env: Env, t: TaskId): (r: (Books, Option<Grant>))
    requires |b.timelines| == |setup.devices|
    ensures |r.0.timelines| == |b.timelines|
  {
    var (ready, choice) := Chosen(setup, b, ask, env);
    if choice.None? then (ready, None)
    else
      var (pool, ports) := PortsFor(ready.pool, ask.q, ask.clientPorts);
      if ports.None? then (ready, None)
      else
        var grant := GrantFor(choice.value, ports.value);
        (Entered(ready.(pool := pool), t, ask.q, ask.rank, [grant]), Some(grant))
  }

  // ---- What a single accept promises ----

  // The fit has the channels that were asked for.
  predicate AsAsked(ask: Ask, fit: FitResult)
    requires fit.Fit?
  {
    |fit.rx| == ask.q.rxCount && |fit.tx| == ask.q.txCount
  }

  // The fit has as many channels as were asked for, of whatever kind, or the client brought
  // that many ports. Then every drawn port is written into the task's record; otherwise
  // some drawn ports are recorded nowhere.
  predicate PortsRecorded(ask: Ask, fit: FitResult)
    requires fit.Fit?
  {
    |ask.clientPorts| >= ask.q.rxCount + ask.q.txCount || |fit.rx| + |fit.tx| >= ask.q.rxCount + ask.q.txCount
  }

  ghost function Drawn(b: Books, ask: Ask): set<int>
  {
    Elements(UdpPortPool.Draw(b.pool, PortsNeeded(ask.q, ask.clientPorts)).1)
  }

  lemma DrawnPortsAreRecorded(b: Books, ask: Ask, choice: (nat, FitResult))
    requires b.pool.free !! b.pool.used && choice.1.Fit?
    requires PortsFor(b.pool, ask.q, ask.clientPorts).1.Some?
    requires Elements(ask.clientPorts) !! b.pool.free
    ensures var recorded := Elements(GrantFor(choice, PortsFor(b.pool, ask.q, ask.clientPorts).1.value).ports);
            && recorded <= Elements(ask.clientPorts) + Drawn(b, ask)
            && (Drawn(b, ask) <= recorded <==> PortsRecorded(ask, choice.1))
  {
    var need := PortsNeeded(ask.q, ask.clientPorts);
    UdpPortPool.DrawMovesPorts(b.pool, need);
    var extra := UdpPortPool.Draw(b.pool, need).1;
    PrefixRecords(ask.clientPorts, extra, Min(|choice.1.rx| + |choice.1.tx|, |ask.clientPorts + extra|));
  }

  // A prefix of a and b together holds all of b only if it is the whole.
  lemma PrefixRecords(a: seq<int>, b: seq<int>, n: nat)
    requires NoDuplicates(b) && Elements(a) !! Elements(b) && n <= |a| + |b|
    ensures Elements((a + b)[..n]) <= Elements(a) + Elements(b)
    ensures Elements(b) <= Elements((a + b)[..n]) <==> b == [] || n == |a| + |b|
  {
    ElementsConcat(a, b);
    assert (a + b)[..|a| + |b|] == a + b;
    if b != [] && n < |a| + |b| {
      LastIsNotEarlier(a, b, n);
    }
  }

  lemma LastIsNotEarlier(a: seq<int>, b: seq<int>, n: nat)
    requires b != [] && NoDuplicates(b) && Elements(a) !! Elements(b) && n < |a| + |b|
    ensures b[|b| - 1] in Elements(b) && b[|b| - 1] !in Elements((a + b)[..n])
  {
    var last := b[|b| - 1];
    assert last in b;
    forall i | 0 <= i < n
      ensures (a + b)[i] != last
    {
      if i < |a| {
        assert a[i] in Elements(a);
      } else {
        assert (a + b)[i] == b[i - |a|];
      }
    }
  }

  // A device that is found by searching gives the channels asked for.
  lemma OfferServes(s: Search, d: nat)
    requires |s.timelines| == |s.devices| && Offers(s, d)
    ensures var fit := OfferOf(s, d).value;
            fit.Fit? && |fit.rx| == s.q.rxCount && |fit.tx| == s.q.txCount
  {
    var rate := AcquiredRate(s.devices[d].caps, s.q.rate).value;
    FitChannels(s.timelines[d], s.q.(rate := rate), LimitsOf(s.devices[d], s.guardBand),
                s.devices[d].sharedLo, s.channel);
  }

  // ---- Required devices ----

  // The books after making room for the request, as far as its rank allows.
  ghost function Cleared(setup: Setup, b: Books, ask: Ask): (c: Books)
    requires |b.timelines| == |setup.devices|
    ensures |c.timelines| == |b.timelines|
  {
    if ask.rank > 0 then Preempted(setup.devices, b, ask.q, ask.rank).0 else b
  }

  // Has the device a place for the request?
  ghost predicate HasPlace(setup: Setup, b: Books, ask: Ask, d: nat)
    requires |b.timelines| == |setup.devices| && d < |setup.devices|
  {
    Offer(setup.devices[d], b.timelines[d], ask.q, setup.guardBand, ask.channel).Some?
  }

  ghost predicate Joinable(setup: Setup, b: Books, ask: Ask, env: Env, i: nat)
    requires |b.timelines| == |setup.devices| && i < |setup.devices|
  {
    CanJoin(setup.devices, b, ask.q, ask.rank, setup.guardBand, ask.channel, env.tunes, i)
  }

  // With a required device, a search that finds nothing means that it has no place.
  lemma RequiredSearch(setup: Setup, b: Books, ask: Ask, now: int, d: nat)
    requires |b.timelines| == |setup.devices| && d < |setup.devices|
    requires ask.required && ask.wanted == Index(d)
    ensures BestOf(SearchFor(setup, b, ask, now)).Some? <==> HasPlace(setup, b, ask, d)
    ensures BestOf(SearchFor(setup, b, ask, now)).Some? ==> BestOf(SearchFor(setup, b, ask, now)).value.0 == d
  {
    var s := SearchFor(setup, b, ask, now);
    assert forall e: nat :: Offers(s, e) ==> e == d;
    assert Offers(s, d) <==> HasPlace(setup, b, ask, d);
  }

  // An accepted request that names a required device is on it exactly when the device had
  // a place for it, or has one once room was made, or is then the first device that can be
  // joined. Each of these can be told from the books before the request.
  lemma RequiredDeviceHonoured(setup: Setup, b: Books, ask: Ask, env: Env, t: TaskId, d: nat)
    requires |b.timelines| == |setup.devices| && d < |setup.devices|
    requires ask.required && ask.wanted == Index(d) && AcceptedOne(setup, b, ask, env, t).1.Some?
    ensures var cleared := Cleared(setup, b, ask);
            AcceptedOne(setup, b, ask, env, t).1.value.device == d <==>
              || HasPlace(setup, b, ask, d)
              || HasPlace(setup, cleared, ask, d)
              || (Joinable(setup, cleared, ask, env, d)
                  && forall j: nat :: j < d ==> !Joinable(setup, cleared, ask, env, j))
  {
    var cleared := Cleared(setup, b, ask);
    RequiredSearch(setup, b, ask, env.now, d);
    RequiredSearch(setup, cleared, ask, env.later, d);
    var (after, choice) := Searched(setup, b, ask, env);
    if choice.None? {
      assert after == cleared;
      JoinsFirst(setup.devices, after, ask.q, ask.rank, setup.guardBand, ask.channel, env.tunes, 0);
      assert Joinable(setup, after, ask, env, Chosen(setup, b, ask, env).1.value.0);
    }
  }
}
