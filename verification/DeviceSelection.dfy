// Choosing a device for a request (src/ResourceManager.cpp:136-217) and the rate it is
// acquired at and delivered with (195-204, 508-511, 1308-1492; src/IQStreamer.cpp:118).
module DeviceSelection {
  import opened Basics
  import opened Slots
  import opened Fitting
  import IQStreamer
  import Placing

  datatype Caps = Caps(
    freqMin: real, freqMax: real, bwMax: real,
    rateMin: real, rateMax: real,
    maxRx: nat, maxTx: nat)

  datatype Device = Device(online: bool, sharedLo: bool, group: nat, caps: Caps)

  const MAX_DECIMATION := 1_000_000

  // ---- The rate a device is acquired at ----

  // k times the rate.
  function Times(rate: real, k: int): real
  {
    rate * k as real
  }

  // Below the device's floor the request is acquired at a multiple of its rate.
  function AcquiredRate(caps: Caps, rate: real): Option<real>
  {
    if caps.rateMin > 0.0 && rate > 0.0 && rate < caps.rateMin then
      var multiple := Ceil(caps.rateMin / rate);
      if multiple > MAX_DECIMATION then None
      else
        var acquired := Times(rate, Max(1, multiple));
        if caps.rateMax > 0.0 && acquired > caps.rateMax then None else Some(acquired)
    else Some(rate)
  }

  ghost predicate LeastMultiple(k: int, rate: real, floor: real)
  {
    k >= 1 && Times(rate, k) >= floor && forall j :: j >= 1 && Times(rate, j) >= floor ==> k <= j
  }

  lemma MulMono(rate: real, a: real, b: real)
    requires rate > 0.0
    ensures a <= b <==> rate * a <= rate * b
  {
    if a <= b {
      assert rate * (b - a) >= 0.0;
    } else {
      assert rate * (a - b) > 0.0;
    }
  }

  lemma CeilIsLeast(rate: real, floor: real)
    requires 0.0 < rate < floor
    ensures Ceil(floor / rate) >= 1 && LeastMultiple(Ceil(floor / rate), rate, floor)
  {
    var k := Ceil(floor / rate);
    assert rate * (floor / rate) == floor;
    MulMono(rate, floor / rate, k as real);
    MulMono(rate, floor / rate, 0.0);
    forall j | j >= 1 && Times(rate, j) >= floor
      ensures k <= j
    {
      MulMono(rate, floor / rate, j as real);
    }
  }

  // The acquired rate is the least multiple of the request that reaches the device's floor,
  // never above its maximum; a request is turned down for its rate exactly when that
  // multiple is out of reach.
  ghost predicate LeastInReach(caps: Caps, requested: real, rate: Option<real>)
  {
    match rate
    case Some(acquired) =>
      && acquired <= caps.rateMax
      && exists k :: k <= MAX_DECIMATION && acquired == Times(requested, k) && LeastMultiple(k, requested, caps.rateMin)
    case None =>
      exists k :: LeastMultiple(k, requested, caps.rateMin)
                  && (k > MAX_DECIMATION || Times(requested, k) > caps.rateMax)
  }

  lemma AcquiredAtLeastMultiple(caps: Caps, rate: real)
    requires 0.0 < rate <= caps.rateMax
    ensures LeastInReach(caps, rate, AcquiredRate(caps, rate))
  {
    if caps.rateMin > 0.0 && rate < caps.rateMin {
      CeilIsLeast(rate, caps.rateMin);
      var k := Ceil(caps.rateMin / rate);
      assert LeastMultiple(k, rate, caps.rateMin);
    } else {
      assert Times(rate, 1) == rate;
      assert LeastMultiple(1, rate, caps.rateMin);
    }
  }

  // That determines it.
  lemma LeastInReachIsUnique(caps: Caps, requested: real, a: Option<real>, b: Option<real>)
    requires 0.0 < requested && LeastInReach(caps, requested, a) && LeastInReach(caps, requested, b)
    ensures a == b
  {
    forall k, j | LeastMultiple(k, requested, caps.rateMin) && LeastMultiple(j, requested, caps.rateMin)
      ensures k == j
    {
    }
  }

  // ---- The rate the client gets ----

  // How a task comes by its stream: on a device where each channel has its own oscillator;
  // as the first task on a channel of a device where they share one; or from streams that
  // run there already, at the given rate.
  datatype Source = OwnLo | FirstOnShared | Borrowed(wide: real)

  // doAcceptStandard notes the requested rate if the acquired one differs by more than 1 Hz.
  predicate Noted(acquired: real, requested: real)
  {
    Abs(acquired - requested) > 1.0
  }

  // A borrowed stream is decimated for one channel, when its rate is within 0.1% of a
  // multiple of the task's, and is otherwise passed on as it is.
  predicate Decimates(wide: real, output: real, rxCount: nat)
    requires output > 0.0
  {
    var decimation := Round(wide / output);
    && rxCount == 1 && wide > 0.0 && Abs(output - wide) > 1.0
    && decimation >= 2 && Abs(wide / output - decimation as real) / decimation as real < 0.001
  }

  // The rate of the samples that the client is sent.
  function DeliveredRate(source: Source, rxCount: nat, acquired: real, requested: real): real
    requires acquired > 0.0 && requested > 0.0
  {
    match source
    case OwnLo =>
      if Noted(acquired, requested) then acquired / IQStreamer.Decimation(acquired, requested) as real else acquired
    case FirstOnShared => acquired
    case Borrowed(wide) =>
      var output := if Noted(acquired, requested) then requested else acquired;
      if Decimates(wide, output, rxCount) then wide / IQStreamer.Decimation(wide, output) as real else wide
  }

  lemma DecimationOfMultiple(rate: real, k: int)
    requires rate > 0.0 && k >= 1
    ensures IQStreamer.Decimation(Times(rate, k), rate) == k
    ensures Times(rate, k) / k as real == rate
  {
    assert Times(rate, k) / rate == k as real;
    assert (k as real + 0.5).Floor == k;
  }

  // Is a stream at a multiple of the task's rate brought down to it?
  predicate BroughtDown(source: Source, rxCount: nat)
  {
    source.OwnLo? || (source.Borrowed? && rxCount == 1)
  }

  lemma NotedExactlyWhen(rate: real, k: int)
    requires rate > 0.0 && k >= 1
    ensures Noted(Times(rate, k), rate) <==> Times(rate, k - 1) > 1.0
    ensures Times(rate, k) == rate <==> k == 1
    ensures Times(rate, k - 1) > 1.0 ==> k >= 2
  {
    assert Times(rate, k) - rate == Times(rate, k - 1);
    MulMono(rate, 0.0, (k - 1) as real);
    if k > 1 {
      MulMono(rate, (k - 1) as real, 0.0);
    }
  }

  lemma MultipleIsDecimated(rate: real, k: int, rxCount: nat)
    requires rate > 0.0 && k >= 1 && Times(rate, k) > 0.0
    ensures Decimates(Times(rate, k), rate, rxCount) <==> rxCount == 1 && Times(rate, k - 1) > 1.0
  {
    NotedExactlyWhen(rate, k);
    assert Times(rate, k) / rate == k as real;
    assert Round(k as real) == k;
    assert Abs(rate - Times(rate, k)) == Abs(Times(rate, k) - rate);
    if k >= 2 {
      assert Abs(k as real - k as real) / k as real == 0.0;
    }
  }

  // Acquired at a multiple of its rate, and borrowing at no other, the client gets the rate
  // it asked for exactly when the multiple is one, or exceeds the request by more than 1 Hz
  // and the stream is one that is brought down.
  lemma DeliveredAsRequested(source: Source, rxCount: nat, rate: real, k: int)
    requires rate > 0.0 && k >= 1 && Times(rate, k) > 0.0
    requires source.Borrowed? ==> source.wide == Times(rate, k)
    ensures DeliveredRate(source, rxCount, Times(rate, k), rate) == rate <==>
            k == 1 || (Times(rate, k - 1) > 1.0 && BroughtDown(source, rxCount))
  {
    var acquired := Times(rate, k);
    DecimationOfMultiple(rate, k);
    NotedExactlyWhen(rate, k);
    MultipleIsDecimated(rate, k, rxCount);
    assert !Decimates(acquired, acquired, rxCount);
    match source
    case OwnLo =>
    case FirstOnShared =>
    case Borrowed(wide) =>
  }

  lemma MultipleIsPositive(rate: real, k: int)
    requires rate > 0.0 && k >= 1
    ensures Times(rate, k) > 0.0
  {
    MulMono(rate, k as real, 0.0);
  }

  // Above 1 Hz, then, it gets that rate exactly when the device need not be run faster, or
  // the stream is one that is brought down.
  lemma DeliveredAboveOneHertz(source: Source, rxCount: nat, caps: Caps, rate: real)
    requires 1.0 < rate <= caps.rateMax && AcquiredRate(caps, rate).Some?
    requires source.Borrowed? ==> source.wide == AcquiredRate(caps, rate).value
    ensures var acquired := AcquiredRate(caps, rate).value;
            acquired > 0.0
            && (DeliveredRate(source, rxCount, acquired, rate) == rate <==>
                  rate >= caps.rateMin || BroughtDown(source, rxCount))
  {
    AcquiredAtLeastMultiple(caps, rate);
    var k :| AcquiredRate(caps, rate).value == Times(rate, k) && LeastMultiple(k, rate, caps.rateMin);
    MultipleIsPositive(rate, k);
    DeliveredAsRequested(source, rxCount, rate, k);
    assert Times(rate, 1) == rate;
    if k > 1 {
      MulMono(rate, 1.0, (k - 1) as real);
    }
  }

  // A borrowed stream may run at any rate, once it was widened. A task whose rate was noted
  // then gets what it asked for exactly when the stream runs at that rate, or the task has
  // one channel and the stream runs at a multiple more than 1 Hz above it.
  lemma BorrowedAsRequested(wide: real, rxCount: nat, acquired: real, rate: real)
    requires wide > 0.0 && acquired > 0.0 && rate > 0.0 && Noted(acquired, rate)
    ensures DeliveredRate(Borrowed(wide), rxCount, acquired, rate) == rate <==>
              || wide == rate
              || (rxCount == 1 && wide > rate + 1.0 && exists k :: k >= 2 && wide == Times(rate, k))
  {
    if k :| k >= 2 && wide == Times(rate, k) {
      DecimationOfMultiple(rate, k);
    }
    if Decimates(wide, rate, rxCount) {
      DividesExactlyWhen(wide, rate, Round(wide / rate));
    }
  }

  // What a borrower is sent, whatever the two rates: let k be the whole ratio nearest to
  // theirs. The stream is decimated by k if it is for one channel, k is at least two, the
  // ratio is within a thousandth of k, and the rates are more than 1 Hz apart.
  lemma BorrowedIsSent(wide: real, rxCount: nat, acquired: real, rate: real, k: int)
    requires wide > 0.0 && acquired > 0.0 && rate > 0.0
    requires var output := if acquired - rate > 1.0 || rate - acquired > 1.0 then rate else acquired;
             k as real - 0.5 <= wide / output < k as real + 0.5
    ensures var output := if acquired - rate > 1.0 || rate - acquired > 1.0 then rate else acquired;
            DeliveredRate(Borrowed(wide), rxCount, acquired, rate) ==
              if rxCount == 1 && k >= 2 && (output - wide > 1.0 || wide - output > 1.0)
                 && k as real - k as real / 1000.0 < wide / output < k as real + k as real / 1000.0
              then wide / k as real else wide
  {
    var output := if acquired - rate > 1.0 || rate - acquired > 1.0 then rate else acquired;
    assert wide / output > 0.0;
    assert Round(wide / output) == k;
    if k >= 2 {
      WithinThousandth(wide / output, k as real);
    }
  }

  lemma WithinThousandth(x: real, k: real)
    requires k > 0.0
    ensures Abs(x - k) / k < 0.001 <==> k - k / 1000.0 < x < k + k / 1000.0
  {
    assert Abs(x - k) / k * k == Abs(x - k);
    MulMono(k, 0.001, Abs(x - k) / k);
  }

  lemma DividesExactlyWhen(wide: real, rate: real, k: int)
    requires rate > 0.0 && k >= 2
    ensures wide / k as real == rate <==> wide == Times(rate, k)
    ensures wide == Times(rate, k) ==> wide > rate
  {
    MulMono(rate, k as real, 1.0);
  }

  // A device that cannot run below 225 001 samples a second, whose channels share an
  // oscillator, is run at 250 000 for the first task that asks for 25 000, and that is
  // what the client gets.
  lemma FirstBelowFloor(rxCount: nat)
    ensures var caps := Caps(0.0, 1_700_000_000.0, 2_400_000.0, 225_001.0, 3_200_000.0, 1, 0);
            && AcquiredRate(caps, 25_000.0) == Some(250_000.0)
            && DeliveredRate(FirstOnShared, rxCount, 250_000.0, 25_000.0) == 250_000.0
            && DeliveredRate(OwnLo, rxCount, 250_000.0, 25_000.0) == 25_000.0
  {
    assert Ceil(225_001.0 / 25_000.0) == 10;
    assert Times(25_000.0, 10) == 250_000.0;
    DecimationOfMultiple(25_000.0, 10);
  }

  // ---- What one device offers ----

  predicate Capable(dev: Device, q: Request)
  {
    && dev.online
    && dev.caps.freqMin <= q.cf <= dev.caps.freqMax
    && q.bw <= dev.caps.bwMax && q.rate <= dev.caps.rateMax
    && q.rxCount <= dev.caps.maxRx && q.txCount <= dev.caps.maxTx
  }

  function LimitsOf(dev: Device, guardBand: real): Limits
  {
    Limits(dev.caps.maxRx, dev.caps.maxTx, guardBand)
  }

  function Offer(dev: Device, slots: seq<Slot>, q: Request, guardBand: real, channel: int): Option<FitResult>
  {
    var rate := AcquiredRate(dev.caps, q.rate);
    if !Capable(dev, q) || rate.None? then None
    else
      var fit := FitFor(slots, q.(rate := rate.value), LimitsOf(dev, guardBand), dev.sharedLo, channel);
      if fit.Fit? then Some(fit) else None
  }

  // A device has an offer exactly when it is online, the request is within its ranges, it
  // can be acquired at the rate or the least multiple that reaches its floor, and at that
  // rate the request fits on its timeline.
  lemma OfferExactlyWhen(dev: Device, slots: seq<Slot>, q: Request, guardBand: real, channel: int)
    requires q.rate > 0.0
    ensures Offer(dev, slots, q, guardBand, channel).Some? <==>
              && dev.online
              && dev.caps.freqMin <= q.cf <= dev.caps.freqMax
              && q.bw <= dev.caps.bwMax && q.rate <= dev.caps.rateMax
              && q.rxCount <= dev.caps.maxRx && q.txCount <= dev.caps.maxTx
              && exists rate :: LeastInReach(dev.caps, q.rate, Some(rate))
                   && Placing.Fits(slots, q.(rate := rate), Limits(dev.caps.maxRx, dev.caps.maxTx, guardBand),
                                   dev.sharedLo, channel)
  {
    if q.rate <= dev.caps.rateMax {
      var rate := AcquiredRate(dev.caps, q.rate);
      AcquiredAtLeastMultiple(dev.caps, q.rate);
      forall r | LeastInReach(dev.caps, q.rate, Some(r))
        ensures rate == Some(r)
      {
        LeastInReachIsUnique(dev.caps, q.rate, rate, Some(r));
      }
      if rate.Some? {
        Placing.FitsExactlyWhen(slots, q.(rate := rate.value), LimitsOf(dev, guardBand), dev.sharedLo, channel);
      }
    }
  }

  // And it then offers what the fit gives at that rate.
  lemma OfferGives(dev: Device, slots: seq<Slot>, q: Request, guardBand: real, channel: int, rate: real)
    requires q.rate > 0.0 && Offer(dev, slots, q, guardBand, channel).Some?
    requires LeastInReach(dev.caps, q.rate, Some(rate))
    ensures var fit := Offer(dev, slots, q, guardBand, channel).value;
            fit.Fit? && Placing.Given(slots, q.(rate := rate), Limits(dev.caps.maxRx, dev.caps.maxTx, guardBand),
                                      dev.sharedLo, channel, fit)
  {
    AcquiredAtLeastMultiple(dev.caps, q.rate);
    LeastInReachIsUnique(dev.caps, q.rate, AcquiredRate(dev.caps, q.rate), Some(rate));
    Placing.FitExactly(slots, q.(rate := rate), LimitsOf(dev, guardBand), dev.sharedLo, channel);
  }

  // What a device offers, it can do: it is online, the tuning, the slice and the rate it is
  // acquired at are within its range, and so are the channels, as many as asked for.
  lemma OfferWithinCapabilities(dev: Device, slots: seq<Slot>, q: Request, guardBand: real, channel: int)
    requires Offer(dev, slots, q, guardBand, channel).Some? && q.rate > 0.0 && guardBand >= 0.0
    ensures var fit := Offer(dev, slots, q, guardBand, channel).value;
            && dev.online && fit.Fit?
            && dev.caps.freqMin <= fit.cf <= dev.caps.freqMax
            && fit.hi - fit.lo == q.bw <= dev.caps.bwMax
            && dev.caps.rateMin <= fit.rate <= dev.caps.rateMax
            && |fit.rx| == q.rxCount && (forall c :: c in fit.rx ==> c < dev.caps.maxRx)
            && |fit.tx| == q.txCount && (forall c :: c in fit.tx ==> c < dev.caps.maxTx)
  {
    AcquiredAtLeastMultiple(dev.caps, q.rate);
    var q' := q.(rate := AcquiredRate(dev.caps, q.rate).value);
    FitChannels(slots, q', LimitsOf(dev, guardBand), dev.sharedLo, channel);
    FitSlice(slots, q', LimitsOf(dev, guardBand), dev.sharedLo, channel);
  }

  // ---- The order devices are tried in ----

  // `preferred` is the index of the preferred device, or -1. Devices are sorted by the
  // bandwidth allocated on them, the preferred one first.
  predicate Earlier(alloc: seq<real>, preferred: int, a: nat, b: nat)
    requires a < |alloc| && b < |alloc|
  {
    a != b && (a == preferred || (b != preferred && (alloc[a] < alloc[b] || (alloc[a] == alloc[b] && a < b))))
  }

  ghost predicate InOrder(alloc: seq<real>, preferred: int, order: seq<nat>)
  {
    && (forall i :: 0 <= i < |order| ==> order[i] < |alloc|)
    && (forall i, j :: 0 <= i < j < |order| ==> Earlier(alloc, preferred, order[i], order[j]))
  }

  // Stable insertion: after everything that does not sort after d.
  method InsertByFree(alloc: seq<real>, preferred: int, order: seq<nat>, d: nat) returns (r: seq<nat>)
    requires InOrder(alloc, preferred, order) && d < |alloc| && d !in order
    requires d != preferred ==> forall e :: e in order && e != preferred ==> e < d
    ensures InOrder(alloc, preferred, r)
    ensures forall e :: e in r <==> e in order || e == d
  {
    var i := |order|;
    while i > 0 && (d == preferred || (order[i - 1] != preferred && alloc[d] < alloc[order[i - 1]]))
      invariant 0 <= i <= |order|
      invariant forall j :: i <= j < |order| ==> Earlier(alloc, preferred, d, order[j])
    {
      i := i - 1;
    }
    r := order[..i] + [d] + order[i..];
    forall j | 0 <= j < i
      ensures Earlier(alloc, preferred, order[j], d)
    {
      assert order[j] in order && order[i - 1] in order;
      assert Earlier(alloc, preferred, order[i - 1], d);
    }
    assert forall e :: e in order <==> e in order[..i] || e in order[i..];
  }

  method SortByFree(alloc: seq<real>, preferred: int) returns (order: seq<nat>)
    ensures InOrder(alloc, preferred, order)
    ensures forall e: nat :: e in order <==> e < |alloc|
  {
    order := [];
    for d := 0 to |alloc|
      invariant InOrder(alloc, preferred, order)
      invariant forall e: nat :: e in order <==> e < d
    {
      order := InsertByFree(alloc, preferred, order, d);
    }
  }
}
