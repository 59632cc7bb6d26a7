// What the down-converter computes, stated over the whole history of its input: mix every
// sample with the oscillator, convolve with the taps, keep every decim-th result.
module Convolution {
  import opened Basics

  datatype Sample = Sample(i: real, q: real)

  const ZERO := Sample(0.0, 0.0)

  function Plus(a: Sample, b: Sample): Sample
  {
    Sample(a.i + b.i, a.q + b.q)
  }

  function Scaled(k: real, a: Sample): Sample
  {
    Sample(k * a.i, k * a.q)
  }

  // The circular functions, as far as they are known, and half a turn.
  datatype Circle = Circle(cos: real -> real, sin: real -> real, pi: real)

  ghost predicate Periodic(c: Circle)
  {
    forall x :: c.cos(x + 2.0 * c.pi) == c.cos(x) && c.sin(x + 2.0 * c.pi) == c.sin(x)
  }

  ghost predicate Unit(c: Circle)
  {
    forall x :: c.cos(x) * c.cos(x) + c.sin(x) * c.sin(x) == 1.0
  }

  // The settings of one down-converter. A ratio below one acts as one.
  datatype Filter = Filter(taps: seq<real>, decim: int, inc: real, circle: Circle)

  function Ratio(f: Filter): (d: int)
    ensures d >= 1
  {
    Max(f.decim, 1)
  }

  // ---- The oscillator ----

  function Wrap(x: real, pi: real): real
  {
    if x > pi then x - 2.0 * pi else if x < -pi then x + 2.0 * pi else x
  }

  // The phase after n samples.
  function PhaseAt(n: nat, inc: real, pi: real): real
  {
    if n == 0 then 0.0 else Wrap(PhaseAt(n - 1, inc, pi) + inc, pi)
  }

  // n times x, added up.
  function Repeated(x: real, n: int): real
    decreases if n < 0 then -n else n
  {
    if n == 0 then 0.0 else if n > 0 then Repeated(x, n - 1) + x else Repeated(x, n + 1) - x
  }

  lemma OneStep(x: real, a: real, b: real)
    requires b == a + 1.0
    ensures x * b == x * a + x
  {
  }

  lemma {:induction false} RepeatedIsProduct(x: real, n: int)
    ensures Repeated(x, n) == x * n as real
    decreases if n < 0 then -n else n
  {
    if n == 0 {
    } else if n > 0 {
      RepeatedIsProduct(x, n - 1);
      OneStep(x, (n - 1) as real, n as real);
    } else {
      RepeatedIsProduct(x, n + 1);
      OneStep(x, n as real, (n + 1) as real);
    }
  }

  ghost predicate InTurn(x: real, pi: real)
  {
    -pi <= x <= pi
  }

  lemma {:induction false} SmallStepsStayInTurn(n: nat, inc: real, pi: real)
    requires pi > 0.0 && -2.0 * pi <= inc <= 2.0 * pi
    ensures InTurn(PhaseAt(n, inc, pi), pi)
  {
    if n == 0 {
    } else {
      SmallStepsStayInTurn(n - 1, inc, pi);
    }
  }

  // A larger step is not made up for by the one correction per sample.
  lemma {:induction false} LargeStepsDrift(n: nat, inc: real, pi: real)
    requires pi > 0.0 && inc > 2.0 * pi
    ensures PhaseAt(n, inc, pi) == Repeated(inc - 2.0 * pi, n) >= 0.0
  {
    if n == 0 {
    } else {
      LargeStepsDrift(n - 1, inc, pi);
    }
  }

  lemma {:induction false} PhaseIsOdd(n: nat, inc: real, pi: real)
    requires pi > 0.0
    ensures PhaseAt(n, -inc, pi) == -PhaseAt(n, inc, pi)
  {
    if n == 0 {
    } else {
      PhaseIsOdd(n - 1, inc, pi);
    }
  }

  lemma RepeatedExceeds(x: real, bound: real) returns (n: nat)
    requires x > 0.0 && bound > 0.0
    ensures Repeated(x, n) > bound
  {
    n := Ceil(bound / x) + 1;
    RepeatedIsProduct(x, n);
    assert bound / x < n as real;
    assert x * (bound / x) == bound;
    assert x * (n as real - bound / x) > 0.0;
  }

  // The phase stays within half a turn of zero for ever exactly when one step is at most
  // a whole turn.
  lemma PhaseStaysInTurn(inc: real, pi: real)
    requires pi > 0.0
    ensures (forall n: nat :: InTurn(PhaseAt(n, inc, pi), pi)) <==> -2.0 * pi <= inc <= 2.0 * pi
  {
    if -2.0 * pi <= inc <= 2.0 * pi {
      forall n: nat ensures InTurn(PhaseAt(n, inc, pi), pi) {
        SmallStepsStayInTurn(n, inc, pi);
      }
    } else {
      var size := if inc > 0.0 then inc else -inc;
      var n := RepeatedExceeds(size - 2.0 * pi, pi);
      LargeStepsDrift(n, size, pi);
      PhaseIsOdd(n, inc, pi);
      assert !InTurn(PhaseAt(n, inc, pi), pi);
    }
  }

  // How many turns the corrections have taken off.
  function Turns(n: nat, inc: real, pi: real): int
  {
    if n == 0 then 0
    else
      var x := PhaseAt(n - 1, inc, pi) + inc;
      Turns(n - 1, inc, pi) + (if x > pi then 1 else if x < -pi then -1 else 0)
  }

  // The phase differs from n steps by whole turns, whatever the step.
  lemma {:induction false} PhaseCongruent(n: nat, inc: real, pi: real)
    ensures PhaseAt(n, inc, pi) + Repeated(2.0 * pi, Turns(n, inc, pi)) == Repeated(inc, n)
  {
    if n == 0 {
    } else {
      PhaseCongruent(n - 1, inc, pi);
    }
  }

  lemma {:induction false} WholeTurns(c: Circle, x: real, k: int)
    requires Periodic(c)
    ensures c.cos(x + Repeated(2.0 * c.pi, k)) == c.cos(x)
    ensures c.sin(x + Repeated(2.0 * c.pi, k)) == c.sin(x)
    decreases if k < 0 then -k else k
  {
    if k == 0 {
    } else if k > 0 {
      WholeTurns(c, x, k - 1);
      assert x + Repeated(2.0 * c.pi, k) == (x + Repeated(2.0 * c.pi, k - 1)) + 2.0 * c.pi;
    } else {
      WholeTurns(c, x, k + 1);
      assert x + Repeated(2.0 * c.pi, k + 1) == (x + Repeated(2.0 * c.pi, k)) + 2.0 * c.pi;
    }
  }

  // So the oscillator never drifts from the frequency it was set to.
  lemma OscillatorIsExact(c: Circle, n: nat, inc: real)
    requires Periodic(c)
    ensures c.cos(PhaseAt(n, inc, c.pi)) == c.cos(Repeated(inc, n))
    ensures c.sin(PhaseAt(n, inc, c.pi)) == c.sin(Repeated(inc, n))
  {
    PhaseCongruent(n, inc, c.pi);
    WholeTurns(c, PhaseAt(n, inc, c.pi), Turns(n, inc, c.pi));
  }

  // ---- The convolution ----

  // A sample turned back by the angle with this cosine and sine.
  function TurnedBack(x: Sample, cos: real, sin: real): Sample
  {
    Sample(x.i * cos + x.q * sin, -x.i * sin + x.q * cos)
  }

  function Mix(x: Sample, phase: real, c: Circle): Sample
  {
    TurnedBack(x, c.cos(phase), c.sin(phase))
  }

  // The mixed sample at a position; zero before the start.
  function MixedAt(f: Filter, past: seq<Sample>, n: int): Sample
  {
    if 0 <= n < |past| then Mix(past[n], PhaseAt(n, f.inc, f.circle.pi), f.circle) else ZERO
  }

  // All of them.
  function Mixed(f: Filter, past: seq<Sample>): int -> Sample
  {
    (n: int) => MixedAt(f, past, n)
  }

  // The first k taps on a signal, the first on the sample at n, the next on the one before it.
  function Weighted(taps: seq<real>, x: int -> Sample, n: int, k: nat): Sample
    requires k <= |taps|
  {
    if k == 0 then ZERO else Plus(Weighted(taps, x, n, k - 1), Scaled(taps[k - 1], x(n - (k - 1))))
  }

  function Convolved(f: Filter, past: seq<Sample>, n: int, k: nat): Sample
    requires k <= |f.taps|
  {
    Weighted(f.taps, Mixed(f, past), n, k)
  }

  function OutputAt(f: Filter, past: seq<Sample>, j: int): Sample
  {
    Convolved(f, past, (j + 1) * Ratio(f) - 1, |f.taps|)
  }

  // Everything that has come out after some input has gone in.
  function Outputs(f: Filter, past: seq<Sample>): (r: seq<Sample>)
    ensures |r| == |past| / Ratio(f)
  {
    seq(|past| / Ratio(f), j => OutputAt(f, past, j))
  }

  lemma {:induction false} WeightedIsCausal(taps: seq<real>, x: int -> Sample, y: int -> Sample, n: int, k: nat)
    requires k <= |taps| && forall m :: m <= n ==> x(m) == y(m)
    ensures Weighted(taps, x, n, k) == Weighted(taps, y, n, k)
  {
    if k == 0 {
    } else {
      WeightedIsCausal(taps, x, y, n, k - 1);
    }
  }

  lemma ConvolvedIsCausal(f: Filter, past: seq<Sample>, more: seq<Sample>, n: int)
    requires n < |past|
    ensures Convolved(f, past + more, n, |f.taps|) == Convolved(f, past, n, |f.taps|)
  {
    forall m | m <= n
      ensures Mixed(f, past + more)(m) == Mixed(f, past)(m)
    {
    }
    WeightedIsCausal(f.taps, Mixed(f, past + more), Mixed(f, past), n, |f.taps|);
  }

  lemma LastInput(d: int, total: nat, j: int)
    requires d >= 1 && 0 <= j < total / d
    ensures (j + 1) * d - 1 < total
  {
    assert (j + 1) * d <= (total / d) * d <= total;
  }

  lemma MoreOutputs(d: int, a: nat, b: nat)
    requires d >= 1 && a <= b
    ensures a / d <= b / d
  {
    if a / d > b / d {
      ProductGrows(d, b / d + 1, a / d);
      assert false;
    }
  }

  lemma ProductGrows(d: int, a: int, b: int)
    requires d >= 0 && a <= b
    ensures a * d <= b * d
  {
    assert (b - a) * d >= 0;
  }

  // What has come out is not affected by what goes in later.
  lemma OutputsGrow(f: Filter, past: seq<Sample>, more: seq<Sample>)
    ensures |Outputs(f, past)| <= |Outputs(f, past + more)|
    ensures Outputs(f, past + more)[..|Outputs(f, past)|] == Outputs(f, past)
  {
    var d := Ratio(f);
    MoreOutputs(d, |past|, |past + more|);
    forall j | 0 <= j < |past| / d
      ensures OutputAt(f, past + more, j) == OutputAt(f, past, j)
    {
      LastInput(d, |past|, j);
      ConvolvedIsCausal(f, past, more, (j + 1) * d - 1);
    }
  }

  // What one more block of input brings out.
  function Emitted(f: Filter, past: seq<Sample>, block: seq<Sample>): seq<Sample>
  {
    OutputsGrow(f, past, block);
    Outputs(f, past + block)[|Outputs(f, past)|..]
  }

  lemma EmittedIsTheRest(f: Filter, past: seq<Sample>, block: seq<Sample>)
    ensures Outputs(f, past) + Emitted(f, past, block) == Outputs(f, past + block)
  {
    OutputsGrow(f, past, block);
    assert Outputs(f, past + block)
           == Outputs(f, past + block)[..|Outputs(f, past)|] + Outputs(f, past + block)[|Outputs(f, past)|..];
  }

  function Joined(blocks: seq<seq<Sample>>): seq<Sample>
    decreases blocks
  {
    if blocks == [] then [] else blocks[0] + Joined(blocks[1..])
  }

  function EmittedInBlocks(f: Filter, past: seq<Sample>, blocks: seq<seq<Sample>>): seq<Sample>
    decreases blocks
  {
    if blocks == [] then []
    else Emitted(f, past, blocks[0]) + EmittedInBlocks(f, past + blocks[0], blocks[1..])
  }

  // However the input is cut into blocks, the same comes out.
  lemma {:induction false} CuttingDoesNotMatter(f: Filter, past: seq<Sample>, blocks: seq<seq<Sample>>)
    ensures EmittedInBlocks(f, past, blocks) == Emitted(f, past, Joined(blocks))
    decreases blocks
  {
    if blocks == [] {
      assert past + [] == past;
    } else {
      var rest := Joined(blocks[1..]);
      CuttingDoesNotMatter(f, past + blocks[0], blocks[1..]);
      EmittedInTwo(f, past, blocks[0], rest);
    }
  }

  lemma EmittedInTwo(f: Filter, past: seq<Sample>, a: seq<Sample>, b: seq<Sample>)
    ensures Emitted(f, past, a + b) == Emitted(f, past, a) + Emitted(f, past + a, b)
  {
    EmittedIsTheRest(f, past, a);
    EmittedIsTheRest(f, past + a, b);
    EmittedIsTheRest(f, past, a + b);
    assert past + (a + b) == (past + a) + b;
    SamePrefix(Outputs(f, past), Emitted(f, past, a), Emitted(f, past + a, b), Emitted(f, past, a + b));
  }

  lemma SamePrefix(prefix: seq<Sample>, a: seq<Sample>, b: seq<Sample>, c: seq<Sample>)
    requires (prefix + a) + b == prefix + c
    ensures c == a + b
  {
    assert (prefix + a) + b == prefix + (a + b);
    assert (prefix + c)[|prefix|..] == c && (prefix + (a + b))[|prefix|..] == a + b;
  }

  // The caller's buffer, one sample more than the rounded-up share of the block, is large
  // enough for any block at any time.
  lemma DocumentedCapacitySuffices(f: Filter, past: seq<Sample>, block: seq<Sample>)
    ensures |Emitted(f, past, block)| <= (|block| + Ratio(f) - 1) / Ratio(f) + 1
  {
    var d := Ratio(f);
    var up := (|block| + d - 1) / d;
    OutputsGrow(f, past, block);
    assert up * d >= |block|;
    assert (|past| / d + up + 1) * d > |past| + |block|;
    var total := |past| + |block|;
    assert total / d * d <= total;
    assert total / d < |past| / d + up + 1;
  }

  // ---- Response to single samples, and to sums ----

  lemma {:induction false} WeightedImpulse(taps: seq<real>, x: int -> Sample, m: int, n: int, k: nat)
    requires k <= |taps| && forall i :: i != m ==> x(i) == ZERO
    ensures Weighted(taps, x, n, k) == if 0 <= n - m < k then Scaled(taps[n - m], x(m)) else ZERO
  {
    if k == 0 {
    } else {
      WeightedImpulse(taps, x, m, n, k - 1);
    }
  }

  // A single sample that is not zero after mixing comes out once for each tap that meets
  // it: output j has it times the tap that lies as far back as the sample does.
  lemma ImpulseResponse(f: Filter, past: seq<Sample>, m: nat, j: int)
    requires forall i :: i != m ==> MixedAt(f, past, i) == ZERO
    ensures var age := (j + 1) * Ratio(f) - 1 - m;
            OutputAt(f, past, j) == if 0 <= age < |f.taps| then Scaled(f.taps[age], MixedAt(f, past, m)) else ZERO
  {
    WeightedImpulse(f.taps, Mixed(f, past), m, (j + 1) * Ratio(f) - 1, |f.taps|);
  }

  // The samples of the sum of two inputs.
  ghost predicate SumOf(a: seq<Sample>, b: seq<Sample>, total: seq<Sample>)
  {
    |a| == |b| == |total| && forall n :: 0 <= n < |total| ==> total[n] == Plus(a[n], b[n])
  }

  lemma MixedAdds(f: Filter, a: seq<Sample>, b: seq<Sample>, total: seq<Sample>, n: int)
    requires SumOf(a, b, total)
    ensures MixedAt(f, total, n) == Plus(MixedAt(f, a, n), MixedAt(f, b, n))
  {
    if 0 <= n < |total| {
      var phase := PhaseAt(n, f.inc, f.circle.pi);
      TurnedBackAdds(a[n], b[n], f.circle.cos(phase), f.circle.sin(phase));
    }
  }

  lemma TurnedBackAdds(a: Sample, b: Sample, cos: real, sin: real)
    ensures TurnedBack(Plus(a, b), cos, sin) == Plus(TurnedBack(a, cos, sin), TurnedBack(b, cos, sin))
  {
  }

  lemma ScaledAdds(k: real, a: Sample, b: Sample)
    ensures Scaled(k, Plus(a, b)) == Plus(Scaled(k, a), Scaled(k, b))
  {
  }

  lemma {:induction false} WeightedAdds(taps: seq<real>, x: int -> Sample, y: int -> Sample, z: int -> Sample,
                                        n: int, k: nat)
    requires k <= |taps| && forall i :: z(i) == Plus(x(i), y(i))
    ensures Weighted(taps, z, n, k) == Plus(Weighted(taps, x, n, k), Weighted(taps, y, n, k))
  {
    if k == 0 {
    } else {
      WeightedAdds(taps, x, y, z, n, k - 1);
      ScaledAdds(taps[k - 1], x(n - (k - 1)), y(n - (k - 1)));
    }
  }

  // What comes out of a sum of inputs is the sum of what comes out of each. Together with
  // the response to single samples this determines every output.
  lemma OutputsAdd(f: Filter, a: seq<Sample>, b: seq<Sample>, total: seq<Sample>, j: int)
    requires SumOf(a, b, total)
    ensures OutputAt(f, total, j) == Plus(OutputAt(f, a, j), OutputAt(f, b, j))
  {
    forall i
      ensures Mixed(f, total)(i) == Plus(Mixed(f, a)(i), Mixed(f, b)(i))
    {
      MixedAdds(f, a, b, total, i);
    }
    WeightedAdds(f.taps, Mixed(f, a), Mixed(f, b), Mixed(f, total), (j + 1) * Ratio(f) - 1, |f.taps|);
  }

  // ---- What the filter does to a steady signal ----

  function Sum(s: seq<real>): real
  {
    if s == [] then 0.0 else Sum(s[..|s| - 1]) + s[|s| - 1]
  }

  lemma {:induction false} WeightedConstant(taps: seq<real>, x: int -> Sample, n: int, k: nat, c: Sample)
    requires k <= |taps| && forall m :: n - k < m <= n ==> x(m) == c
    ensures Weighted(taps, x, n, k) == Scaled(Sum(taps[..k]), c)
  {
    if k == 0 {
    } else {
      WeightedConstant(taps, x, n, k - 1, c);
      assert taps[..k][..k - 1] == taps[..k - 1];
      Distribute(Sum(taps[..k - 1]), taps[k - 1], c);
    }
  }

  lemma Distribute(a: real, b: real, x: Sample)
    ensures Plus(Scaled(a, x), Scaled(b, x)) == Scaled(a + b, x)
  {
  }

  // A signal that the mixer turns into a constant comes out as that constant, once the
  // taps are full, if the taps add up to one.
  lemma SteadyOutput(f: Filter, past: seq<Sample>, j: int, x: Sample)
    requires Sum(f.taps) == 1.0
    requires |f.taps| <= (j + 1) * Ratio(f) <= |past|
    requires forall m :: 0 <= m < |past| ==> MixedAt(f, past, m) == x
    ensures OutputAt(f, past, j) == x
  {
    WeightedConstant(f.taps, Mixed(f, past), (j + 1) * Ratio(f) - 1, |f.taps|, x);
    assert f.taps[..|f.taps|] == f.taps;
  }

  lemma {:induction false} NoOffsetNoPhase(n: nat, pi: real)
    requires pi > 0.0
    ensures PhaseAt(n, 0.0, pi) == 0.0
  {
    if n == 0 {
    } else {
      NoOffsetNoPhase(n - 1, pi);
    }
  }

  // With no offset, a constant input comes out unchanged.
  lemma ConstantPassesThrough(f: Filter, past: seq<Sample>, j: int, x: Sample)
    requires Sum(f.taps) == 1.0 && f.inc == 0.0 && f.circle.pi > 0.0
    requires f.circle.cos(0.0) == 1.0 && f.circle.sin(0.0) == 0.0
    requires |f.taps| <= (j + 1) * Ratio(f) <= |past|
    requires forall m :: 0 <= m < |past| ==> past[m] == x
    ensures OutputAt(f, past, j) == x
  {
    forall m | 0 <= m < |past| ensures MixedAt(f, past, m) == x {
      NoOffsetNoPhase(m, f.circle.pi);
    }
    SteadyOutput(f, past, j, x);
  }

  // A tone of the frequency the oscillator is set to.
  ghost predicate Tone(past: seq<Sample>, amplitude: real, inc: real, c: Circle)
  {
    forall n :: 0 <= n < |past| ==>
      past[n] == Scaled(amplitude, Sample(c.cos(Repeated(inc, n)), c.sin(Repeated(inc, n))))
  }

  lemma TurnedBackToZero(amplitude: real, cos: real, sin: real)
    requires cos * cos + sin * sin == 1.0
    ensures TurnedBack(Scaled(amplitude, Sample(cos, sin)), cos, sin) == Sample(amplitude, 0.0)
  {
    assert (amplitude * cos) * cos + (amplitude * sin) * sin == amplitude * (cos * cos + sin * sin);
  }

  lemma ToneIsTurnedBack(f: Filter, past: seq<Sample>, m: nat, amplitude: real)
    requires Periodic(f.circle) && Unit(f.circle)
    requires Tone(past, amplitude, f.inc, f.circle) && m < |past|
    ensures MixedAt(f, past, m) == Sample(amplitude, 0.0)
  {
    OscillatorIsExact(f.circle, m, f.inc);
    var phase := Repeated(f.inc, m);
    TurnedBackToZero(amplitude, f.circle.cos(phase), f.circle.sin(phase));
  }

  // It comes out as a constant of the same amplitude.
  lemma ToneBecomesConstant(f: Filter, past: seq<Sample>, j: int, amplitude: real)
    requires Sum(f.taps) == 1.0 && Periodic(f.circle) && Unit(f.circle)
    requires |f.taps| <= (j + 1) * Ratio(f) <= |past|
    requires Tone(past, amplitude, f.inc, f.circle)
    ensures OutputAt(f, past, j) == Sample(amplitude, 0.0)
  {
    forall m | 0 <= m < |past| ensures MixedAt(f, past, m) == Sample(amplitude, 0.0) {
      ToneIsTurnedBack(f, past, m, amplitude);
    }
    SteadyOutput(f, past, j, Sample(amplitude, 0.0));
  }

  // The difference formulas of the circular functions.
  ghost predicate Turning(c: Circle)
  {
    forall x, y :: c.cos(x - y) == c.cos(x) * c.cos(y) + c.sin(x) * c.sin(y)
                   && c.sin(x - y) == c.sin(x) * c.cos(y) - c.cos(x) * c.sin(y)
  }

  function PointAt(amplitude: real, angle: real, c: Circle): Sample
  {
    Scaled(amplitude, Sample(c.cos(angle), c.sin(angle)))
  }

  lemma TurnedBackByAngle(c: Circle, amplitude: real, x: real, y: real)
    requires Turning(c)
    ensures TurnedBack(PointAt(amplitude, x, c), c.cos(y), c.sin(y)) == PointAt(amplitude, x - y, c)
  {
    assert c.cos(x - y) == c.cos(x) * c.cos(y) + c.sin(x) * c.sin(y);
    assert c.sin(x - y) == c.sin(x) * c.cos(y) - c.cos(x) * c.sin(y);
    FactorOut(amplitude, c.cos(x), c.cos(y), c.sin(x), c.sin(y));
    FactorOut(amplitude, c.sin(x), c.cos(y), -c.cos(x), c.sin(y));
  }

  lemma FactorOut(k: real, a: real, b: real, x: real, y: real)
    ensures (k * a) * b + (k * x) * y == k * (a * b + x * y)
  {
  }

  // A sample of any amplitude and angle is turned back by as many steps as came before it:
  // so a tone of any frequency and phase becomes one whose frequency is lower by the offset.
  lemma MixerShifts(f: Filter, past: seq<Sample>, m: nat, amplitude: real, angle: real)
    requires Periodic(f.circle) && Turning(f.circle)
    requires m < |past| && past[m] == PointAt(amplitude, angle, f.circle)
    ensures MixedAt(f, past, m) == PointAt(amplitude, angle - Repeated(f.inc, m), f.circle)
  {
    OscillatorIsExact(f.circle, m, f.inc);
    TurnedBackByAngle(f.circle, amplitude, angle, Repeated(f.inc, m));
  }
}
