// The streaming down-converter (src/Ddc.cpp:21-94): a phase accumulator, a ring buffer of
// mixed samples and a decimation counter, proved to compute what Convolution defines over
// the whole history. The ghost field past is that history.
module Ddc {
  import opened Basics
  import opened Convolution
  import LowPass

  // ---- Arithmetic of the ring and the counter ----

  lemma RemainderIs(x: int, n: int, q: int, r: int)
    requires n >= 1 && 0 <= r < n && x == q * n + r
    ensures x % n == r && x / n == q
  {
    var q', r' := x / n, x % n;
    assert (q - q') * n == r' - r;
    if q > q' {
      ProductGrows(n, 1, q - q');
    } else if q < q' {
      ProductGrows(n, 1, q' - q);
    }
  }

  // The k-th position before the write index holds the k-th sample before the last.
  lemma RingBack(t: nat, n: int, k: int)
    requires 0 <= k < n
    ensures 0 <= t % n - 1 - k + n * 2
    ensures (t % n - 1 - k + n * 2) % n == (t - 1 - k) % n
  {
    var x := t - 1 - k;
    RemainderIs(t % n - 1 - k + n * 2, n, x / n - t / n + 2, x % n);
  }

  lemma RingNext(t: nat, n: int)
    requires n >= 1
    ensures (t % n + 1) % n == (t + 1) % n
  {
    RemainderIs(t % n + 1, n, (t + 1) / n - t / n, (t + 1) % n);
  }

  // Samples less than a ring apart do not share a place.
  lemma RingDistinct(a: int, b: int, n: int)
    requires n >= 1 && 0 < a - b < n
    ensures a % n != b % n
  {
    if a % n == b % n {
      assert (a / n - b / n) * n == a - b;
      if a / n > b / n {
        ProductGrows(n, 1, a / n - b / n);
      } else {
        ProductGrows(n, a / n - b / n, 0);
      }
    }
  }

  lemma RingCovers(t: int, n: int, p: int) returns (m: int)
    requires 0 <= p < n
    ensures t - n <= m < t && m % n == p
  {
    m := t - 1 - (t - 1 - p) % n;
    RemainderIs(m, n, (t - 1 - p) / n, p);
  }

  // The counter of inputs since the last output, and the number of outputs, step by step.
  function Waiting(t: nat, d: int): nat
    requires d >= 1
  {
    if t == 0 || Waiting(t - 1, d) + 1 >= d then 0 else Waiting(t - 1, d) + 1
  }

  function Made(t: nat, d: int): nat
    requires d >= 1
  {
    if t == 0 then 0 else Made(t - 1, d) + if Waiting(t - 1, d) + 1 >= d then 1 else 0
  }

  // They are the remainder and the quotient.
  lemma {:induction false} CounterDivides(t: nat, d: int)
    requires d >= 1
    ensures Waiting(t, d) == t % d && Made(t, d) == t / d
  {
    if t == 0 {
      RemainderIs(0, d, 0, 0);
    } else {
      CounterDivides(t - 1, d);
      if (t - 1) % d + 1 >= d {
        RemainderIs(t, d, (t - 1) / d + 1, 0);
      } else {
        RemainderIs(t, d, (t - 1) / d, (t - 1) % d + 1);
      }
    }
  }

  // When the counter is back at zero the next output is the convolution at the last sample.
  lemma DueOutput(f: Filter, past: seq<Sample>)
    requires past != [] && Waiting(|past|, Ratio(f)) == 0
    ensures OutputAt(f, past, Made(|past|, Ratio(f)) - 1) == Convolved(f, past, |past| - 1, |f.taps|)
  {
    CounterDivides(|past|, Ratio(f));
    WholeQuotient(|past|, Ratio(f));
  }

  lemma WholeQuotient(x: int, d: int)
    requires d >= 1 && x % d == 0
    ensures (x / d - 1 + 1) * d - 1 == x - 1
  {
  }

  // ---- Interleaved buffers ----

  function SampleAt(buffer: seq<real>, k: nat): Sample
    requires 2 * k + 1 < |buffer|
  {
    Sample(buffer[2 * k], buffer[2 * k + 1])
  }

  function SamplesOf(buffer: seq<real>, n: nat): (r: seq<Sample>)
    requires 2 * n <= |buffer|
    ensures |r| == n && forall k :: 0 <= k < n ==> r[k] == SampleAt(buffer, k)
  {
    seq(n, k requires 0 <= k < n => SampleAt(buffer, k))
  }

  // The first n samples of a buffer are the first n of these.
  ghost predicate SamplesAre(buffer: seq<real>, n: nat, goal: seq<Sample>)
  {
    2 * n <= |buffer| && n <= |goal| && forall j :: 0 <= j < n ==> SampleAt(buffer, j) == goal[j]
  }

  method Put(out: array<real>, k: nat, y: Sample, ghost goal: seq<Sample>)
    requires 2 * k + 1 < out.Length && SamplesAre(out[..], k, goal) && k < |goal| && goal[k] == y
    modifies out
    ensures SamplesAre(out[..], k + 1, goal)
    ensures forall i :: 2 * k + 2 <= i < out.Length ==> out[i] == old(out[i])
  {
    ghost var before := out[..];
    out[k * 2] := y.i;
    out[k * 2 + 1] := y.q;
    forall j | 0 <= j < k + 1
      ensures SampleAt(out[..], j) == goal[j]
    {
      if j < k {
        assert SampleAt(before, j) == goal[j];
      }
    }
  }

  class Ddc {
    const f: Filter
    const hist: array<real>
    var phase: real
    var wr: nat
    var count: nat
    ghost var past: seq<Sample>

    // The place of mixed sample m in the ring holds it.
    ghost predicate Remembers(m: int)
      reads this`past, hist
      requires |f.taps| >= 1 && hist.Length == 2 * |f.taps|
    {
      && hist[2 * (m % |f.taps|)] == MixedAt(f, past, m).i
      && hist[2 * (m % |f.taps|) + 1] == MixedAt(f, past, m).q
    }

    ghost predicate InStep()
      reads this`phase, this`wr, this`past, hist
    {
      && |f.taps| >= 1 && hist.Length == 2 * |f.taps|
      && phase == PhaseAt(|past|, f.inc, f.circle.pi)
      && wr == |past| % |f.taps|
      && forall m :: |past| - |f.taps| <= m < |past| ==> Remembers(m)
    }

    ghost predicate Valid()
      reads this, hist
    {
      InStep() && count == Waiting(|past|, Ratio(f))
    }

    constructor (offset: real, rate: real, decim: int, taps: seq<real>, circle: Circle)
      requires |taps| >= 1
      ensures Valid() && past == [] && fresh(hist)
      ensures f == Filter(taps, decim, if rate > 0.0 then 2.0 * circle.pi * offset / rate else 0.0, circle)
    {
      f := Filter(taps, decim, if rate > 0.0 then 2.0 * circle.pi * offset / rate else 0.0, circle);
      hist := new real[2 * |taps|](_ => 0.0);
      phase, wr, count, past := 0.0, 0, 0, [];
      new;
      RemainderIs(0, |taps|, 0, 0);
    }

    // The constructor of the source: it designs the taps itself. Null stands for taps that
    // are not numbers, and for none at all, with which nothing can be processed.
    static method Make(offset: real, rate: real, decim: int, nTaps: nat, circle: Circle) returns (ddc: Ddc?)
      requires circle.pi > 0.0
      ensures var cutoff := if decim > 1 then 0.45 / decim as real else 0.45;
              var taps := LowPass.Designed(nTaps, cutoff, circle);
              && (ddc == null <==> taps.None? || nTaps == 0)
              && (ddc != null ==>
                    && fresh(ddc) && fresh(ddc.hist) && ddc.Valid() && ddc.past == []
                    && ddc.f.taps == taps.value && |ddc.f.taps| == nTaps && Sum(ddc.f.taps) == 1.0
                    && ddc.f.decim == decim && ddc.f.circle == circle
                    && ddc.f.inc == if rate > 0.0 then 2.0 * circle.pi * offset / rate else 0.0)
    {
      var cutoff := if decim > 1 then 0.45 / decim as real else 0.45;
      var taps := LowPass.DesignLpf(nTaps, cutoff, circle);
      if taps == None || nTaps == 0 {
        return null;
      }
      ddc := new Ddc(offset, rate, decim, taps.value, circle);
    }

    // Mixes one sample, moves the phase on, and writes the ring.
    method Push(x: Sample)
      requires InStep()
      modifies this`phase, this`wr, this`past, hist
      ensures InStep() && past == old(past) + [x]
    {
      ghost var t := |past|;
      var n := |f.taps|;
      var mixed := Mix(x, phase, f.circle);
      phase := phase + f.inc;
      if phase > f.circle.pi {
        phase := phase - 2.0 * f.circle.pi;
      } else if phase < -f.circle.pi {
        phase := phase + 2.0 * f.circle.pi;
      }
      hist[wr * 2] := mixed.i;
      hist[wr * 2 + 1] := mixed.q;
      wr := (wr + 1) % n;
      past := past + [x];
      RingNext(t, n);
      forall m | t + 1 - n <= m < t + 1
        ensures Remembers(m)
      {
        if m < t {
          RingDistinct(t, m, n);
          assert old(Remembers(m));
        }
      }
    }

    // The k-th mixed sample before the last.
    method ReadBack(k: nat) returns (x: Sample)
      requires InStep() && k < |f.taps|
      ensures x == MixedAt(f, past, |past| - 1 - k)
    {
      var n := |f.taps|;
      RingBack(|past|, n, k);
      var pos := (wr - 1 - k + n * 2) % n;
      assert Remembers(|past| - 1 - k);
      x := Sample(hist[pos * 2], hist[pos * 2 + 1]);
    }

    // The taps on the ring, from the most recent sample back.
    method FilterRing() returns (y: Sample)
      requires InStep()
      ensures y == Convolved(f, past, |past| - 1, |f.taps|)
    {
      y := ZERO;
      for k := 0 to |f.taps|
        invariant y == Convolved(f, past, |past| - 1, k)
      {
        var x := ReadBack(k);
        y := Plus(y, Scaled(f.taps[k], x));
      }
    }

    // One sample in, and every decim-th time one out.
    method Step(x: Sample) returns (y: Option<Sample>)
      requires Valid()
      modifies this, hist
      ensures Valid() && past == old(past) + [x]
      ensures Made(|past|, Ratio(f)) == Made(|old(past)|, Ratio(f)) + if y.Some? then 1 else 0
      ensures y == if Waiting(|past|, Ratio(f)) == 0 then Some(Convolved(f, past, |past| - 1, |f.taps|)) else None
    {
      Push(x);
      count := count + 1;
      y := None;
      if count >= f.decim {
        count := 0;
        var z := FilterRing();
        y := Some(z);
      }
    }

    // n samples in, the outputs that are due out. The buffer must have room for them.
    method Process(input: seq<real>, n: nat, out: array<real>) returns (made: nat)
      requires Valid() && 2 * n <= |input| && out != hist
      requires 2 * |Emitted(f, past, SamplesOf(input, n))| <= out.Length
      modifies this, hist, out
      ensures Valid() && past == old(past) + SamplesOf(input, n)
      ensures 2 * made <= out.Length && SamplesOf(out[..], made) == Emitted(f, old(past), SamplesOf(input, n))
      ensures forall k :: 2 * made <= k < out.Length ==> out[k] == old(out[k])
    {
      ghost var goal := Emitted(f, past, SamplesOf(input, n));
      forall i | 0 <= i <= n
        ensures OnTrack(f, past, SamplesOf(input, n), i, goal)
      {
        EmittedOnTrack(f, past, SamplesOf(input, n), i);
      }
      made := StepThrough(input, n, out, SamplesOf(input, n), goal);
    }

    // The loop over the samples.
    method StepThrough(input: seq<real>, n: nat, out: array<real>, ghost block: seq<Sample>, ghost goal: seq<Sample>)
        returns (made: nat)
      requires Valid() && 2 * n <= |input| && out != hist && 2 * |goal| <= out.Length
      requires block == SamplesOf(input, n)
      requires forall i :: 0 <= i <= n ==> OnTrack(f, past, block, i, goal)
      modifies this, hist, out
      ensures Valid() && past == old(past) + block
      ensures made == |goal| && SamplesAre(out[..], made, goal)
      ensures forall k :: 2 * made <= k < out.Length ==> out[k] == old(out[k])
    {
      ghost var before := past;
      made := 0;
      for i := 0 to n
        invariant Valid() && past == before + block[..i]
        invariant Made(|before|, Ratio(f)) + made == Made(|past|, Ratio(f))
        invariant SamplesAre(out[..], made, goal)
        invariant forall k :: 2 * made <= k < out.Length ==> out[k] == old(out[k])
      {
        var y := Step(Sample(input[i * 2], input[i * 2 + 1]));
        assert past == before + block[..i + 1];
        assert OnTrack(f, before, block, i + 1, goal);
        if y.Some? {
          Put(out, made, y.value, goal);
          made := made + 1;
        }
      }
      assert OnTrack(f, before, block, n, goal) && before + block[..n] == before + block;
    }
  }

  // After i samples of a block: no more outputs are out than the block brings, all of them
  // once it is through, and if one is due now it is the next of them.
  ghost predicate OnTrack(f: Filter, before: seq<Sample>, block: seq<Sample>, i: nat, goal: seq<Sample>)
    requires i <= |block|
  {
    var now := before + block[..i];
    var made := Made(|now|, Ratio(f)) - Made(|before|, Ratio(f));
    && 0 <= made <= |goal|
    && (i == |block| ==> made == |goal|)
    && (made > 0 && Waiting(|now|, Ratio(f)) == 0 ==> goal[made - 1] == Convolved(f, now, |now| - 1, |f.taps|))
  }

  lemma EmittedOnTrack(f: Filter, before: seq<Sample>, block: seq<Sample>, i: nat)
    requires i <= |block|
    ensures OnTrack(f, before, block, i, Emitted(f, before, block))
  {
    var now := before + block[..i];
    CounterDivides(|before|, Ratio(f));
    CounterDivides(|now|, Ratio(f));
    OutputsGrow(f, before, block[..i]);
    assert before + block == now + block[i..];
    OutputsGrow(f, now, block[i..]);
    assert i == |block| ==> now == before + block;
    if now != [] && Waiting(|now|, Ratio(f)) == 0 {
      DueOutput(f, now);
    }
  }

  // Nothing but the history matters: two down-converters with the same settings that have
  // seen the same samples, in whatever blocks, are in the same state.
  lemma SameHistorySameState(a: Ddc, b: Ddc)
    requires a.Valid() && b.Valid() && a.f == b.f && a.past == b.past
    ensures a.phase == b.phase && a.wr == b.wr && a.count == b.count && a.hist[..] == b.hist[..]
  {
    var n := |a.f.taps|;
    forall i | 0 <= i < 2 * n
      ensures a.hist[i] == b.hist[i]
    {
      var m := RingCovers(|a.past|, n, i / 2);
      assert a.Remembers(m) && b.Remembers(m);
    }
  }
}
