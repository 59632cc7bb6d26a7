// The taps of the down-converter (src/Ddc.cpp:21-37): a windowed sinc, scaled so that the
// taps add up to one.
module LowPass {
  import opened Basics
  import opened Convolution

  function Sinc(x: real, cutoff: real, c: Circle): real
    requires c.pi > 0.0
  {
    if x == 0.0 then 2.0 * cutoff else c.sin(2.0 * c.pi * cutoff * x) / (c.pi * x)
  }

  // The i-th of m equal parts of a turn.
  function Angle(i: int, m: int, c: Circle): real
    requires m > 0
  {
    2.0 * c.pi * i as real / m as real
  }

  function Window(i: int, m: int, c: Circle): real
    requires m > 0
  {
    0.54 - 0.46 * c.cos(Angle(i, m, c))
  }

  // The i-th tap of m + 1, before scaling.
  function RawTap(i: int, m: int, cutoff: real, c: Circle): real
    requires c.pi > 0.0 && m > 0
  {
    Sinc(i as real - m as real / 2.0, cutoff, c) * Window(i, m, c)
  }

  function RawTaps(n: nat, cutoff: real, c: Circle): (r: seq<real>)
    requires c.pi > 0.0 && n >= 2
    ensures |r| == n && forall i :: 0 <= i < n ==> r[i] == RawTap(i, n - 1, cutoff, c)
  {
    seq(n, i => RawTap(i, n - 1, cutoff, c))
  }

  ghost predicate Circular(c: Circle)
  {
    && c.pi > 0.0 && Periodic(c)
    && forall x :: c.sin(-x) == -c.sin(x) && c.cos(-x) == c.cos(x)
  }

  ghost predicate Symmetric(taps: seq<real>)
  {
    forall i :: 0 <= i < |taps| ==> taps[i] == taps[|taps| - 1 - i]
  }

  lemma SincIsEven(x: real, cutoff: real, c: Circle)
    requires Circular(c)
    ensures Sinc(-x, cutoff, c) == Sinc(x, cutoff, c)
  {
    if x != 0.0 {
      var a := 2.0 * c.pi * cutoff * x;
      assert 2.0 * c.pi * cutoff * -x == -a;
      NegatedQuotient(c.sin(a), c.pi * x);
      assert c.pi * -x == -(c.pi * x);
    }
  }

  lemma NegatedQuotient(a: real, b: real)
    requires b != 0.0
    ensures -a / -b == a / b
  {
  }

  lemma WindowIsEven(i: int, m: int, c: Circle)
    requires Circular(c) && m > 0
    ensures Window(m - i, m, c) == Window(i, m, c)
  {
    AngleOfRest(i, m, c);
    RestOfTurn(c, Angle(i, m, c), Angle(m - i, m, c));
  }

  lemma RestOfTurn(c: Circle, x: real, y: real)
    requires Circular(c) && y == -x + 2.0 * c.pi
    ensures c.cos(y) == c.cos(x)
  {
    assert c.cos(-x + 2.0 * c.pi) == c.cos(-x);
  }

  lemma AngleOfRest(i: int, m: int, c: Circle)
    requires m > 0
    ensures Angle(m - i, m, c) == -Angle(i, m, c) + 2.0 * c.pi
  {
    PartOfRest(2.0 * c.pi, i as real, m as real);
  }

  lemma PartOfRest(a: real, x: real, y: real)
    requires y != 0.0
    ensures a * (y - x) / y == -(a * x / y) + a
  {
    assert a * (y - x) == a * y - a * x;
  }

  lemma RawTapIsEven(i: int, m: int, cutoff: real, c: Circle)
    requires Circular(c) && m > 0
    ensures RawTap(m - i, m, cutoff, c) == RawTap(i, m, cutoff, c)
  {
    var x := i as real - m as real / 2.0;
    SincIsEven(x, cutoff, c);
    assert (m - i) as real - m as real / 2.0 == -x;
    WindowIsEven(i, m, c);
  }

  lemma RawTapsAreSymmetric(n: nat, cutoff: real, c: Circle)
    requires Circular(c) && n >= 2
    ensures Symmetric(RawTaps(n, cutoff, c))
  {
    var raw := RawTaps(n, cutoff, c);
    forall i | 0 <= i < |raw|
      ensures raw[i] == raw[|raw| - 1 - i]
    {
      RawTapIsEven(i, n - 1, cutoff, c);
    }
  }

  function Divided(s: seq<real>, total: real): (r: seq<real>)
    requires total != 0.0
    ensures |r| == |s| && forall i :: 0 <= i < |s| ==> r[i] == s[i] / total
  {
    seq(|s|, i requires 0 <= i < |s| => s[i] / total)
  }

  lemma {:induction false} DividedSum(s: seq<real>, total: real)
    requires total != 0.0
    ensures Sum(Divided(s, total)) == Sum(s) / total
  {
    if s == [] {
    } else {
      var n := |s| - 1;
      DividedSum(s[..n], total);
      assert Divided(s, total)[..n] == Divided(s[..n], total);
      SumOfQuotients(Sum(s[..n]), s[n], total);
    }
  }

  lemma SumOfQuotients(a: real, b: real, total: real)
    requires total != 0.0
    ensures a / total + b / total == (a + b) / total
  {
  }

  method FillTaps(n: nat, cutoff: real, c: Circle) returns (raw: seq<real>, sum: real)
    requires c.pi > 0.0 && n >= 2
    ensures raw == RawTaps(n, cutoff, c) && sum == Sum(raw)
  {
    raw, sum := [], 0.0;
    for i := 0 to n
      invariant raw == RawTaps(n, cutoff, c)[..i] && sum == Sum(raw)
    {
      var tap := RawTap(i, n - 1, cutoff, c);
      assert (raw + [tap])[..|raw|] == raw;
      raw := raw + [tap];
      sum := sum + tap;
    }
  }

  method Normalise(raw: seq<real>, sum: real) returns (taps: seq<real>)
    requires sum == Sum(raw) != 0.0
    ensures taps == Divided(raw, sum) && Sum(taps) == 1.0
  {
    taps := raw;
    for i := 0 to |raw|
      invariant |taps| == |raw|
      invariant forall k :: 0 <= k < i ==> taps[k] == Divided(raw, sum)[k]
      invariant forall k :: i <= k < |raw| ==> taps[k] == raw[k]
    {
      taps := taps[i := taps[i] / sum];
    }
    DividedSum(raw, sum);
    assert taps == Divided(raw, sum) && sum / sum == 1.0;
  }

  // What the design comes to; None where the source divides by zero, by the number of taps
  // less one or by their sum.
  ghost function Designed(n: nat, cutoff: real, c: Circle): Option<seq<real>>
    requires c.pi > 0.0
  {
    if n == 0 then Some([])
    else if n == 1 || Sum(RawTaps(n, cutoff, c)) == 0.0 then None
    else Some(Divided(RawTaps(n, cutoff, c), Sum(RawTaps(n, cutoff, c))))
  }

  method DesignLpf(n: nat, cutoff: real, c: Circle) returns (taps: Option<seq<real>>)
    requires c.pi > 0.0
    ensures taps == Designed(n, cutoff, c)
    ensures taps.Some? ==> |taps.value| == n && (n > 0 ==> Sum(taps.value) == 1.0)
    ensures taps.Some? && Circular(c) ==> Symmetric(taps.value)
  {
    if n == 0 {
      return Some([]);
    }
    if n == 1 {
      return None;
    }
    var raw, sum := FillTaps(n, cutoff, c);
    if sum == 0.0 {
      return None;
    }
    var scaled := Normalise(raw, sum);
    if Circular(c) {
      RawTapsAreSymmetric(n, cutoff, c);
      DividedIsSymmetric(raw, sum);
    }
    taps := Some(scaled);
  }

  // Tap i of n, times the gain that was divided out: the sinc of its distance x from the
  // middle, cleared of the division by x, under a Hamming window.
  ghost predicate TapIs(tap: real, i: int, n: nat, gain: real, cutoff: real, c: Circle)
    requires n >= 2
  {
    var x := i as real - (n - 1) as real / 2.0;
    var window := 0.54 - 0.46 * c.cos(2.0 * c.pi * i as real / (n - 1) as real);
    if x == 0.0 then tap * gain == 2.0 * cutoff * window
    else tap * gain * (c.pi * x) == c.sin(2.0 * c.pi * cutoff * x) * window
  }

  lemma QuotientTimes(a: real, b: real)
    requires b != 0.0
    ensures a / b * b == a
  {
  }

  lemma Regroup(a: real, b: real, w: real)
    requires b != 0.0
    ensures ((a / b) * w) * b == a * w
  {
    QuotientTimes(a, b);
    assert ((a / b) * w) * b == ((a / b) * b) * w;
  }

  lemma RawTapIs(tap: real, i: int, n: nat, gain: real, cutoff: real, c: Circle)
    requires c.pi > 0.0 && n >= 2 && tap * gain == RawTap(i, n - 1, cutoff, c)
    ensures TapIs(tap, i, n, gain, cutoff, c)
  {
    var x := i as real - (n - 1) as real / 2.0;
    if x != 0.0 {
      assert c.pi * x != 0.0;
      Regroup(c.sin(2.0 * c.pi * cutoff * x), c.pi * x, Window(i, n - 1, c));
    }
  }

  // The designed taps are those of a windowed sinc, but for one common factor.
  lemma TapsAreWindowedSinc(n: nat, cutoff: real, c: Circle)
    requires c.pi > 0.0 && n >= 2 && Designed(n, cutoff, c).Some?
    ensures var taps, gain := Designed(n, cutoff, c).value, Sum(RawTaps(n, cutoff, c));
            gain != 0.0 && |taps| == n && forall i :: 0 <= i < n ==> TapIs(taps[i], i, n, gain, cutoff, c)
  {
    var taps, gain := Designed(n, cutoff, c).value, Sum(RawTaps(n, cutoff, c));
    forall i | 0 <= i < n
      ensures TapIs(taps[i], i, n, gain, cutoff, c)
    {
      QuotientTimes(RawTap(i, n - 1, cutoff, c), gain);
      RawTapIs(taps[i], i, n, gain, cutoff, c);
    }
  }

  // The window starts and ends at 0.08 and is one in the middle, where the tap is twice the
  // cutoff.
  lemma MiddleAndEnds(h: nat, cutoff: real, c: Circle)
    requires c.pi > 0.0 && h >= 1
    requires c.cos(0.0) == 1.0 && c.cos(c.pi) == -1.0 && c.cos(2.0 * c.pi) == 1.0
    ensures Window(0, 2 * h, c) == Window(2 * h, 2 * h, c) == 0.08 && Window(h, 2 * h, c) == 1.0
    ensures RawTap(h, 2 * h, cutoff, c) == 2.0 * cutoff
  {
    assert (2 * h) as real / 2.0 == h as real;
    assert Angle(0, 2 * h, c) == 0.0;
    AngleIs(2.0 * c.pi, h as real);
    assert Angle(h, 2 * h, c) == c.pi && Angle(2 * h, 2 * h, c) == 2.0 * c.pi;
  }

  lemma AngleIs(turn: real, h: real)
    requires h > 0.0
    ensures turn * h / (2.0 * h) == turn / 2.0
    ensures turn * (2.0 * h) / (2.0 * h) == turn
  {
    assert turn / 2.0 * (2.0 * h) == turn * h;
  }

  lemma DividedIsSymmetric(s: seq<real>, total: real)
    requires Symmetric(s) && total != 0.0
    ensures Symmetric(Divided(s, total))
  {
  }
}
