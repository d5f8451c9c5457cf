/** Frequency-point generation and acquisition-window sizing for a sweep. */
module SweepEngine {
  import opened Wrappers
  import opened PyNumbers
  import opened Numerics
  import opened Models

  /** The slack the linear loop allows past the stop frequency. */
  const StopSlack: real := 0.000000001

  /** `max(1, int(step_count or 1))`: the number of points of a log sweep. */
  function LogCount(stepCount: Option<int>): (n: nat)
    ensures n >= 1
    ensures stepCount.None? ==> n == 1
    ensures stepCount.Some? ==> n == if stepCount.value >= 1 then stepCount.value else 1
  {
    var k := match stepCount case Some(c) => (if c != 0 then c else 1) case None => 1;
    if k >= 1 then k else 1
  }

  /** `np.logspace(a, b, n)`: n points whose exponents are evenly spaced
      from a to b, both ends included. */
  function LogSpace(num: Numerics, a: real, b: real, n: nat): (xs: seq<real>)
    requires n >= 1
    ensures |xs| == n
    ensures xs[0] == num.pow10(a)
    ensures n > 1 ==> xs[n - 1] == num.pow10(b)
  {
    var m := (n - 1) as real;
    var step := if n == 1 then 0.0 else (b - a) / m;
    assert n > 1 ==> m * step == b - a by {
      if n > 1 { MulDivCancel(m, b - a); }
    }
    var xs := seq(n, (i: int) => LogPoint(num, a, step, i));
    assert xs[0] == LogPoint(num, a, step, 0);
    assert n > 1 ==> xs[n - 1] == LogPoint(num, a, step, n - 1);
    LastLogPoint(num, a, b, n, step);
    xs
  }

  /** Point `i` of a log sweep whose exponents start at `a` and grow by `step`. */
  function LogPoint(num: Numerics, a: real, step: real, i: int): real {
    num.pow10(a + (i as real) * step)
  }

  lemma LastLogPoint(num: Numerics, a: real, b: real, n: nat, step: real)
    requires n > 1 ==> ((n - 1) as real) * step == b - a
    ensures n > 1 ==> LogPoint(num, a, step, n - 1) == num.pow10(b)
  {
  }

  lemma MulDivCancel(m: real, d: real)
    requires m != 0.0
    ensures m * (d / m) == d
  {
  }

  /** The i-th point `start + i * step` of a linear sweep. */
  function Nth(start: real, step: real, i: int): real {
    start + (i as real) * step
  }

  lemma NthMono(start: real, step: real, j: int, k: int)
    requires j <= k && step > 0.0
    ensures Nth(start, step, j) <= Nth(start, step, k)
  {
    assert (k as real) * step - (j as real) * step == ((k - j) as real) * step;
  }

  /** How many points `start, start + step, …` lie at or below `bound`. */
  function CountWithin(start: real, bound: real, step: real): nat
    requires step > 0.0
  {
    var d := bound - start;
    if d < 0.0 then 0 else (d / step).Floor + 1
  }

  /** The count is the first index whose point passes the bound. */
  lemma CountWithinBounds(start: real, bound: real, step: real)
    requires step > 0.0
    ensures Nth(start, step, CountWithin(start, bound, step)) > bound
    ensures CountWithin(start, bound, step) > 0 ==>
      Nth(start, step, CountWithin(start, bound, step) - 1) <= bound
  {
    var n := CountWithin(start, bound, step);
    var d := bound - start;
    if d >= 0.0 {
      var q := d / step;
      assert q * step == d;
      assert (n as real) > q;
      assert (n as real) * step > q * step;
      assert ((n - 1) as real) <= q;
      assert ((n - 1) as real) * step <= q * step;
    }
  }

  /** Exactly the first `CountWithin` points lie at or below the bound. */
  lemma WithinCount(start: real, bound: real, step: real, i: int)
    requires step > 0.0 && 0 <= i
    ensures Nth(start, step, i) <= bound <==> i < CountWithin(start, bound, step)
  {
    var n := CountWithin(start, bound, step);
    CountWithinBounds(start, bound, step);
    if i < n {
      NthMono(start, step, i, n - 1);
    } else {
      NthMono(start, step, n, i);
    }
  }

  /** How many linear points `start, start + step, …` lie at or below
      `stop + StopSlack`. */
  function LinearCount(start: real, stop: real, step: real): nat
    requires step > 0.0
  {
    CountWithin(start, stop + StopSlack, step)
  }

  /** Exactly the first `LinearCount` points lie within the bound. */
  lemma WithinBound(start: real, stop: real, step: real, i: int)
    requires step > 0.0 && 0 <= i
    ensures Nth(start, step, i) <= stop + StopSlack <==> i < LinearCount(start, stop, step)
  {
    WithinCount(start, stop + StopSlack, step, i);
  }

  /** The linear sweep in closed form. */
  function LinearSweep(start: real, stop: real, step: real): (xs: seq<real>)
    requires step > 0.0
    ensures |xs| == LinearCount(start, stop, step)
    ensures forall i :: 0 <= i < |xs| ==> xs[i] == Nth(start, step, i)
  {
    seq(LinearCount(start, stop, step), (i: int) => Nth(start, step, i))
  }

  /** The loop `while stop - current >= -1e-9: append; current += step`. */
  method LinearPoints(start: real, stop: real, step: real) returns (values: seq<real>)
    requires step > 0.0
    ensures values == LinearSweep(start, stop, step)
  {
    var n := LinearCount(start, stop, step);
    values := [];
    var current := start;
    while stop - current >= -StopSlack
      invariant |values| <= n
      invariant current == Nth(start, step, |values|)
      invariant forall i :: 0 <= i < |values| ==> values[i] == Nth(start, step, i)
      decreases n - |values|
    {
      WithinBound(start, stop, step, |values|);
      values := values + [current];
      current := current + step;
    }
    WithinBound(start, stop, step, |values|);
  }

  /** `generate_frequency_points` as a value: a log sweep of `LogCount`
      points, or the linear sweep with its guards. */
  function FrequencyPoints(num: Numerics, spec: SweepSpec): Result<seq<real>> {
    if spec.isLog then
      Ok(LogSpace(num, num.log10(spec.startHz), num.log10(spec.stopHz), LogCount(spec.stepCount)))
    else
      var step := spec.stepHz.GetOr(0.0);
      if step <= 0.0 then Raise(ValueError, "Linear sweep requires step_hz > 0")
      else if IsCloseDefault(spec.startHz, spec.stopHz) then Ok([spec.startHz])
      else
        var xs := LinearSweep(spec.startHz, spec.stopHz, step);
        Ok(if xs == [] then [spec.startHz] else xs)
  }

  /** `generate_frequency_points`, running the linear loop. */
  method GenerateFrequencyPoints(num: Numerics, spec: SweepSpec) returns (r: Result<seq<real>>)
    ensures r == FrequencyPoints(num, spec)
  {
    if spec.isLog {
      return Ok(LogSpace(num, num.log10(spec.startHz), num.log10(spec.stopHz), LogCount(spec.stepCount)));
    }
    var step := spec.stepHz.GetOr(0.0);
    if step <= 0.0 {
      return Raise(ValueError, "Linear sweep requires step_hz > 0");
    }
    if IsCloseDefault(spec.startHz, spec.stopHz) {
      return Ok([spec.startHz]);
    }
    var values := LinearPoints(spec.startHz, spec.stopHz, step);
    if values == [] {
      values := [spec.startHz];
    }
    r := Ok(values);
  }

  /** What a sweep plan yields: an error exactly for a linear sweep
      without a positive step, otherwise a non-empty list, and for a log
      sweep a list of `LogCount` points. */
  lemma FrequencyPointsSpec(num: Numerics, spec: SweepSpec)
    ensures var r := FrequencyPoints(num, spec);
      && (r.Err? <==> !spec.isLog && spec.stepHz.GetOr(0.0) <= 0.0)
      && (r.Ok? ==> |r.value| >= 1)
      && (spec.isLog ==> r.Ok? && |r.value| == LogCount(spec.stepCount))
  {
  }

  /** The closed-form linear sweep starts at the start frequency, climbs
      by exactly the step, stays within the stop bound and ends at the last
      point that does. */
  lemma LinearSweepSpec(start: real, stop: real, step: real)
    requires step > 0.0
    ensures var xs := LinearSweep(start, stop, step);
      && (xs != [] ==> xs[0] == start && xs[|xs| - 1] + step > stop + StopSlack)
      && (forall i :: 0 < i < |xs| ==> xs[i] - xs[i - 1] == step)
      && (forall i :: 0 <= i < |xs| ==> xs[i] <= stop + StopSlack)
  {
    var xs := LinearSweep(start, stop, step);
    forall i | 0 < i < |xs| ensures xs[i] - xs[i - 1] == step {
      assert xs[i] == Nth(start, step, i) && xs[i - 1] == Nth(start, step, i - 1);
    }
    forall i | 0 <= i < |xs| ensures xs[i] <= stop + StopSlack {
      WithinBound(start, stop, step, i);
    }
    LastPastBound(start, stop, step);
  }

  /** The point after the last one of a non-empty sweep is past the bound. */
  lemma LastPastBound(start: real, stop: real, step: real)
    requires step > 0.0
    ensures var xs := LinearSweep(start, stop, step);
      xs != [] ==> xs[0] == start && xs[|xs| - 1] + step > stop + StopSlack
  {
    var xs := LinearSweep(start, stop, step);
    WithinBound(start, stop, step, |xs|);
    if xs != [] {
      assert xs[|xs| - 1] + step == Nth(start, step, |xs|);
    }
  }

  /** A linear sweep plan: the points start at the start frequency, are
      exactly `[start]` when start and stop are close, climb by exactly the
      step and, beyond a single point, end at the last one within the bound. */
  lemma LinearPointsSpec(num: Numerics, spec: SweepSpec)
    requires !spec.isLog && FrequencyPoints(num, spec).Ok?
    ensures var xs := FrequencyPoints(num, spec).value;
      && xs[0] == spec.startHz
      && (IsCloseDefault(spec.startHz, spec.stopHz) ==> xs == [spec.startHz])
      && (forall i :: 0 < i < |xs| ==> xs[i] - xs[i - 1] == spec.stepHz.value)
      && (|xs| > 1 ==>
            (forall i :: 0 <= i < |xs| ==> xs[i] <= spec.stopHz + StopSlack)
            && xs[|xs| - 1] + spec.stepHz.value > spec.stopHz + StopSlack)
  {
    LinearSweepSpec(spec.startHz, spec.stopHz, spec.stepHz.value);
  }

  /** The worked example: 1 to 5 in steps of 2 gives 1, 3 and 5. */
  lemma LinearSweepExample()
    ensures LinearSweep(1.0, 5.0, 2.0) == [1.0, 3.0, 5.0]
  {
    assert LinearCount(1.0, 5.0, 2.0) == 3 by {
      var q := (5.0 + StopSlack - 1.0) / 2.0;
      assert 2.0 <= q < 3.0;
    }
  }

  /** `compute_sampling_window_s` with every keyword argument explicit:
      the longest of the sample-count, cycle-count and minimum windows,
      clamped to `max_points` samples when that is positive. */
  function SamplingWindowWith(freqHz: real, sampleRateHz: real, points: int,
                              minWindowS: real, minCycles: int, maxPoints: int): (w: real)
    ensures var f := Max(freqHz, 0.000000000001); var sr := Max(sampleRateHz, 1.0);
      && (maxPoints > 0 ==> w <= (maxPoints as real) / sr)
      && (w == (points as real) / sr || w == (minCycles as real) / f || w == minWindowS
          || (maxPoints > 0 && w == (maxPoints as real) / sr))
      && (maxPoints <= 0 || w < (maxPoints as real) / sr ==>
            w >= (points as real) / sr && w >= (minCycles as real) / f && w >= minWindowS)
      && w <= Max(Max((points as real) / sr, (minCycles as real) / f), minWindowS)
  {
    var freq := Max(freqHz, 0.000000000001);
    var sr := Max(sampleRateHz, 1.0);
    var target := Max(Max((points as real) / sr, (minCycles as real) / freq), minWindowS);
    if maxPoints > 0 then Min(target, (maxPoints as real) / sr) else target
  }

  /** A 1 kHz tone sampled at 1 MS/s for 1000 points needs ten cycles,
      10 ms, which is well under the clamp. */
  lemma TenCycleWindow()
    ensures SamplingWindowWith(1000.0, 1000000.0, 1000, 0.000001, 10, 10000000) == 0.01
    ensures SamplingWindow(1000.0, 1000000.0, 1000) == 0.01
  {
  }

  /** `compute_sampling_window_s` with its default keyword arguments
      (1 µs minimum, 10 cycles, at most 10 000 000 samples). */
  function SamplingWindow(freqHz: real, sampleRateHz: real, points: int): (w: real)
    ensures w > 0.0
    ensures w <= 10000000.0 / Max(sampleRateHz, 1.0)
    ensures points <= 10000000 ==> w >= (points as real) / Max(sampleRateHz, 1.0)
    ensures w >= 0.000001 || w == 10000000.0 / Max(sampleRateHz, 1.0)
    ensures w >= 10.0 / Max(freqHz, 0.000000000001) || w == 10000000.0 / Max(sampleRateHz, 1.0)
  {
    var w := SamplingWindowWith(freqHz, sampleRateHz, points, 0.000001, 10, 10000000);
    var sr := Max(sampleRateHz, 1.0);
    DivMono(points as real, 10000000.0, sr);
    assert 10000000.0 / sr > 0.0;
    w
  }

  lemma DivMono(a: real, b: real, d: real)
    requires d > 0.0
    ensures a <= b ==> a / d <= b / d
  {
  }
}
