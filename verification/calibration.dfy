/** Reference calibration: building an interpolator from a measured
    reference response, and dividing a measured point by the reference
    value at its frequency. The spline fit is the uninterpreted
    `splineAt` of `Numerics`; what is modelled is the sorting, the
    de-duplication, the single-knot constant and the flat extension past
    both ends of the reference band. */
module Calibration {
  import opened Wrappers
  import opened PyNumbers
  import opened Numerics
  import opened Models

  /** A reference value: real for a magnitude-only reference, complex
      when the reference carries phase. */
  datatype RefValue = RealRef(x: real) | ComplexRef(z: Complex)

  /** `np.abs` of a reference value. */
  function RefAbs(num: Numerics, v: RefValue): real {
    match v
    case RealRef(x) => Abs(x)
    case ComplexRef(z) => num.Abs(z)
  }

  /** `complex(v)`. */
  function AsComplex(v: RefValue): Complex {
    match v
    case RealRef(x) => Complex(x, 0.0)
    case ComplexRef(z) => z
  }

  /** Index into an array that numpy broadcasts from length 1. */
  function Bcast(len: nat, i: nat): nat {
    if len == 1 then 0 else i
  }

  /** `10 ** (gain_db / 20)`, times `exp(1j·deg2rad(phase))` when a phase
      is given. Arrays of unequal length broadcast only from length 1. */
  function ReferenceValues(num: Numerics, gainDb: seq<real>, phase: seq<real>): (r: Result<seq<RefValue>>)
    ensures r.Ok? && phase == [] ==> |r.value| == |gainDb| && forall i :: 0 <= i < |r.value| ==> r.value[i].RealRef?
    ensures r.Ok? && phase != [] ==> forall i :: 0 <= i < |r.value| ==> r.value[i].ComplexRef?
    ensures r.Err? <==> phase != [] && |gainDb| != |phase| && |gainDb| != 1 && |phase| != 1
  {
    if phase == [] then
      Ok(seq(|gainDb|, (i: int) requires 0 <= i < |gainDb| => RealRef(num.pow10(gainDb[i] / 20.0))))
    else if |gainDb| != |phase| && |gainDb| != 1 && |phase| != 1 then
      Raise(ValueError, "operands could not be broadcast together")
    else
      var n := if |gainDb| == 1 then |phase| else |gainDb|;
      Ok(seq(n, (i: int) requires 0 <= i < n =>
        ComplexRef(num.Polar(num.pow10(gainDb[Bcast(|gainDb|, i)] / 20.0), num.Radians(phase[Bcast(|phase|, i)])))))
  }

  /** `order` is what `np.argsort(xs)` may return: a permutation of the
      indices that lists `xs` in non-decreasing order. The default sort is
      not stable, so among equal values any order is possible. */
  predicate IsArgsort(order: seq<nat>, xs: seq<real>) {
    && |order| == |xs|
    && (forall i :: 0 <= i < |order| ==> order[i] < |xs|)
    && (forall i, j :: 0 <= i < j < |order| ==> order[i] != order[j])
    && (forall i :: 0 < i < |order| ==> xs[order[i - 1]] <= xs[order[i]])
  }

  predicate NonDecreasing(xs: seq<real>) {
    forall i :: 0 < i < |xs| ==> xs[i - 1] <= xs[i]
  }

  predicate StrictlyIncreasing(xs: seq<real>) {
    forall i :: 0 < i < |xs| ==> xs[i - 1] < xs[i]
  }

  lemma NonDecreasingPairs(xs: seq<real>, i: nat, j: nat)
    requires NonDecreasing(xs) && i <= j < |xs|
    ensures xs[i] <= xs[j]
    decreases j - i
  {
    if i < j {
      NonDecreasingPairs(xs, i, j - 1);
    }
  }

  /** Whether index k opens a run of equal values: `np.unique` keeps it. */
  predicate Opens(xs: seq<real>, k: nat)
    requires k < |xs|
  {
    k == 0 || xs[k] != xs[k - 1]
  }

  /** The indices from `i` on that `np.unique(…, return_index=True)` keeps
      in a sorted array: the first of each run of equal values. */
  function UniqueIndices(xs: seq<real>, i: nat): (ks: seq<nat>)
    ensures forall j :: 0 <= j < |ks| ==> i <= ks[j] < |xs| && Opens(xs, ks[j])
    ensures forall j :: 0 < j < |ks| ==> ks[j - 1] < ks[j]
    decreases |xs| - i
  {
    if i >= |xs| then []
    else if Opens(xs, i) then [i] + UniqueIndices(xs, i + 1)
    else UniqueIndices(xs, i + 1)
  }

  /** Every index that opens a run is kept. */
  lemma {:induction false} UniqueIndicesComplete(xs: seq<real>, i: nat, k: nat)
    requires i <= k < |xs| && Opens(xs, k)
    ensures k in UniqueIndices(xs, i)
    decreases |xs| - i
  {
    if i < k {
      UniqueIndicesComplete(xs, i + 1, k);
    }
  }

  /** The run containing index k opens at or before k, with the same value. */
  lemma {:induction false} RunOpening(xs: seq<real>, k: nat) returns (s: nat)
    requires k < |xs|
    ensures s <= k && Opens(xs, s) && xs[s] == xs[k]
  {
    if Opens(xs, k) {
      s := k;
    } else {
      s := RunOpening(xs, k - 1);
    }
  }

  /** `xs[order]`. */
  function Permute<T>(xs: seq<T>, order: seq<nat>): (ys: seq<T>)
    requires forall i :: 0 <= i < |order| ==> order[i] < |xs|
    ensures |ys| == |order| && forall i :: 0 <= i < |order| ==> ys[i] == xs[order[i]]
  {
    seq(|order|, (i: int) requires 0 <= i < |order| => xs[order[i]])
  }

  /** `xs[ks]`. */
  function Pick<T>(xs: seq<T>, ks: seq<nat>): (ys: seq<T>)
    requires forall j :: 0 <= j < |ks| ==> ks[j] < |xs|
    ensures |ys| == |ks| && forall j :: 0 <= j < |ks| ==> ys[j] == xs[ks[j]]
  {
    seq(|ks|, (j: int) requires 0 <= j < |ks| => xs[ks[j]])
  }

  /** The sorted, de-duplicated knots of a reference with their values. */
  datatype Knots = Knots(freqs: seq<real>, values: seq<RefValue>)

  /** Sort by frequency with `order`, then keep the first entry of each run
      of equal frequencies. */
  function SortUnique(freq: seq<real>, href: seq<RefValue>, order: seq<nat>): (k: Knots)
    requires IsArgsort(order, freq) && |href| >= |freq|
    ensures |k.freqs| == |k.values|
  {
    var ks := UniqueIndices(Permute(freq, order), 0);
    Knots(Pick(Permute(freq, order), ks), Pick(Permute(href, order), ks))
  }

  /** The knots strictly increase. */
  lemma KnotsIncrease(freq: seq<real>, href: seq<RefValue>, order: seq<nat>)
    requires IsArgsort(order, freq) && |href| >= |freq|
    ensures StrictlyIncreasing(SortUnique(freq, href, order).freqs)
  {
    var sf := Permute(freq, order);
    var ks := UniqueIndices(sf, 0);
    var k := SortUnique(freq, href, order);
    assert NonDecreasing(sf);
    forall j | 0 < j < |k.freqs| ensures k.freqs[j - 1] < k.freqs[j] {
      NonDecreasingPairs(sf, ks[j - 1], ks[j] - 1);
    }
  }

  /** Every frequency of the reference is a knot, and there are knots iff
      the reference is not empty. */
  lemma KnotsCover(freq: seq<real>, href: seq<RefValue>, order: seq<nat>)
    requires IsArgsort(order, freq) && |href| >= |freq|
    ensures forall i :: 0 <= i < |freq| ==> freq[i] in SortUnique(freq, href, order).freqs
    ensures |freq| > 0 <==> |SortUnique(freq, href, order).freqs| > 0
  {
    var sf := Permute(freq, order);
    var ks := UniqueIndices(sf, 0);
    var k := SortUnique(freq, href, order);
    forall i | 0 <= i < |freq| ensures freq[i] in k.freqs {
      var p := PositionOf(order, i);
      var s := RunOpening(sf, p);
      UniqueIndicesComplete(sf, 0, s);
      var j :| 0 <= j < |ks| && ks[j] == s;
      assert k.freqs[j] == freq[i];
    }
    if |freq| > 0 {
      UniqueIndicesComplete(sf, 0, 0);
    }
  }

  /** Some entry of the reference has frequency `f` and value `v`. */
  predicate HasEntry(freq: seq<real>, href: seq<RefValue>, f: real, v: RefValue) {
    exists i :: 0 <= i < |freq| && i < |href| && freq[i] == f && href[i] == v
  }

  /** Each knot is a frequency of the reference carrying the value an entry
      at that frequency has. */
  lemma KnotsFromEntries(freq: seq<real>, href: seq<RefValue>, order: seq<nat>)
    requires IsArgsort(order, freq) && |href| >= |freq|
    ensures var k := SortUnique(freq, href, order);
      forall j :: 0 <= j < |k.freqs| ==> HasEntry(freq, href, k.freqs[j], k.values[j])
  {
    var sf, sh := Permute(freq, order), Permute(href, order);
    var ks := UniqueIndices(sf, 0);
    var k := SortUnique(freq, href, order);
    forall j | 0 <= j < |k.freqs| ensures HasEntry(freq, href, k.freqs[j], k.values[j]) {
      var i := order[ks[j]];
      assert k.freqs[j] == sf[ks[j]] && k.values[j] == sh[ks[j]];
      assert freq[i] == k.freqs[j] && href[i] == k.values[j];
    }
  }

  /** Every index appears in a permutation of the indices. */
  lemma PositionOf(order: seq<nat>, i: nat) returns (p: nat)
    requires (forall a :: 0 <= a < |order| ==> order[a] < |order|)
    requires (forall a, b :: 0 <= a < b < |order| ==> order[a] != order[b])
    requires i < |order|
    ensures p < |order| && order[p] == i
  {
    var seen := set a | 0 <= a < |order| :: order[a];
    var all := Indices(|order|);
    assert seen <= all;
    InjectiveImageSize(order);
    SubsetSameSize(seen, all);
    assert i in all;
    p :| 0 <= p < |order| && order[p] == i;
  }

  lemma InjectiveImageSize(order: seq<nat>)
    requires (forall a, b :: 0 <= a < b < |order| ==> order[a] != order[b])
    ensures |set a | 0 <= a < |order| :: order[a]| == |order|
  {
    if order != [] {
      var last := order[|order| - 1];
      var front := order[..|order| - 1];
      InjectiveImageSize(front);
      var s := set a | 0 <= a < |order| :: order[a];
      var t := set a | 0 <= a < |front| :: front[a];
      assert s == t + {last};
      assert last !in t;
    }
  }

  lemma SubsetSameSize(a: set<nat>, b: set<nat>)
    requires a <= b && |a| == |b|
    ensures a == b
  {
    if a != b {
      var x :| x in b && x !in a;
      assert a <= b - {x};
      assert |b - {x}| == |b| - 1;
      SubsetSize(a, b - {x});
    }
  }

  lemma SubsetSize(a: set<nat>, b: set<nat>)
    requires a <= b
    ensures |a| <= |b|
  {
    if a != {} {
      var x :| x in a;
      SubsetSize(a - {x}, b - {x});
    }
  }

  /** The indices below n. */
  function Indices(n: nat): (s: set<nat>)
    ensures |s| == n && forall v: nat :: v in s <==> v < n
  {
    if n == 0 then {} else Indices(n - 1) + {n - 1}
  }

  /** The interpolator the reference builds. */
  datatype Interpolator =
    | Constant(value: RefValue)
    | ComplexSpline(knots: seq<real>, re: seq<real>, im: seq<real>, degree: nat, first: Complex, last: Complex)
    | MagnitudeSpline(knots: seq<real>, mags: seq<real>, degree: nat, firstMag: real, lastMag: real)

  /** The reference value at a frequency: a spline value inside the knot
      range, the end value outside it. */
  function Evaluate(num: Numerics, f: Interpolator, x: real): RefValue {
    match f
    case Constant(v) => v
    case ComplexSpline(knots, re, im, degree, first, last) =>
      if knots == [] then ComplexRef(first)
      else if x < knots[0] then ComplexRef(first)
      else if x > knots[|knots| - 1] then ComplexRef(last)
      else ComplexRef(Complex(num.splineAt(knots, re, degree, x), num.splineAt(knots, im, degree, x)))
    case MagnitudeSpline(knots, mags, degree, first, last) =>
      if knots == [] then RealRef(first)
      else if x < knots[0] then RealRef(first)
      else if x > knots[|knots| - 1] then RealRef(last)
      else RealRef(num.splineAt(knots, mags, degree, x))
  }

  /** The interpolator over de-duplicated knots: a constant for one knot,
      otherwise a spline of order `min(3, n − 1)`, complex when the values
      are, magnitude-only otherwise. `absConstant` selects the variant
      whose single-knot magnitude reference is the absolute value. */
  function FromKnots(num: Numerics, k: Knots, absConstant: bool): (f: Interpolator)
    requires |k.freqs| == |k.values| > 0
    ensures |k.freqs| == 1 <==> f.Constant?
    ensures f.ComplexSpline? ==>
      && f.degree == Min3(|k.freqs| - 1) && f.first == AsComplex(k.values[0])
      && f.last == AsComplex(k.values[|k.values| - 1]) && f.knots == k.freqs
    ensures f.MagnitudeSpline? ==>
      && f.degree == Min3(|k.freqs| - 1) && f.firstMag == RefAbs(num, k.values[0])
      && f.lastMag == RefAbs(num, k.values[|k.values| - 1]) && f.knots == k.freqs
    ensures |k.freqs| > 1 ==> (f.ComplexSpline? <==> exists i :: 0 <= i < |k.values| && k.values[i].ComplexRef?)
  {
    var n := |k.freqs|;
    var isComplex := exists i :: 0 <= i < |k.values| && k.values[i].ComplexRef?;
    if n == 1 then
      var h0 := k.values[0];
      Constant(if absConstant && h0.RealRef? then RealRef(RefAbs(num, h0)) else h0)
    else if isComplex then
      ComplexSpline(k.freqs,
        seq(n, (i: int) requires 0 <= i < n => AsComplex(k.values[i]).re),
        seq(n, (i: int) requires 0 <= i < n => AsComplex(k.values[i]).im),
        Min3(n - 1), AsComplex(k.values[0]), AsComplex(k.values[n - 1]))
    else
      MagnitudeSpline(k.freqs, seq(n, (i: int) requires 0 <= i < n => RefAbs(num, k.values[i])),
        Min3(n - 1), RefAbs(num, k.values[0]), RefAbs(num, k.values[n - 1]))
  }

  function Min3(n: nat): (d: nat)
    ensures d <= 3 && d <= n && (d == 3 || d == n)
  {
    if n < 3 then n else 3
  }

  /** The arrays of a reference, validated: values computed and an entry
      for every frequency. `squeeze` turns a single frequency, or a single
      value, into a 0-d array, which the argsort indexing then rejects with
      `IndexError`, even when there are no frequencies at all; it rejects a
      value array shorter than the frequencies the same way. */
  function ReferenceKnots(num: Numerics, curve: ReferenceCurve, order: seq<nat>): (r: Result<Knots>)
    requires IsArgsort(order, curve.freqHz)
    ensures var v := ReferenceValues(num, curve.gainDb, curve.phaseDeg.GetOr([]));
      && (r.Err? <==> v.Err? || |curve.freqHz| == 1 || |v.value| == 1 || |v.value| < |curve.freqHz|)
      && (v.Ok? && r.Err? ==> r.error.kind == IndexError)
    ensures r.Ok? ==> |r.value.freqs| == |r.value.values| && (|r.value.freqs| > 0 <==> |curve.freqHz| > 0)
  {
    var phase := curve.phaseDeg.GetOr([]);
    var href :- ReferenceValues(num, curve.gainDb, phase);
    if |curve.freqHz| == 1 || |href| == 1 then Raise(IndexError, "too many indices for array: array is 0-dimensional")
    else if |href| < |curve.freqHz| then Raise(IndexError, "index out of bounds")
    else
      KnotsCover(curve.freqHz, href, order);
      Ok(SortUnique(curve.freqHz, href, order))
  }

  /** `build_reference_interpolator`, with `order` the permutation the
      unstable `np.argsort` returned. An empty reference raises
      `ValueError`. */
  function BuildReferenceInterpolator(num: Numerics, curve: ReferenceCurve, order: seq<nat>): (r: Result<Interpolator>)
    requires IsArgsort(order, curve.freqHz)
    ensures curve.freqHz == [] ==> r == Raise(ValueError, "Reference frequency data is empty")
    ensures r.Ok? <==> |curve.freqHz| > 0 && ReferenceKnots(num, curve, order).Ok?
    ensures |curve.freqHz| == 1 ==> r.Err?
  {
    if |curve.freqHz| == 0 then Raise(ValueError, "Reference frequency data is empty")
    else
      var k :- ReferenceKnots(num, curve, order);
      Ok(FromKnots(num, k, false))
  }

  /** `build_bspline_holdout_interp` of the legacy window: the same
      construction, except that the emptiness check comes after the
      sort and a single-knot magnitude reference is returned as its
      absolute value. */
  function BuildHoldoutInterpolator(num: Numerics, curve: ReferenceCurve, order: seq<nat>): (r: Result<Interpolator>)
    requires IsArgsort(order, curve.freqHz)
    ensures curve.freqHz == [] ==> r.Err?
    ensures var v := ReferenceValues(num, curve.gainDb, curve.phaseDeg.GetOr([]));
      curve.freqHz == [] && v.Ok? ==> r.error.kind == (if |v.value| == 1 then IndexError else ValueError)
    ensures r.Ok? <==> |curve.freqHz| > 0 && ReferenceKnots(num, curve, order).Ok?
    ensures |curve.freqHz| == 1 ==> r.Err?
  {
    var k :- ReferenceKnots(num, curve, order);
    if |k.freqs| == 0 then Raise(ValueError, "ref_freq is empty")
    else Ok(FromKnots(num, k, true))
  }

  /** An empty frequency list with a single gain: the value array is 0-d,
      so the argsort indexing raises `IndexError` before the emptiness
      check of the legacy builder is reached. */
  lemma EmptyFreqSingleGain(num: Numerics, g: real)
    ensures var curve := ReferenceCurve([], [g], None);
      BuildHoldoutInterpolator(num, curve, []).Err?
      && BuildHoldoutInterpolator(num, curve, []).error.kind == IndexError
  {
  }

  /** The two builders succeed on the same references (an empty one makes
      both raise) and differ only for a single-knot magnitude reference,
      where the legacy one keeps the absolute value. */
  lemma BuildersAgree(num: Numerics, curve: ReferenceCurve, order: seq<nat>)
    requires IsArgsort(order, curve.freqHz)
    ensures BuildReferenceInterpolator(num, curve, order).Ok? <==> BuildHoldoutInterpolator(num, curve, order).Ok?
    ensures curve.freqHz == [] ==> BuildHoldoutInterpolator(num, curve, order).Err?
    ensures var r := BuildReferenceInterpolator(num, curve, order);
      r.Ok? && BuildHoldoutInterpolator(num, curve, order).value != r.value ==>
        var k := ReferenceKnots(num, curve, order).value;
        |k.freqs| == 1 && k.values[0].RealRef?
           && BuildHoldoutInterpolator(num, curve, order).value == Constant(RealRef(RefAbs(num, k.values[0])))
  {
  }

  /** Evaluating a built interpolator: one knot gives its value at every
      frequency; otherwise the end values hold flat below the first and
      above the last knot, as a complex value when the reference has phase
      and as a magnitude when it does not. */
  lemma EvaluateKnots(num: Numerics, k: Knots, x: real)
    requires |k.freqs| == |k.values| > 0 && StrictlyIncreasing(k.freqs)
    ensures var f := FromKnots(num, k, false); var n := |k.freqs|;
      && (n == 1 ==> Evaluate(num, f, x) == k.values[0])
      && (n > 1 && x < k.freqs[0] ==>
            Evaluate(num, f, x) == (if f.ComplexSpline? then ComplexRef(AsComplex(k.values[0]))
                                    else RealRef(RefAbs(num, k.values[0]))))
      && (n > 1 && x > k.freqs[n - 1] ==>
            Evaluate(num, f, x) == (if f.ComplexSpline? then ComplexRef(AsComplex(k.values[n - 1]))
                                    else RealRef(RefAbs(num, k.values[n - 1]))))
      && (n > 1 && k.freqs[0] <= x <= k.freqs[n - 1] && f.MagnitudeSpline? ==>
            Evaluate(num, f, x) == RealRef(num.splineAt(k.freqs, f.mags, Min3(n - 1), x)))
  {
    IncreasingEnds(k.freqs, 0, |k.freqs| - 1);
  }

  lemma IncreasingEnds(xs: seq<real>, i: nat, j: nat)
    requires StrictlyIncreasing(xs) && i <= j < |xs|
    ensures xs[i] <= xs[j]
    decreases j - i
  {
    if i < j {
      IncreasingEnds(xs, i, j - 1);
    }
  }

  /** Below this magnitude a reference is not divided by. */
  const RefFloor: real := 0.000000000001

  /** The rebuilt gain `gain * exp(1j * deg2rad(phase))` is a numpy
      complex128; the point's own complex gain and `complex(gain, 0)` are
      Python complex numbers, whose division by zero raises. */
  predicate NumpyRaw(point: SweepPoint) {
    point.gainComplex.None? && point.phaseDeg.Some?
  }

  /** `raw / complex(ref)`: Python raises `ZeroDivisionError` for a zero
      divisor unless `raw` is a numpy value, whose quotient is non-finite. */
  function PhaseQuotient(num: Numerics, point: SweepPoint, ref: RefValue): Result<Complex> {
    var raw := RawComplex(num, point);
    var divisor := AsComplex(ref);
    if divisor.Norm() != 0.0 then Ok(Div(raw, divisor))
    else if NumpyRaw(point) then Ok(num.zeroQuotient(raw))
    else Raise(ZeroDivisionError, "complex division by zero")
  }

  /** `apply_reference_to_point`: a new point at the same frequency. With
      phase, the point's complex gain (or the one rebuilt from gain and
      phase, or the real gain) is divided by the reference, which Python
      refuses for a zero reference unless the dividend is the rebuilt numpy
      value; without, the linear gain is divided by the reference magnitude
      floored at 1e-12 and the phase and complex gain are carried over. */
  function ApplyReferenceToPoint(num: Numerics, point: SweepPoint, ref: RefValue, usePhase: bool): (r: Result<SweepPoint>)
    ensures r.Ok? ==> r.value.freqHz == point.freqHz
    ensures r.Err? <==> usePhase && AsComplex(ref).Norm() == 0.0 && !NumpyRaw(point)
    ensures r.Ok? && !usePhase ==>
      && r.value.gainLinear * Max(RefAbs(num, ref), RefFloor) == point.gainLinear
      && r.value.phaseDeg == point.phaseDeg && r.value.gainComplex == point.gainComplex
      && r.value.gainDb == num.Db(Max(r.value.gainLinear, RefFloor))
    ensures r.Ok? && usePhase ==>
      && r.value.gainComplex.Some? && r.value.phaseDeg.Some?
      && (AsComplex(ref).Norm() != 0.0 ==> r.value.gainComplex.value == Div(RawComplex(num, point), AsComplex(ref)))
      && (AsComplex(ref).Norm() == 0.0 ==> r.value.gainComplex.value == num.zeroQuotient(RawComplex(num, point)))
      && r.value.gainLinear == num.Abs(r.value.gainComplex.value)
      && r.value.phaseDeg.value == num.Degrees(num.Angle(r.value.gainComplex.value))
      && r.value.gainDb == num.Db(Max(r.value.gainLinear, RefFloor))
  {
    var refAbs := Max(RefAbs(num, ref), RefFloor);
    if usePhase then
      var corrected :- PhaseQuotient(num, point, ref);
      var gain := num.Abs(corrected);
      Ok(SweepPoint(point.freqHz, gain, num.Db(Max(gain, RefFloor)),
                    Some(num.Degrees(num.Angle(corrected))), Some(corrected)))
    else
      var gain := point.gainLinear / refAbs;
      Ok(SweepPoint(point.freqHz, gain, num.Db(Max(gain, RefFloor)), point.phaseDeg, point.gainComplex))
  }

  /** The complex gain a point stands for: its own, or the one rebuilt
      from gain and phase, or its real gain. */
  function RawComplex(num: Numerics, point: SweepPoint): (z: Complex)
    ensures point.gainComplex.Some? ==> z == point.gainComplex.value
    ensures point.gainComplex.None? && point.phaseDeg.None? ==> z == Complex(point.gainLinear, 0.0)
  {
    match point.gainComplex
    case Some(c) => c
    case None =>
      match point.phaseDeg
      case Some(ph) => num.Polar(point.gainLinear, num.Radians(ph))
      case None => Complex(point.gainLinear, 0.0)
  }

  /** A point divided by a magnitude reference equal to its own gain (at
      least 1e-12) has gain 1. */
  lemma SelfReferenceIsUnity(num: Numerics, point: SweepPoint)
    requires point.gainLinear >= RefFloor
    ensures var r := ApplyReferenceToPoint(num, point, RealRef(point.gainLinear), false);
      r.Ok? && r.value.gainLinear == 1.0
  {
    var g := point.gainLinear;
    assert RefAbs(num, RealRef(g)) == g;
    assert Max(RefAbs(num, RealRef(g)), RefFloor) == g;
    var r := ApplyReferenceToPoint(num, point, RealRef(g), false);
    assert r == Ok(SweepPoint(point.freqHz, g / g, num.Db(Max(g / g, RefFloor)), point.phaseDeg, point.gainComplex));
    SelfQuotient(g);
  }

  lemma SelfQuotient(g: real)
    requires g != 0.0
    ensures g / g == 1.0
  {
  }

  /** A zero reference, real or complex, cannot correct a point with
      phase when its gain is a Python complex number, since that division
      is not guarded; a gain rebuilt from phase divides in numpy and gives
      the non-finite quotient. The magnitude path is floored and never
      fails. */
  lemma ZeroReferenceFails(num: Numerics, point: SweepPoint, ref: RefValue)
    requires AsComplex(ref).Norm() == 0.0
    ensures ApplyReferenceToPoint(num, point, ref, true).Err? <==> !NumpyRaw(point)
    ensures NumpyRaw(point) ==> ApplyReferenceToPoint(num, point, ref, true).value.gainComplex
                                == Some(num.zeroQuotient(num.Polar(point.gainLinear, num.Radians(point.phaseDeg.value))))
    ensures ApplyReferenceToPoint(num, point, ref, false).Ok?
  {
    if NumpyRaw(point) {
      assert RawComplex(num, point) == num.Polar(point.gainLinear, num.Radians(point.phaseDeg.value));
    }
  }
}
