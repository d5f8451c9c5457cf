/** The measurement arithmetic: drive voltage at the load, the tone's
    spectral bin and band, the parabolic peak refinement, and single- and
    dual-channel gain with their floors and phase fallbacks. The FFT,
    window, logarithms and trigonometry are the uninterpreted functions of
    `Numerics`; what is proved is index safety, floors, guards and which
    branch is taken. */
module SignalProcessing {
  import opened Wrappers
  import opened PyNumbers
  import opened Numerics

  /** Source resistance of the generator, in ohms. */
  const SourceOhms: real := 50.0
  /** Input resistance of a high-impedance oscilloscope input, in ohms. */
  const HighZOhms: real := 1000000.0

  /** `calc_vin_peak`: half the voltage the generator develops across the
      oscilloscope's input, its open-circuit voltage being twice the panel
      value for a 50 Ω output. */
  function CalcVinPeak(vppPanel: real, awgImpedance: string, oscImpedance: string): (v: real)
    ensures awgImpedance == "50" && oscImpedance == "50" ==> v == vppPanel / 2.0
    ensures vppPanel >= 0.0 ==> 0.0 <= v <= vppPanel
    ensures v == vppPanel * VinFactor(awgImpedance, oscImpedance)
  {
    var loadR := if oscImpedance == "50" then 50.0 else HighZOhms;
    var voc := if awgImpedance == "50" then 2.0 * vppPanel else vppPanel;
    var vload := voc * loadR / (SourceOhms + loadR);
    0.5 * vload
  }

  /** The ratio of peak drive to panel peak-to-peak voltage for each
      pairing of impedances, between 0 and 1. */
  function VinFactor(awgImpedance: string, oscImpedance: string): (k: real)
    ensures 0.0 < k <= 1.0
  {
    var loadR := if oscImpedance == "50" then 50.0 else HighZOhms;
    var open := if awgImpedance == "50" then 2.0 else 1.0;
    0.5 * open * loadR / (SourceOhms + loadR)
  }

  /** A larger panel voltage never gives a smaller drive. */
  lemma VinPeakMonotone(a: real, b: real, awgImpedance: string, oscImpedance: string)
    requires a <= b
    ensures CalcVinPeak(a, awgImpedance, oscImpedance) <= CalcVinPeak(b, awgImpedance, oscImpedance)
  {
    var k := VinFactor(awgImpedance, oscImpedance);
    assert (b - a) * k >= 0.0;
  }

  /** Floors of the peak refinement: logarithms are taken of at least
      1e-30, and a curvature below 1e-12 means no refinement. */
  const LogFloor: real := 0.000000000000000000000000000001
  const CurvatureFloor: real := 0.000000000001

  /** The vertex offset of the parabola through three log-magnitudes,
      or 0 when they are nearly collinear. */
  function VertexOffset(l1: real, l0: real, lp: real): (d: real)
    ensures Abs(l1 - 2.0 * l0 + lp) < CurvatureFloor ==> d == 0.0
  {
    var denominator := l1 - 2.0 * l0 + lp;
    if Abs(denominator) < CurvatureFloor then 0.0 else 0.5 * (l1 - lp) / denominator
  }

  /** `_parabolic_interp_delta`: the vertex offset of the logarithms of
      the magnitudes, each floored at 1e-30. */
  function ParabolicDelta(num: Numerics, m1: real, m0: real, p1: real): real
  {
    VertexOffset(num.ln(Max(m1, LogFloor)), num.ln(Max(m0, LogFloor)), num.ln(Max(p1, LogFloor)))
  }

  /** Equal neighbours put the vertex on the middle bin. */
  lemma ParabolicDeltaSymmetric(num: Numerics, m: real, m0: real)
    ensures ParabolicDelta(num, m, m0, m) == 0.0
  {
  }

  lemma NegateQuotient(x: real, d: real)
    requires d != 0.0
    ensures (-x) / d == -(x / d)
  {
  }

  lemma VertexMirror(l1: real, l0: real, lp: real)
    ensures VertexOffset(lp, l0, l1) == -VertexOffset(l1, l0, lp)
  {
    var den := l1 - 2.0 * l0 + lp;
    assert lp - 2.0 * l0 + l1 == den;
    if Abs(den) >= CurvatureFloor {
      assert 0.5 * (lp - l1) == -(0.5 * (l1 - lp));
      NegateQuotient(0.5 * (l1 - lp), den);
    }
  }

  /** Swapping the neighbours mirrors the offset. */
  lemma ParabolicDeltaMirror(num: Numerics, m1: real, m0: real, p1: real)
    ensures ParabolicDelta(num, p1, m0, m1) == -ParabolicDelta(num, m1, m0, p1)
  {
    VertexMirror(num.ln(Max(m1, LogFloor)), num.ln(Max(m0, LogFloor)), num.ln(Max(p1, LogFloor)));
  }

  /** `np.abs(x - target)`. */
  function Distance(x: real, target: real): real {
    Abs(x - target)
  }

  /** `np.argmin(np.abs(xs - target))`: the first index of least distance. */
  function ArgMin(xs: seq<real>, target: real): (k: nat)
    requires xs != []
    ensures k < |xs|
    ensures forall j :: 0 <= j < |xs| ==> Distance(xs[k], target) <= Distance(xs[j], target)
    ensures forall j :: 0 <= j < k ==> Distance(xs[j], target) > Distance(xs[k], target)
  {
    if |xs| == 1 then 0
    else
      var k := ArgMin(xs[..|xs| - 1], target);
      var last := |xs| - 1;
      if Distance(xs[last], target) < Distance(xs[k], target) then last else k
  }

  /** `np.fft.rfftfreq(n, d)`: bin i sits at i / (n d). */
  function BinFreqs(n: nat, d: real): (fs: seq<real>)
    requires n > 0 && d != 0.0
    ensures |fs| == n / 2 + 1
    ensures forall i :: 0 <= i < |fs| ==> fs[i] == (i as real) / ((n as real) * d)
  {
    seq(n / 2 + 1, (i: int) => (i as real) / ((n as real) * d))
  }

  /** `np.fft.rfft` of the windowed, mean-removed record: n/2 + 1 bins. */
  function Spectrum(num: Numerics, volts: seq<real>): (s: seq<Complex>)
    ensures |s| == |volts| / 2 + 1
  {
    seq(|volts| / 2 + 1, (k: int) => num.fftBin(volts, k))
  }

  /** What `_tone_metrics` computes, with the bin, offset and refined
      frequency it picks along the way. */
  datatype Tone = Tone(
    amplitude: real,
    phaseDeg: real,
    phasor: Complex,
    spectrum: seq<Complex>,
    lo: nat,
    hi: nat,
    k0: nat,
    delta: real,
    fHat: real)

  /** The five-bin band around the peak, as a slice `spectrum[lo:hi]`. */
  function Band(t: Tone): seq<Complex>
    requires t.lo <= t.hi <= |t.spectrum|
  {
    t.spectrum[t.lo..t.hi]
  }

  /** Below this magnitude a phasor's angle is not trusted. */
  const PhasorFloor: real := 0.000000000000001

  /** `lo = max(0, k0 - 2)`, `hi = min(len, k0 + 3)`: at most five bins
      around the peak, inside the spectrum. */
  function PeakBand(k0: nat, len: nat): (b: (nat, nat))
    requires k0 < len
    ensures b.0 <= k0 < b.1 <= len && b.1 - b.0 <= 5
    ensures b.0 == (if k0 >= 2 then k0 - 2 else 0)
    ensures b.1 == (if len <= k0 + 3 then len else k0 + 3)
  {
    (if k0 >= 2 then k0 - 2 else 0, if len <= k0 + 3 then len else k0 + 3)
  }

  /** The parabolic offset of the peak bin, used only when both of its
      neighbours exist. */
  function PeakOffset(num: Numerics, spectrum: seq<Complex>, k0: nat): (d: real)
    requires k0 < |spectrum|
    ensures !(1 <= k0 <= |spectrum| - 2) ==> d == 0.0
    ensures 1 <= k0 <= |spectrum| - 2 ==>
      d == ParabolicDelta(num, num.Abs(spectrum[k0 - 1]), num.Abs(spectrum[k0]), num.Abs(spectrum[k0 + 1]))
  {
    if 1 <= k0 <= |spectrum| - 2 then
      ParabolicDelta(num, num.Abs(spectrum[k0 - 1]), num.Abs(spectrum[k0]), num.Abs(spectrum[k0 + 1]))
    else 0.0
  }

  /** The peak bin's frequency moved by the offset in bin widths; a
      lone bin is taken as it is. */
  function RefinedFreq(freqs: seq<real>, k0: nat, delta: real): (f: real)
    requires k0 < |freqs|
    ensures |freqs| == 1 ==> f == freqs[k0]
    ensures delta == 0.0 ==> f == freqs[k0]
  {
    if |freqs| > 1 then freqs[k0] + delta * (freqs[1] - freqs[0]) else freqs[k0]
  }

  /** The angle of the tone, or of the band sum when the tone is below
      the floor. */
  function ToneAngle(num: Numerics, tone: Complex, band: seq<Complex>): (a: real)
    ensures AbsBelow(tone, PhasorFloor) ==> a == num.Angle(Sum(band))
    ensures !AbsBelow(tone, PhasorFloor) ==> a == num.Angle(tone)
  {
    if AbsBelow(tone, PhasorFloor) then num.Angle(Sum(band)) else num.Angle(tone)
  }

  /** The band amplitude: the scaled root of the band energy, floored. */
  function BandAmplitude(num: Numerics, n: nat, band: seq<Complex>): real {
    num.ampScale(n) * num.sqrt(Max(Energy(band), LogFloor))
  }

  /** The shape every tone has: a band inside the spectrum around the
      peak bin, and no refinement without two neighbours. */
  predicate ToneShape(t: Tone) {
    && t.lo <= t.k0 < t.hi <= |t.spectrum|
    && t.hi - t.lo <= 5
    && t.lo == (if t.k0 >= 2 then t.k0 - 2 else 0)
    && t.hi == (if |t.spectrum| <= t.k0 + 3 then |t.spectrum| else t.k0 + 3)
    && (!(1 <= t.k0 <= |t.spectrum| - 2) ==> t.delta == 0.0)
  }

  /** The tone of a record with at least one sample and a non-zero
      spacing between its first two time stamps. */
  function MakeTone(num: Numerics, times: seq<real>, volts: seq<real>, targetHz: real): (t: Tone)
    requires |volts| > 0 && |times| >= 2 && times[1] - times[0] != 0.0
    ensures ToneShape(t)
    ensures t.spectrum == Spectrum(num, volts)
    ensures t.k0 == ArgMin(BinFreqs(|volts|, times[1] - times[0]), targetHz)
    ensures |volts| / 2 + 1 == 1 ==> t.fHat == BinFreqs(|volts|, times[1] - times[0])[t.k0]
    ensures t.amplitude == BandAmplitude(num, |volts|, t.spectrum[t.lo..t.hi])
    ensures t.phasor == num.Polar(t.amplitude, ToneAngle(num, num.toneAt(times, volts, t.fHat), t.spectrum[t.lo..t.hi]))
  {
    var n := |volts|;
    var spectrum := Spectrum(num, volts);
    var freqs := BinFreqs(n, times[1] - times[0]);
    var k0 := ArgMin(freqs, targetHz);
    var band := PeakBand(k0, |spectrum|);
    var amplitude := BandAmplitude(num, n, spectrum[band.0..band.1]);
    var delta := PeakOffset(num, spectrum, k0);
    var fHat := RefinedFreq(freqs, k0, delta);
    var angle := ToneAngle(num, num.toneAt(times, volts, fHat), spectrum[band.0..band.1]);
    Tone(amplitude, num.Degrees(angle), num.Polar(amplitude, angle), spectrum, band.0, band.1, k0, delta, fHat)
  }

  /** `_tone_metrics`. An empty record fails in the FFT, fewer than two
      time stamps fail when the sample spacing is read, and a zero spacing
      gives no bin frequencies. The tone at the refined frequency multiplies
      the windowed samples by a phase per time stamp, so the two arrays must
      broadcast: as many samples as time stamps, or a single sample. */
  function ToneMetrics(num: Numerics, times: seq<real>, volts: seq<real>, targetHz: real): (r: Result<Tone>)
    ensures r.Ok? <==> && |volts| > 0 && |times| >= 2 && times[1] - times[0] != 0.0
                       && (|volts| == 1 || |volts| == |times|)
    ensures |volts| > 0 && |times| >= 2 && times[1] - times[0] != 0.0 && |volts| != 1 && |volts| != |times|
      ==> r.Err? && r.error.kind == ValueError
    ensures r.Ok? ==> ToneShape(r.value)
  {
    if |volts| == 0 then Raise(ValueError, "Invalid number of FFT data points")
    else if |times| < 2 then Raise(IndexError, "index out of range")
    else if times[1] - times[0] == 0.0 then Raise(ZeroDivisionError, "zero sample spacing")
    else if |volts| != 1 && |volts| != |times| then
      Raise(ValueError, "operands could not be broadcast together")
    else Ok(MakeTone(num, times, volts, targetHz))
  }

  /** Gain, its decibel value, and the optional phase and complex gain. */
  datatype Measurement = Measurement(
    gainLinear: real,
    gainDb: real,
    phaseDeg: Option<real>,
    gainComplex: Option<Complex>)

  /** `measure_single_channel`: amplitude over the drive, both floored at
      1e-15, so the decibel value is always defined. */
  function MeasureSingleChannel(num: Numerics, times: seq<real>, volts: seq<real>, targetHz: real,
                                vinPeak: real, computePhase: bool): (r: Result<Measurement>)
    ensures r.Ok? <==> ToneMetrics(num, times, volts, targetHz).Ok?
    ensures r.Ok? ==> var t := ToneMetrics(num, times, volts, targetHz).value;
      && r.value.gainLinear >= PhasorFloor
      && r.value.gainLinear == Max(t.amplitude / Max(vinPeak, PhasorFloor), PhasorFloor)
      && r.value.gainDb == num.Db(r.value.gainLinear)
      && (r.value.phaseDeg.None? <==> !computePhase)
      && (r.value.gainComplex.None? <==> !computePhase)
      && (computePhase ==> r.value.phaseDeg == Some(t.phaseDeg)
                           && r.value.gainComplex == Some(t.phasor.Scale(1.0 / Max(vinPeak, PhasorFloor))))
  {
    var t :- ToneMetrics(num, times, volts, targetHz);
    var vin := Max(vinPeak, PhasorFloor);
    var gain := Max(t.amplitude / vin, PhasorFloor);
    if !computePhase then Ok(Measurement(gain, num.Db(gain), None, None))
    else Ok(Measurement(gain, num.Db(gain), Some(t.phaseDeg), Some(t.phasor.Scale(1.0 / vin))))
  }

  /** The phasors the dual-channel ratio uses: as measured, unless either
      is below the floor, in which case both are rebuilt from the angle of
      their five-bin band sums. */
  function DualPhasors(num: Numerics, test: Tone, ref: Tone): (p: (Complex, Complex))
    requires test.lo <= test.hi <= |test.spectrum| && ref.lo <= ref.hi <= |ref.spectrum|
    ensures !AbsBelow(test.phasor, PhasorFloor) && !AbsBelow(ref.phasor, PhasorFloor) ==> p == (test.phasor, ref.phasor)
    ensures AbsBelow(test.phasor, PhasorFloor) || AbsBelow(ref.phasor, PhasorFloor) ==>
      p.0 == num.Polar(test.amplitude, num.Angle(Sum(Band(test))))
      && p.1 == num.Polar(ref.amplitude, num.Angle(Sum(Band(ref))))
  {
    if AbsBelow(test.phasor, PhasorFloor) || AbsBelow(ref.phasor, PhasorFloor) then
      (num.Polar(test.amplitude, num.Angle(Sum(Band(test)))), num.Polar(ref.amplitude, num.Angle(Sum(Band(ref)))))
    else (test.phasor, ref.phasor)
  }

  /** The divisor of the dual-channel ratio: the reference phasor, or
      1e-15 when its magnitude is not above that. */
  function SafeReference(pr: Complex): (d: Complex)
    ensures d.Norm() > 0.0
    ensures pr.Norm() > PhasorFloor * PhasorFloor ==> d == pr
    ensures pr.Norm() <= PhasorFloor * PhasorFloor ==> d == Complex(PhasorFloor, 0.0)
  {
    if pr.Norm() > PhasorFloor * PhasorFloor then pr else Complex(PhasorFloor, 0.0)
  }

  /** `measure_dual_channel`: the test phasor over the reference phasor,
      the reference replaced by 1e-15 when its magnitude is not above that,
      and the gain floored at 1e-15. */
  function MeasureDualChannel(num: Numerics, timesTest: seq<real>, voltsTest: seq<real>,
                              timesRef: seq<real>, voltsRef: seq<real>, targetHz: real): (r: Result<Measurement>)
    ensures r.Ok? <==> ToneMetrics(num, timesTest, voltsTest, targetHz).Ok? && ToneMetrics(num, timesRef, voltsRef, targetHz).Ok?
    ensures r.Ok? ==> r.value.gainLinear >= PhasorFloor && r.value.phaseDeg.Some? && r.value.gainComplex.Some?
    ensures r.Ok? ==>
      var p := DualPhasors(num, ToneMetrics(num, timesTest, voltsTest, targetHz).value,
                           ToneMetrics(num, timesRef, voltsRef, targetHz).value);
      var g := r.value.gainComplex.value;
      && g == Div(p.0, SafeReference(p.1))
      && r.value.gainLinear == Max(num.Abs(g), PhasorFloor)
      && r.value.phaseDeg == Some(num.Degrees(num.Angle(g)))
  {
    var t :- ToneMetrics(num, timesTest, voltsTest, targetHz);
    var f :- ToneMetrics(num, timesRef, voltsRef, targetHz);
    var p := DualPhasors(num, t, f);
    var g := Div(p.0, SafeReference(p.1));
    var gain := Max(num.Abs(g), PhasorFloor);
    Ok(Measurement(gain, num.Db(gain), Some(num.Degrees(num.Angle(g))), Some(g)))
  }
}
