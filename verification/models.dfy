/** The domain records of the sweeper: sweep plan, channel selection, run
    mode, instrument setup, application settings, and the measured points
    with the sweep result that collects them. */
module Models {
  import opened Wrappers
  import opened Enums
  import opened Numerics

  datatype SweepSpec = SweepSpec(
    startHz: real,
    stopHz: real,
    stepHz: Option<real>,
    stepCount: Option<int>,
    isLog: bool)

  datatype ChannelSelection = ChannelSelection(
    awgCh: int,
    oscTestCh: int,
    oscRefCh: Option<int>,
    oscTrigCh: Option<int>)

  datatype RunMode = RunMode(
    correctionMode: CorrectionMode,
    triggerMode: TriggerMode,
    autoRange: bool,
    autoReset: bool)

  datatype InstrumentEndpoint = InstrumentEndpoint(
    model: string,
    connectMode: ConnectionMode,
    visaAddress: string,
    ipAddress: string)

  datatype AwgSettings = AwgSettings(amplitudeVpp: real, impedance: ImpedanceMode)

  datatype OscSettings = OscSettings(
    fullScaleV: real,
    offsetV: real,
    points: int,
    impedance: ImpedanceMode,
    coupling: CouplingMode)

  datatype InstrumentSetup = InstrumentSetup(
    awg: InstrumentEndpoint,
    osc: InstrumentEndpoint,
    channels: ChannelSelection,
    awgSettings: AwgSettings,
    oscSettings: OscSettings)

  datatype AppSettings = AppSettings(
    schemaVersion: int,
    freqUnit: string,
    sweep: SweepSpec,
    runMode: RunMode,
    setup: InstrumentSetup,
    magnitudePhaseMode: MagnitudePhaseMode,
    autoSaveData: bool)

  /** One measured frequency point; phase and complex gain are optional. */
  datatype SweepPoint = SweepPoint(
    freqHz: real,
    gainLinear: real,
    gainDb: real,
    phaseDeg: Option<real>,
    gainComplex: Option<Complex>)

  /** `SweepPoint(freq, gain, gain_db)`: phase and complex gain default to `None`. */
  function MagnitudePoint(freqHz: real, gainLinear: real, gainDb: real): (p: SweepPoint)
    ensures p.phaseDeg.None? && p.gainComplex.None?
    ensures p.freqHz == freqHz && p.gainLinear == gainLinear && p.gainDb == gainDb
  {
    SweepPoint(freqHz, gainLinear, gainDb, None, None)
  }

  /** A measured reference response: gain in dB and optional phase per
      frequency. */
  datatype ReferenceCurve = ReferenceCurve(freqHz: seq<real>, gainDb: seq<real>, phaseDeg: Option<seq<real>>)

  /** A value stored in a result's metadata. Timestamps are not modelled:
      a stamp records only which moment it marks. */
  datatype MetaValue = MetaText(text: string) | MetaInt(n: int) | MetaStamp

  datatype SweepResult = SweepResult(points: seq<SweepPoint>, meta: map<string, MetaValue>)

  /** `SweepResult()`: no points and no metadata. */
  const EmptyResult: SweepResult := SweepResult([], map[])

  /** `SweepResult.append`. */
  function Append(r: SweepResult, p: SweepPoint): (r': SweepResult)
    ensures |r'.points| == |r.points| + 1 && r'.points[|r.points|] == p
    ensures r'.points[..|r.points|] == r.points && r'.meta == r.meta
  {
    SweepResult(r.points + [p], r.meta)
  }

  /** `SweepResult.is_empty`. */
  predicate IsEmpty(r: SweepResult) {
    |r.points| == 0
  }

  /** `[f(p) for p in points]`. */
  function Project<T>(points: seq<SweepPoint>, f: SweepPoint -> T): (a: seq<T>)
    ensures |a| == |points|
    ensures forall i :: 0 <= i < |points| ==> a[i] == f(points[i])
  {
    if points == [] then [] else Project(points[..|points| - 1], f) + [f(points[|points| - 1])]
  }

  /** `[v for v in values if v is not None]`. */
  function Present<T>(values: seq<Option<T>>): (a: seq<T>)
    ensures |a| <= |values|
  {
    if values == [] then []
    else
      var rest := Present(values[1..]);
      match values[0]
      case Some(v) => [v] + rest
      case None => rest
  }

  /** Filtering keeps the order: it distributes over concatenation. */
  lemma {:induction false} PresentAppend<T>(xs: seq<Option<T>>, ys: seq<Option<T>>)
    ensures Present(xs + ys) == Present(xs) + Present(ys)
  {
    if xs == [] {
      assert xs + ys == ys;
    } else {
      assert (xs + ys)[1..] == xs[1..] + ys;
      PresentAppend(xs[1..], ys);
    }
  }

  /** A value is kept iff some entry holds it; nothing is kept iff every
      entry is `None`. */
  lemma {:induction false} PresentMembers<T>(values: seq<Option<T>>)
    ensures forall v :: v in Present(values) <==> Some(v) in values
    ensures Present(values) == [] <==> forall i :: 0 <= i < |values| ==> values[i].None?
    ensures |Present(values)| == |values| <==> forall i :: 0 <= i < |values| ==> values[i].Some?
  {
    if values != [] {
      PresentMembers(values[1..]);
      assert values == [values[0]] + values[1..];
      if values[0].None? {
        assert |Present(values)| < |values|;
      }
    }
  }

  function FreqArray(r: SweepResult): (a: seq<real>)
    ensures |a| == |r.points|
    ensures forall i :: 0 <= i < |a| ==> a[i] == r.points[i].freqHz
  {
    Project(r.points, (p: SweepPoint) => p.freqHz)
  }

  function GainArray(r: SweepResult): (a: seq<real>)
    ensures |a| == |r.points|
    ensures forall i :: 0 <= i < |a| ==> a[i] == r.points[i].gainLinear
  {
    Project(r.points, (p: SweepPoint) => p.gainLinear)
  }

  function GainDbArray(r: SweepResult): (a: seq<real>)
    ensures |a| == |r.points|
    ensures forall i :: 0 <= i < |a| ==> a[i] == r.points[i].gainDb
  {
    Project(r.points, (p: SweepPoint) => p.gainDb)
  }

  function PhaseArray(r: SweepResult): (a: seq<real>)
    ensures |a| <= |r.points|
  {
    Present(Project(r.points, (p: SweepPoint) => p.phaseDeg))
  }

  function ComplexArray(r: SweepResult): (a: seq<Complex>)
    ensures |a| <= |r.points|
  {
    Present(Project(r.points, (p: SweepPoint) => p.gainComplex))
  }

  /** The phase array holds exactly the phases the points carry, and is
      empty iff no point has one. */
  lemma PhaseArrayMembers(r: SweepResult)
    ensures forall x :: x in PhaseArray(r) <==> exists i :: 0 <= i < |r.points| && r.points[i].phaseDeg == Some(x)
    ensures PhaseArray(r) == [] <==> forall i :: 0 <= i < |r.points| ==> r.points[i].phaseDeg.None?
  {
    var ps := Project(r.points, (p: SweepPoint) => p.phaseDeg);
    PresentMembers(ps);
    forall x ensures Some(x) in ps <==> exists i :: 0 <= i < |r.points| && r.points[i].phaseDeg == Some(x) {
      if Some(x) in ps {
        var i :| 0 <= i < |ps| && ps[i] == Some(x);
        assert r.points[i].phaseDeg == Some(x);
      }
    }
  }

  /** The complex-gain array holds exactly the complex gains the points
      carry, and is empty iff no point has one. */
  lemma ComplexArrayMembers(r: SweepResult)
    ensures forall z :: z in ComplexArray(r) <==> exists i :: 0 <= i < |r.points| && r.points[i].gainComplex == Some(z)
    ensures ComplexArray(r) == [] <==> forall i :: 0 <= i < |r.points| ==> r.points[i].gainComplex.None?
  {
    var zs := Project(r.points, (p: SweepPoint) => p.gainComplex);
    PresentMembers(zs);
    forall z ensures Some(z) in zs <==> exists i :: 0 <= i < |r.points| && r.points[i].gainComplex == Some(z) {
      if Some(z) in zs {
        var i :| 0 <= i < |zs| && zs[i] == Some(z);
        assert r.points[i].gainComplex == Some(z);
      }
    }
  }

  /** Appending a point extends every array by that point's entry, and
      leaves the earlier entries alone. */
  lemma ArraysAfterAppend(r: SweepResult, p: SweepPoint)
    ensures FreqArray(Append(r, p)) == FreqArray(r) + [p.freqHz]
    ensures GainArray(Append(r, p)) == GainArray(r) + [p.gainLinear]
    ensures GainDbArray(Append(r, p)) == GainDbArray(r) + [p.gainDb]
    ensures PhaseArray(Append(r, p)) == PhaseArray(r) + (if p.phaseDeg.Some? then [p.phaseDeg.value] else [])
    ensures ComplexArray(Append(r, p)) == ComplexArray(r) + (if p.gainComplex.Some? then [p.gainComplex.value] else [])
    ensures !IsEmpty(Append(r, p))
  {
    var f := (q: SweepPoint) => q.phaseDeg;
    var g := (q: SweepPoint) => q.gainComplex;
    var ps := r.points + [p];
    assert ps[..|ps| - 1] == r.points;
    assert Project(ps, f) == Project(r.points, f) + [p.phaseDeg];
    assert Project(ps, g) == Project(r.points, g) + [p.gainComplex];
    PresentAppend(Project(r.points, f), [p.phaseDeg]);
    PresentAppend(Project(r.points, g), [p.gainComplex]);
  }
}
