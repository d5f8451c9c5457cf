/** The legacy per-channel logic: the AWG channel's sweep generator and the
    start/stop/centre/span field arithmetic, the oscilloscope channel's
    impedance/coupling guard and scale conversions, and `copy_from`.
    Tk variables are plain values here; a handler returns the values it
    writes back. */
module Channel {
  import opened Wrappers
  import opened PyNumbers
  import opened Numerics
  import opened CvtTools
  import opened SweepEngine
  import opened Text

  /** The floor applied to parsed start and stop frequencies (1e-12 Hz). */
  const MinFreq: real := 0.000000000001

  /** The slack the legacy linear loop allows past the stop frequency (1e-6 Hz). */
  const LinearSlack: real := 0.000001

  /** The text fields of an AWG channel's sweep panel, with its unit and
      its own log-sweep switch. */
  datatype AwgFields = AwgFields(
    start: string,
    stop: string,
    step: string,
    stepNum: string,
    center: string,
    interval: string,
    unit: string,
    isLog: bool)

  /** `x if x is not None else field`. */
  function Pick(arg: Option<string>, field: string): (s: string)
    ensures arg.Some? ==> s == arg.value
    ensures arg.None? ==> s == field
  {
    match arg
    case Some(x) => x
    case None => field
  }

  /** `max(parse_to_hz(text, unit), 1e-12)`. */
  function ClampedHz(text: string, unit: string): (f: real)
    ensures f >= MinFreq
    ensures f == MinFreq || f == ParseToHz(text, unit).Value()
    ensures ParseToHz(text, unit).Value() > MinFreq ==> f == ParseToHz(text, unit).Value()
  {
    Max(ParseToHz(text, unit).Value(), MinFreq)
  }

  /** `int(max(1, round(parse_general_val(step_num))))`: at least one, and
      the rounded count when that is positive. */
  function LogSteps(stepNum: string): (n: nat)
    ensures n >= 1
    ensures RoundHalfEven(ParseGeneralVal(stepNum, None).Value()) >= 1 ==>
      n == RoundHalfEven(ParseGeneralVal(stepNum, None).Value())
    ensures RoundHalfEven(ParseGeneralVal(stepNum, None).Value()) < 1 ==> n == 1
  {
    var k := RoundHalfEven(ParseGeneralVal(stepNum, None).Value());
    if k >= 1 then k else 1
  }

  /** The log branch: `n` log-spaced points from start to stop; when the
      start was clamped to the floor, `n + 1` are generated and the first
      one dropped. */
  function LogPoints(num: Numerics, start: real, stop: real, n: nat): (xs: seq<real>)
    requires n >= 1
    ensures |xs| == n
    ensures start != MinFreq ==> xs[0] == num.pow10(num.log10(start))
    ensures start == MinFreq ==>
      xs == LogSpace(num, num.log10(start), num.log10(stop), n + 1)[1..]
    ensures n > 1 || start == MinFreq ==> xs[n - 1] == num.pow10(num.log10(stop))
  {
    if start == MinFreq then LogSpace(num, num.log10(start), num.log10(stop), n + 1)[1..]
    else LogSpace(num, num.log10(start), num.log10(stop), n)
  }

  /** What the linear loop does: a list of points, or no answer at all. */
  datatype SweepOutcome = Points(freqs: seq<real>) | Hangs

  /** The loop `while stop - cur >= -1e-6: append(cur); cur += step`. It
      stops only when the step is positive or the start is already past the
      stop; then the points are `start + k·step` for exactly the `k` that
      stay within the slack, and the first point left out is past it. */
  method LinearLoop(start: real, stop: real, step: real) returns (r: SweepOutcome)
    ensures r.Hangs? <==> step <= 0.0 && stop - start >= -LinearSlack
    ensures r.Points? ==> var xs := r.freqs;
      && (xs == [] <==> stop - start < -LinearSlack)
      && (forall k :: 0 <= k < |xs| ==> xs[k] == Nth(start, step, k) && stop - xs[k] >= -LinearSlack)
      && stop - Nth(start, step, |xs|) < -LinearSlack
  {
    if stop - start < -LinearSlack {
      return Points([]);
    }
    if step <= 0.0 {
      return Hangs;
    }
    var n := CountWithin(start, stop + LinearSlack, step);
    var values := [];
    var current := start;
    while stop - current >= -LinearSlack
      invariant |values| <= n
      invariant current == Nth(start, step, |values|)
      invariant forall k :: 0 <= k < |values| ==> values[k] == Nth(start, step, k) && stop - values[k] >= -LinearSlack
      decreases n - |values|
    {
      WithinCount(start, stop + LinearSlack, step, |values|);
      values := values + [current];
      current := current + step;
    }
    WithinCount(start, stop + LinearSlack, step, 0);
    r := Points(values);
  }

  /** `AWG_Channel.get_sweep_freq_points`. Every text argument falls back
      to its field when absent. The log/linear choice reads the channel's
      own switch: the `isLogArg` argument is accepted and never consulted.
      A log sweep has `LogSteps` points; a linear sweep whose start was
      clamped starts at the step instead, and an exactly equal start and
      stop give that single point; otherwise the linear points are every
      `first + k·step` up to the first one past the slack, and no more. */
  method GetSweepFreqPoints(num: Numerics, fields: AwgFields,
                            startArg: Option<string>, stopArg: Option<string>,
                            stepArg: Option<string>, stepNumArg: Option<string>,
                            isLogArg: Option<bool>) returns (r: SweepOutcome)
    ensures var start := ClampedHz(Pick(startArg, fields.start), fields.unit);
      var stop := ClampedHz(Pick(stopArg, fields.stop), fields.unit);
      var step := ParseToHz(Pick(stepArg, fields.step), fields.unit).Value();
      var first := if start == MinFreq then step else start;
      && (fields.isLog ==> r == Points(LogPoints(num, start, stop, LogSteps(Pick(stepNumArg, fields.stepNum)))))
      && (fields.isLog ==> r.Points? && |r.freqs| == LogSteps(Pick(stepNumArg, fields.stepNum)))
      && (fields.isLog && start != MinFreq ==> r.freqs[0] == num.pow10(num.log10(start)))
      && (!fields.isLog && first == stop ==> r == Points([stop]))
      && (!fields.isLog && first != stop ==>
            (r.Hangs? <==> step <= 0.0 && stop - first >= -LinearSlack)
            && (r.Points? ==> forall k :: 0 <= k < |r.freqs| ==>
                  r.freqs[k] == Nth(first, step, k) && r.freqs[k] <= stop + LinearSlack)
            && (r.Points? ==> (r.freqs == [] <==> stop - first < -LinearSlack)
                              && stop - Nth(first, step, |r.freqs|) < -LinearSlack))
  {
    var start := ClampedHz(Pick(startArg, fields.start), fields.unit);
    var stop := ClampedHz(Pick(stopArg, fields.stop), fields.unit);
    if fields.isLog {
      var n := LogSteps(Pick(stepNumArg, fields.stepNum));
      return Points(LogPoints(num, start, stop, n));
    }
    var step := ParseToHz(Pick(stepArg, fields.step), fields.unit).Value();
    var first := if start == MinFreq then step else start;
    if first == stop {
      return Points([first]);
    }
    r := LinearLoop(first, stop, step);
  }

  /** A displayed field: blank, or `str(x)` of the float `x`. The rendering
      itself is not modelled. */
  datatype Field = Blank | Shown(value: real)

  /** The field shows `hz` in units of `factor`, rounded to two places. */
  predicate ShowsRounded(f: Field, hz: real, factor: real)
    requires factor > 0.0
  {
    f.Shown? && Abs(f.value - hz / factor) <= 0.005
  }

  /** The centre of a start/stop pair, in Hz. */
  function Centre(start: real, stop: real): real {
    (start + stop) / 2.0
  }

  /** The span of a start/stop pair, in Hz. */
  function Span(start: real, stop: real): real {
    Abs(start - stop)
  }

  /** The start and stop a centre and span give, ascending or descending. */
  datatype Edges = Edges(start: real, stop: real)

  function EdgesOf(centre: real, span: real, ascending: bool): (e: Edges)
    ensures e.start + e.stop == 2.0 * centre
    ensures ascending ==> e.stop - e.start == span
    ensures !ascending ==> e.start - e.stop == span
  {
    if ascending then Edges(centre - span / 2.0, centre + span / 2.0)
    else Edges(centre + span / 2.0, centre - span / 2.0)
  }

  /** The sweep fields read in Hz, with the multiplier of the unit they
      are shown in. Every parse goes through `parse_to_hz`, which gives 0
      for text without a number instead of raising. */
  datatype Readings = Readings(start: real, stop: real, step: real,
                               center: real, interval: real, factor: real)

  /** The fields parsed in unit `unit`, to be shown in unit `shownIn`. */
  function Read(fields: AwgFields, unit: string, shownIn: string): (p: Readings)
    ensures p.factor > 0.0
  {
    Readings(ParseToHz(fields.start, unit).Value(), ParseToHz(fields.stop, unit).Value(),
             ParseToHz(fields.step, unit).Value(), ParseToHz(fields.center, unit).Value(),
             ParseToHz(fields.interval, unit).Value(), ConvertGeneralUnit(Some(shownIn)))
  }

  /** What the start- and stop-field handlers write: the centre and span. */
  datatype CentreSpan = CentreSpan(center: Field, interval: Field)

  /** The arithmetic of `change_on_start_freq` and `change_on_stop_freq`
      (identical bodies): the centre and span of start and stop, shown in
      the field's unit and rounded to two places. Nothing in it can raise,
      so their blanking `except` branch is not reachable. */
  function StartStopEdit(p: Readings): (r: CentreSpan)
    requires p.factor > 0.0
    ensures ShowsRounded(r.center, (p.start + p.stop) / 2.0, p.factor)
    ensures ShowsRounded(r.interval, Abs(p.start - p.stop), p.factor)
    ensures r.interval.value >= 0.0
  {
    var k := p.factor;
    var a := p.start;
    var b := p.stop;
    DivMono(0.0, Span(a, b), k);
    Round2Order(Span(a, b) / k, Span(a, b) / k);
    CentreSpan(Shown(Round2(Centre(a, b) / k)), Shown(Round2(Span(a, b) / k)))
  }

  /** The shown centre lies between the shown start and stop. */
  lemma CentreBetween(p: Readings)
    requires p.factor > 0.0 && p.start <= p.stop
    ensures Round2(p.start / p.factor) <= StartStopEdit(p).center.value <= Round2(p.stop / p.factor)
  {
    var k := p.factor;
    var a := p.start;
    var b := p.stop;
    DivMono(a, Centre(a, b), k);
    DivMono(Centre(a, b), b, k);
    Round2Order(a / k, Centre(a, b) / k);
    Round2Order(Centre(a, b) / k, b / k);
  }

  /** `change_on_start_freq` / `change_on_stop_freq` on the fields. */
  function OnStartStopEdit(fields: AwgFields): CentreSpan {
    StartStopEdit(Read(fields, fields.unit, fields.unit))
  }

  /** What the centre- and span-field handlers write: start and stop, and
      the other of centre/span when it had to be corrected. */
  datatype EdgeEdit = EdgeEdit(start: Field, stop: Field, rewritten: Option<real>)

  /** The span a centre edit keeps: at most twice the centre. */
  function CappedSpan(centre: real, span: real): (s: real)
    ensures s == Min(span, 2.0 * centre)
  {
    if span > centre * 2.0 then centre * 2.0 else span
  }

  /** The centre a span edit keeps: at least half the span. */
  function LiftedCentre(centre: real, span: real): (c: real)
    ensures c == Max(centre, span / 2.0)
  {
    if centre < span / 2.0 then span / 2.0 else centre
  }

  /** Start and stop from a centre and a span, keeping the orientation of
      the current start and stop, shown rounded to two places. */
  function ShownEdges(p: Readings, centre: real, span: real): (r: (Field, Field))
    requires p.factor > 0.0
    ensures var e := EdgesOf(centre, span, p.start <= p.stop);
      ShowsRounded(r.0, e.start, p.factor) && ShowsRounded(r.1, e.stop, p.factor)
  {
    var e := EdgesOf(centre, span, p.start <= p.stop);
    (Shown(Round2(e.start / p.factor)), Shown(Round2(e.stop / p.factor)))
  }

  /** The arithmetic of `change_on_center_freq`: a zero centre blanks
      start and stop (the `ValueError` path); otherwise a span above twice
      the centre is cut to it and written back unrounded, and start/stop
      become the centre ∓ half the kept span, in their old orientation. */
  function CentreEdit(p: Readings): (r: EdgeEdit)
    requires p.factor > 0.0
    ensures r.start.Blank? <==> p.center == 0.0
    ensures r.stop.Blank? <==> p.center == 0.0
    ensures r.rewritten.Some? <==> p.center != 0.0 && p.interval > 2.0 * p.center
    ensures r.rewritten.Some? ==> r.rewritten.value * p.factor == 2.0 * p.center
    ensures var c := p.center; var kept := Min(p.interval, 2.0 * c);
      && (c != 0.0 && p.start <= p.stop ==>
            ShowsRounded(r.start, c - kept / 2.0, p.factor) && ShowsRounded(r.stop, c + kept / 2.0, p.factor))
      && (c != 0.0 && p.start > p.stop ==>
            ShowsRounded(r.start, c + kept / 2.0, p.factor) && ShowsRounded(r.stop, c - kept / 2.0, p.factor))
  {
    var c := p.center;
    if c == 0.0 then EdgeEdit(Blank, Blank, None)
    else
      var kept := CappedSpan(c, p.interval);
      var rewritten := if p.interval > c * 2.0 then Some(kept / p.factor) else None;
      var edges := ShownEdges(p, c, kept);
      EdgeEdit(edges.0, edges.1, rewritten)
  }

  /** `change_on_center_freq` on the fields. */
  function OnCentreEdit(fields: AwgFields): EdgeEdit {
    CentreEdit(Read(fields, fields.unit, fields.unit))
  }

  /** The arithmetic of `change_on_interval_freq`: a zero centre blanks
      start and stop; otherwise a centre below half the span is raised to
      it and written back unrounded, and start/stop become the kept centre
      ∓ half the span, in their old orientation. */
  function SpanEdit(p: Readings): (r: EdgeEdit)
    requires p.factor > 0.0
    ensures r.start.Blank? <==> p.center == 0.0
    ensures r.stop.Blank? <==> p.center == 0.0
    ensures r.rewritten.Some? <==> p.center != 0.0 && p.center < p.interval / 2.0
    ensures r.rewritten.Some? ==> r.rewritten.value * p.factor * 2.0 == p.interval
    ensures var i := p.interval; var kept := Max(p.center, i / 2.0);
      && (p.center != 0.0 && p.start <= p.stop ==>
            ShowsRounded(r.start, kept - i / 2.0, p.factor) && ShowsRounded(r.stop, kept + i / 2.0, p.factor))
      && (p.center != 0.0 && p.start > p.stop ==>
            ShowsRounded(r.start, kept + i / 2.0, p.factor) && ShowsRounded(r.stop, kept - i / 2.0, p.factor))
  {
    var c := p.center;
    if c == 0.0 then EdgeEdit(Blank, Blank, None)
    else
      var kept := LiftedCentre(c, p.interval);
      var rewritten := if c < p.interval / 2.0 then Some(kept / p.factor) else None;
      var edges := ShownEdges(p, kept, p.interval);
      EdgeEdit(edges.0, edges.1, rewritten)
  }

  /** `change_on_interval_freq` on the fields. */
  function OnSpanEdit(fields: AwgFields): EdgeEdit {
    SpanEdit(Read(fields, fields.unit, fields.unit))
  }

  /** Before rounding, the edges a centre/span pair gives have exactly
      that centre and the span's magnitude. */
  lemma EdgesKeepCentreSpan(centre: real, span: real, ascending: bool)
    ensures var e := EdgesOf(centre, span, ascending);
      Centre(e.start, e.stop) == centre && Span(e.start, e.stop) == Abs(span)
  {
  }

  /** For non-negative start and stop, the centre and span the start/stop
      handlers compute lead the centre and span handlers back to the same
      start and stop: neither the cap nor the lift applies. */
  lemma {:induction false} StartStopRoundTrip(a: real, b: real)
    requires a >= 0.0 && b >= 0.0
    ensures CappedSpan(Centre(a, b), Span(a, b)) == Span(a, b)
    ensures LiftedCentre(Centre(a, b), Span(a, b)) == Centre(a, b)
    ensures EdgesOf(Centre(a, b), Span(a, b), a <= b) == Edges(a, b)
  {
    if a <= b {
      assert Span(a, b) == b - a;
    } else {
      assert Span(a, b) == a - b;
    }
  }

  /** After a centre edit with a positive centre, or a span edit with a
      non-negative span, the lower edge is never below zero, so neither
      shown start nor shown stop is negative, and they keep the order of
      the start and stop they replace. */
  lemma {:induction false} EdgeEditsStayNonNegative(p: Readings)
    requires p.factor > 0.0
    ensures var r := CentreEdit(p);
      p.center > 0.0 && p.interval >= 0.0 ==>
        && r.start.value >= 0.0 && r.stop.value >= 0.0
        && (p.start <= p.stop ==> r.start.value <= r.stop.value)
        && (p.start > p.stop ==> r.start.value >= r.stop.value)
    ensures var r := SpanEdit(p);
      p.center != 0.0 && p.interval >= 0.0 ==>
        && r.start.value >= 0.0 && r.stop.value >= 0.0
        && (p.start <= p.stop ==> r.start.value <= r.stop.value)
        && (p.start > p.stop ==> r.start.value >= r.stop.value)
  {
    var asc := p.start <= p.stop;
    if p.center > 0.0 && p.interval >= 0.0 {
      EdgeBounds(p.center, CappedSpan(p.center, p.interval), p.factor, asc);
    }
    if p.center != 0.0 && p.interval >= 0.0 {
      EdgeBounds(LiftedCentre(p.center, p.interval), p.interval, p.factor, asc);
    }
  }

  /** The shown edges of a centre/span pair whose lower edge is not
      negative are both non-negative and ordered as the pair is. */
  lemma EdgeBounds(centre: real, span: real, k: real, ascending: bool)
    requires k > 0.0 && centre - span / 2.0 >= 0.0 && span >= 0.0
    ensures var e := EdgesOf(centre, span, ascending);
      && Round2(e.start / k) >= 0.0 && Round2(e.stop / k) >= 0.0
      && (ascending ==> Round2(e.start / k) <= Round2(e.stop / k))
      && (!ascending ==> Round2(e.start / k) >= Round2(e.stop / k))
  {
    var e := EdgesOf(centre, span, ascending);
    DivMono(0.0, e.start, k);
    DivMono(0.0, e.stop, k);
    Round2Order(e.start / k, e.stop / k);
    Round2Order(e.stop / k, e.start / k);
    if ascending {
      DivMono(e.start, e.stop, k);
    } else {
      DivMono(e.stop, e.start, k);
    }
  }

  /** What the unit handler writes: the five frequency fields in the new
      unit, each rounded to two places. */
  datatype UnitEdit = UnitEdit(start: Field, stop: Field, step: Field, center: Field, interval: Field)

  /** The arithmetic of `change_on_freq_unit`: start, stop and step,
      parsed in the previous unit, and the centre and span derived from
      them, all shown in the new unit. */
  function UnitChange(p: Readings): (r: UnitEdit)
    requires p.factor > 0.0
    ensures ShowsRounded(r.start, p.start, p.factor) && ShowsRounded(r.stop, p.stop, p.factor)
    ensures ShowsRounded(r.step, p.step, p.factor)
    ensures ShowsRounded(r.center, (p.start + p.stop) / 2.0, p.factor)
    ensures ShowsRounded(r.interval, Abs(p.start - p.stop), p.factor)
  {
    var k := p.factor;
    var cs := StartStopEdit(p);
    UnitEdit(Shown(Round2(p.start / k)), Shown(Round2(p.stop / k)), Shown(Round2(p.step / k)),
             cs.center, cs.interval)
  }

  /** `change_on_freq_unit` on the fields: the previous unit is the one
      remembered from the last change, or the current one when there is
      none yet; afterwards the new unit is remembered. */
  function OnUnitChange(fields: AwgFields, lastUnit: Option<string>, newUnit: string): (r: (UnitEdit, string))
    ensures r.1 == newUnit
  {
    (UnitChange(Read(fields, Pick(lastUnit, fields.unit), newUnit)), newUnit)
  }

  /** The oscilloscope channel's impedance and coupling fields. */
  datatype Link = Link(imp: string, coupling: string)

  const ImpR50: string := "50"
  const ImpHighZ: string := "INF"
  const CoupAc: string := "AC"
  const CoupDc: string := "DC"

  /** The combination the guards forbid: 50 Ω with AC coupling. */
  predicate Conflict(l: Link) {
    l.imp == ImpR50 && l.coupling == CoupAc
  }

  /** `trace_on_imp`: on a conflict the coupling falls back to DC. */
  function OnImpChange(l: Link): (r: Link)
    ensures !Conflict(r)
    ensures r.imp == l.imp
    ensures !Conflict(l) ==> r == l
    ensures Conflict(l) ==> r.coupling == CoupDc
  {
    if Conflict(l) then Link(l.imp, CoupDc) else l
  }

  /** `trace_on_coup`: on a conflict the impedance falls back to high-Z. */
  function OnCouplingChange(l: Link): (r: Link)
    ensures !Conflict(r)
    ensures r.coupling == l.coupling
    ensures !Conflict(l) ==> r == l
    ensures Conflict(l) ==> r.imp == ImpHighZ
  {
    if Conflict(l) then Link(ImpHighZ, l.coupling) else l
  }

  /** The impedance guard's own write to the coupling fires the coupling
      guard, which then has nothing to do; either guard twice is the
      guard once. */
  lemma GuardsSettle(l: Link)
    ensures OnCouplingChange(OnImpChange(l)) == OnImpChange(l)
    ensures OnImpChange(OnCouplingChange(l)) == OnCouplingChange(l)
    ensures OnImpChange(OnImpChange(l)) == OnImpChange(l)
  {
  }

  /** The vertical settings an oscilloscope holds for a channel:
      volts per division and offset. */
  datatype Vertical = Vertical(voltsPerDiv: real, offset: real)

  /** `OSC_Channel.set_y`: the full-scale range (eight divisions) and the
      offset are parsed as volts; the range is sent per division. */
  function SetY(rangeText: string, offsetText: string): (v: Vertical)
    ensures v.voltsPerDiv * 8.0 == ParseToV(rangeText).Value()
    ensures v.offset == ParseToV(offsetText).Value()
  {
    Vertical(ParseToV(rangeText).Value() / 8.0, ParseToV(offsetText).Value())
  }

  /** `OSC_Channel.get_y`: the full-scale range and offset read back. */
  function GetY(v: Vertical): (r: (real, real))
    ensures r.0 / 8.0 == v.voltsPerDiv && r.1 == v.offset
  {
    (v.voltsPerDiv * 8.0, v.offset)
  }

  /** On an instrument that stores what it is sent, reading the vertical
      settings back gives the parsed range and offset. */
  lemma VerticalRoundTrip(rangeText: string, offsetText: string)
    ensures GetY(SetY(rangeText, offsetText)) == (ParseToV(rangeText).Value(), ParseToV(offsetText).Value())
  {
  }

  /** The horizontal settings sent to the oscilloscope: seconds per
      division and the offset, which may be absent. */
  datatype Horizontal = Horizontal(secondsPerDiv: real, offset: Option<real>)

  /** `OSC_Channel.set_x`: the window (ten divisions) and offset fall back
      to the channel's own; with neither window there is nothing to divide
      and Python raises `TypeError`. */
  function SetX(xscale: Option<real>, xoffset: Option<real>,
                ownScale: Option<real>, ownOffset: Option<real>): (r: Result<Horizontal>)
    ensures r.Err? <==> xscale.None? && ownScale.None?
    ensures r.Err? ==> r.error.kind == TypeError
    ensures r.Ok? ==> r.value.secondsPerDiv * 10.0 == (if xscale.Some? then xscale.value else ownScale.value)
    ensures r.Ok? ==> r.value.offset == (if xoffset.Some? then xoffset else ownOffset)
  {
    var window := if xscale.Some? then xscale else ownScale;
    var offset := if xoffset.Some? then xoffset else ownOffset;
    match window
    case None => Raise(TypeError, "unsupported operand type(s) for /: 'NoneType' and 'float'")
    case Some(w) => Ok(Horizontal(w / 10.0, offset))
  }

  /** Which class a channel object is. */
  datatype Kind = BaseChannel | AwgChannel | OscChannel

  /** The oscilloscope-only state `copy_from` copies. The range, offset and
      point-count fields are Tk variables, named here by identity: copying
      one shares the variable. */
  datatype OscState = OscState(range: nat, yoffset: nat, points: nat,
                               xscale: Option<real>, xoffset: Option<real>)

  datatype Chan = Chan(kind: Kind, occupied: bool, osc: OscState)

  /** The argument of `copy_from`: a channel, or some other object. */
  datatype Source = NotAChannel | From(c: Chan)

  /** The channel after a `copy_from`, and the exception it raised. */
  datatype Copied = Copied(chan: Chan, raised: Option<Exc>)

  /** `copy_from`. Every class copies the occupancy from a channel and
      raises `TypeError` for anything else. An oscilloscope channel also
      takes over the other's oscilloscope state, and raises when the
      other is not an oscilloscope channel, after the occupancy has
      already been copied. */
  function CopyFrom(self: Chan, other: Source): (r: Copied)
    ensures r.chan.kind == self.kind
    ensures other.NotAChannel? ==> r == Copied(self, Some(Exc(TypeError, "other must be a channel")))
    ensures other.From? ==> r.chan.occupied == other.c.occupied
    ensures r.raised.None? <==> other.From? && (self.kind != OscChannel || other.c.kind == OscChannel)
    ensures r.raised.None? && self.kind == OscChannel ==> r.chan.osc == other.c.osc
    ensures self.kind != OscChannel || r.raised.Some? ==> r.chan.osc == self.osc
  {
    match other
    case NotAChannel => Copied(self, Some(Exc(TypeError, "other must be a channel")))
    case From(o) =>
      var base := self.(occupied := o.occupied);
      if self.kind != OscChannel then Copied(base, None)
      else if o.kind != OscChannel then Copied(base, Some(Exc(TypeError, "other must be OSC_Channel")))
      else Copied(base.(osc := o.osc), None)
  }

  /** A successful copy is idempotent: copying the same source again
      changes nothing. */
  lemma CopyIdempotent(self: Chan, other: Chan)
    requires CopyFrom(self, From(other)).raised.None?
    ensures CopyFrom(CopyFrom(self, From(other)).chan, From(other)) == CopyFrom(self, From(other))
  {
  }

  // ---------------------------------------------------------------------
  // The driver calls the channel wrappers forward, after their own
  // argument handling.

  /** A call handed on to the instrument driver. */
  datatype DriverCall =
    | SetFreq(freq: real, ch: int)
    | SetAmp(amp: real, ch: int)

  /** `AWG_Channel.set_freq`: a falsy frequency sends nothing. */
  function SetFreqCall(freq: real, ch: int): (c: Option<DriverCall>)
    ensures c.None? <==> freq == 0.0
    ensures c.Some? ==> c.value.SetFreq? && c.value.freq == freq && c.value.ch == ch
  {
    if freq != 0.0 then Some(SetFreq(freq, ch)) else None
  }

  /** `AWG_Channel.set_amp`: the text (the field when absent) goes through
      `float(parse_to_Vpp(...))`, so a text without a number raises
      `ValueError` as an unparsable one does; an amplitude of zero sends
      nothing. */
  function SetAmpCall(amp: Option<string>, field: string, ch: int): (r: Result<Option<DriverCall>>)
    ensures var p := ParseToVpp(Pick(amp, field));
      && (r.Err? <==> p.Err? || p == Ok(NoNumber))
      && (r.Err? ==> r.error.kind == ValueError)
      && (r == Ok(None) <==> p == Ok(Vpp(0.0)))
      && (r.Ok? && r.value.Some? ==> p.Ok? && p.value.Vpp? && r.value.value == SetAmp(p.value.volts, ch))
  {
    match ParseToVpp(Pick(amp, field))
    case Err(e) => Err(e)
    case Ok(NoNumber) => Raise(ValueError, "could not convert string to float: ''")
    case Ok(Vpp(v)) => Ok(if v != 0.0 then Some(SetAmp(v, ch)) else None)
  }

  /** A whole number of volts peak-to-peak written as `<n>Vpp` reaches the
      driver as that amplitude. */
  lemma SetAmpOfVpp(n: nat, field: string, ch: int)
    requires n > 0
    ensures SetAmpCall(Some(NatToString(n) + "Vpp"), field, ch) == Ok(Some(SetAmp(n as real, ch)))
  {
    assert forall j :: 0 <= j < |"Vpp"| ==> IsLetter("Vpp"[j]);
    ParseRenderedVpp(n, "Vpp");
    VppWordScale();
  }

  /** The point count `OSC_Channel.read_raw_waveform` passes to the
      driver: the text (the field when absent) parsed by
      `parse_general_val`; a positive value is rounded half to even,
      anything else asks for the instrument's default. */
  function WaveformPoints(points: Option<string>, field: string): (n: Option<int>)
    ensures var v := ParseGeneralVal(Pick(points, field), None).Value();
      && (n.Some? <==> v > 0.0)
      && (n.Some? ==> n.value >= 0 && Abs(n.value as real - v) <= 0.5)
  {
    var v := ParseGeneralVal(Pick(points, field), None).Value();
    if v > 0.0 then Some(RoundHalfEven(v)) else None
  }

  /** A positive count written as an integer is asked for as it is. */
  lemma WaveformPointsOfCount(i: int, field: string)
    requires i > 0
    ensures WaveformPoints(Some(IntToString(i)), field) == Some(i)
  {
    CountParses(i);
    RoundWhole(i);
  }

  /** An integer written out parses back to itself. */
  lemma CountParses(i: int)
    ensures ParseGeneralVal(IntToString(i), None).Value() == i as real
  {
    ParseRenderedInt(i, [], None);
    NoUnitText(IntToString(i));
    NoUnitScale(i as real);
  }

  lemma NoUnitText(t: string)
    ensures t + [] == t
  {
  }

  lemma NoUnitScale(x: real)
    ensures Times(x, ConvertGeneralUnit(None)) == x
  {
  }

  /** A whole number rounds to itself. */
  lemma RoundWhole(i: int)
    ensures RoundHalfEven(i as real) == i
  {
  }
}
