/** The measurement loop of the legacy Tk front end: the sampling-window
    rule, the retry-once auto-range modifier, the sweep loop over the
    channel's frequency points, and the gain correction applied before
    plotting. Instruments are oracles; waveform analysis is abstract. */
module LegacyTest {
  import opened Wrappers
  import opened PyNumbers
  import opened Numerics
  import opened SweepEngine

  // ---------------------------------------------------------------------
  // Sampling window.

  /** `cal_sampling_time` with its default keywords: the longest of the
      sample-count window, ten periods and 1 µs, clamped to ten million
      samples. Nothing floors the sample rate, so a zero rate divides by
      zero. */
  function CalSamplingTime(freq: real, deviceSr: real, points: real): (r: Result<real>)
    ensures r.Err? <==> deviceSr == 0.0
    ensures r.Err? ==> r.error.kind == ZeroDivisionError
    ensures r.Ok? ==> r.value <= 10000000.0 / deviceSr
    ensures r.Ok? ==>
      r.value == points / deviceSr || r.value == 10.0 / Max(freq, 0.000000000001)
      || r.value == 0.000001 || r.value == 10000000.0 / deviceSr
    ensures r.Ok? && r.value < 10000000.0 / deviceSr ==>
      && r.value >= points / deviceSr
      && r.value >= 10.0 / Max(freq, 0.000000000001)
      && r.value >= 0.000001
  {
    if deviceSr == 0.0 then Raise(ZeroDivisionError, "float division by zero")
    else
      var f := Max(freq, 0.000000000001);
      var t := Max(Max(points / deviceSr, 10.0 / f), 0.000001);
      Ok(Min(t, 10000000.0 / deviceSr))
  }

  /** For a rate of at least one sample per second and a whole number of
      points, the legacy window is the one the sweep engine computes. */
  lemma LegacyWindowMatchesEngine(freq: real, deviceSr: real, points: int)
    requires deviceSr >= 1.0
    ensures CalSamplingTime(freq, deviceSr, points as real) == Ok(SamplingWindow(freq, deviceSr, points))
  {
    assert Max(deviceSr, 1.0) == deviceSr;
  }

  // ---------------------------------------------------------------------
  // Auto-range modifier.

  /** The three adjustments the modifier can try, which also name the
      warning each one can raise. */
  datatype Knob = Recentre | Locate | Resolve

  /** The per-sweep flags: for each knob, whether a mismatching readback
      has already been retried, and whether its warning has been shown. */
  datatype Latches = Latches(
    tryReCenter: bool, tryGetTarget: bool, trySetRes: bool,
    ofsLimShown: bool, lostTargetShown: bool, lackResShown: bool)

  function Tried(l: Latches, k: Knob): bool {
    match k
    case Recentre => l.tryReCenter
    case Locate => l.tryGetTarget
    case Resolve => l.trySetRes
  }

  function Shown(l: Latches, k: Knob): bool {
    match k
    case Recentre => l.ofsLimShown
    case Locate => l.lostTargetShown
    case Resolve => l.lackResShown
  }

  /** The latches with knob `k`'s pair replaced. */
  function SetKnob(l: Latches, k: Knob, tried: bool, shown: bool): (l': Latches)
    ensures Tried(l', k) == tried && Shown(l', k) == shown
    ensures forall j :: j != k ==> Tried(l', j) == Tried(l, j) && Shown(l', j) == Shown(l, j)
  {
    match k
    case Recentre => l.(tryReCenter := tried, ofsLimShown := shown)
    case Locate => l.(tryGetTarget := tried, lostTargetShown := shown)
    case Resolve => l.(trySetRes := tried, lackResShown := shown)
  }

  /** The retry-once rule after a requested setting is read back. */
  datatype Retry = Retry(adjusted: bool, tried: bool, shown: bool, warned: bool)

  /** A matching readback clears the retry flag and reports an adjustment;
      the first mismatch sets the flag and reports one too; a later
      mismatch reports none and warns, unless the warning was already
      shown. */
  function RetryOnce(close: bool, tried: bool, shown: bool): (r: Retry)
    ensures r.adjusted <==> close || !tried
    ensures r.tried <==> !close
    ensures r.warned <==> !close && tried && !shown
    ensures r.shown <==> shown || r.warned
  {
    if close then Retry(true, false, shown, false)
    else if !tried then Retry(true, true, shown, false)
    else if !shown then Retry(false, tried, true, true)
    else Retry(false, tried, shown, false)
  }

  /** An oscilloscope channel's full-scale range and offset, as its
      fields hold them and as the instrument reports them. */
  datatype Screen = Screen(range: real, offset: real)

  /** What the instrument reports after `set_y` sends the given fields. */
  type Scope = Screen -> Screen

  /** The modifier's progress: the channel's fields, the flags, the
      settings sent (each with the knob that sent it) and the warnings. */
  datatype Pending = Pending(fields: Screen, latches: Latches, sent: seq<(Knob, Screen)>, warnings: seq<Knob>)

  /** One adjustment: send `request`, keep the readback of the adjusted
      quantity in the field, and apply the retry-once rule. */
  function Adjust(p: Pending, k: Knob, request: Screen, read: Screen, close: bool): (r: (bool, Pending))
    ensures r.1.sent == p.sent + [(k, request)]
    ensures r.1.fields == if k == Recentre then request.(offset := read.offset) else request.(range := read.range)
    ensures r.0 <==> close || !Tried(p.latches, k)
    ensures Tried(r.1.latches, k) <==> !close
    ensures r.1.warnings == p.warnings + (if !close && Tried(p.latches, k) && !Shown(p.latches, k) then [k] else [])
    ensures Shown(r.1.latches, k) == (Shown(p.latches, k) || (!close && Tried(p.latches, k)))
    ensures forall j :: j != k ==> Tried(r.1.latches, j) == Tried(p.latches, j) && Shown(r.1.latches, j) == Shown(p.latches, j)
  {
    var fields := if k == Recentre then request.(offset := read.offset) else request.(range := read.range);
    var retry := RetryOnce(close, Tried(p.latches, k), Shown(p.latches, k));
    (retry.adjusted,
     Pending(fields, SetKnob(p.latches, k, retry.tried, retry.shown), p.sent + [(k, request)],
             p.warnings + (if retry.warned then [k] else [])))
  }

  /** The waveform statistics the modifier decides on. */
  datatype Probe = Probe(vpp: real, mid: real, ratio: real, offsetRatio: real, found: bool)

  /** Peak-to-peak and midpoint of the record, its span relative to the
      current range, the midpoint's distance from the current offset in
      half-ranges, and whether either extreme lies strictly inside the
      middle 95% of the screen. */
  function ProbeOf(volts: seq<real>, current: Screen): Probe
    requires volts != [] && current.range != 0.0
  {
    var vmax := SeqMax(volts);
    var vmin := SeqMin(volts);
    var vpp := vmax - vmin;
    var mid := (vmax + vmin) / 2.0;
    var ratio := vpp / current.range;
    var upper := current.offset + current.range * 0.95 / 2.0;
    var lower := current.offset - current.range * 0.95 / 2.0;
    Probe(vpp, mid, ratio, Abs(mid - current.offset) / (current.range / 2.0),
          (lower < vmax < upper) || (upper > vmin > lower))
  }

  /** The outcome of one call: whether it adjusted the scope, and the
      state it leaves. */
  datatype RangeStep = RangeStep(adjusted: bool, after: Pending)

  /** The DC coupling label. */
  const CoupDc: string := "DC"

  /** Step one: recentre a found, off-centre waveform on a DC-coupled
      channel. */
  function RecentreStep(p: Pending, pr: Probe, coupling: string, scope: Scope): (r: (bool, Pending))
    ensures !(pr.found && pr.offsetRatio > 0.2 && coupling == CoupDc) ==> r == (false, p)
    ensures pr.found && pr.offsetRatio > 0.2 && coupling == CoupDc ==>
      r.1.sent == p.sent + [(Recentre, p.fields.(offset := pr.mid))]
    ensures WarnsOnceFrom(p, r.1)
    ensures StepOutcome(p, r, Recentre)
  {
    if pr.found && pr.offsetRatio > 0.2 && coupling == CoupDc then
      var request := p.fields.(offset := pr.mid);
      var read := scope(request);
      var close := IsClose(read.offset, pr.mid, 0.01, 0.001);
      AdjustWarnsOnce(p, Recentre, request, read, close);
      Adjust(p, Recentre, request, read, close)
    else WarnsOnceSame(p); (false, p)
  }

  /** Step two: a waveform found nowhere on screen triples the range. */
  function LocateStep(p: Pending, pr: Probe, current: Screen, scope: Scope): (r: (bool, Pending))
    ensures pr.found ==> r == (false, p)
    ensures !pr.found ==> r.1.sent == p.sent + [(Locate, p.fields.(range := current.range * 3.0))]
    ensures WarnsOnceFrom(p, r.1)
    ensures StepOutcome(p, r, Locate)
  {
    if !pr.found then
      var need := current.range * 3.0;
      var request := p.fields.(range := need);
      var read := scope(request);
      var close := IsClose(read.range, need, 0.01, 0.001);
      AdjustWarnsOnce(p, Locate, request, read, close);
      Adjust(p, Locate, request, read, close)
    else WarnsOnceSame(p); (false, p)
  }

  /** Step three: a span outside 60–80% of the range aims for 70%. */
  function ResolveStep(p: Pending, pr: Probe, scope: Scope): (r: (bool, Pending))
    ensures 0.6 <= pr.ratio <= 0.8 ==> r == (false, p)
    ensures !(0.6 <= pr.ratio <= 0.8) ==> r.1.sent == p.sent + [(Resolve, p.fields.(range := pr.vpp / 0.7))]
    ensures WarnsOnceFrom(p, r.1)
    ensures StepOutcome(p, r, Resolve)
  {
    if pr.ratio > 0.8 || pr.ratio < 0.6 then
      var need := pr.vpp / 0.7;
      var request := p.fields.(range := need);
      var read := scope(request);
      var close := IsClose(read.range, need, 0.01, 0.001);
      AdjustWarnsOnce(p, Resolve, request, read, close);
      Adjust(p, Resolve, request, read, close)
    else WarnsOnceSame(p); (false, p)
  }

  /** `auto_osc_range_modifier`. Disabled (and not forced), or given an
      empty record, it does nothing. Otherwise it tries, in order, to
      recentre, to locate and to resolve, and stops at the first step
      that reports an adjustment. A zero current range divides by zero.
      Whether it reports an adjustment is decided by its last request:
      exactly when that request's readback matched or its knob had not
      been retried yet; every earlier request of the call was a repeated
      mismatch, and a call that sends nothing reports none. */
  function RangeModifier(enabled: bool, volts: seq<real>, current: Screen, fields: Screen,
                         coupling: string, latches: Latches, scope: Scope): (r: Result<RangeStep>)
    ensures !enabled || volts == [] ==> r == Ok(RangeStep(false, Pending(fields, latches, [], [])))
    ensures r.Err? <==> enabled && volts != [] && current.range == 0.0
    ensures r.Err? ==> r.error.kind == ZeroDivisionError
    ensures r.Ok? ==> |r.value.after.sent| <= 3
    ensures r.Ok? ==> var sent := r.value.after.sent;
      && (sent == [] ==> !r.value.adjusted)
      && (sent != [] ==>
            (r.value.adjusted <==> !Tried(latches, sent[|sent| - 1].0) || !Tried(r.value.after.latches, sent[|sent| - 1].0)))
      && (forall j :: 0 <= j < |sent| - 1 ==> Tried(latches, sent[j].0) && Tried(r.value.after.latches, sent[j].0))
  {
    if !enabled || volts == [] then Ok(RangeStep(false, Pending(fields, latches, [], [])))
    else if current.range == 0.0 then Raise(ZeroDivisionError, "float division by zero")
    else
      var st := Modify(Pending(fields, latches, [], []), ProbeOf(volts, current), current, coupling, scope);
      Ok(RangeStep(st.0, st.1))
  }

  /** The three steps in order, stopping at the first that adjusts. */
  function Modify(p0: Pending, pr: Probe, current: Screen, coupling: string, scope: Scope): (r: (bool, Pending))
    requires p0.sent == []
    ensures |r.1.sent| <= 3 && Decided(p0.latches, r)
  {
    var s1 := RecentreStep(p0, pr, coupling, scope);
    DecidedStep(p0.latches, (false, p0), Recentre, s1);
    if s1.0 then s1
    else
      var s2 := LocateStep(s1.1, pr, current, scope);
      DecidedStep(p0.latches, s1, Locate, s2);
      if s2.0 then s2
      else
        var s3 := ResolveStep(s2.1, pr, scope);
        DecidedStep(p0.latches, s2, Resolve, s3);
        s3
  }

  /** Recentring is requested exactly for a found, off-centre waveform on
      a DC-coupled channel, and then first, to the waveform's midpoint. */
  lemma {:induction false} RecentreRequest(volts: seq<real>, current: Screen, fields: Screen,
                                           coupling: string, latches: Latches, scope: Scope)
    requires volts != [] && current.range != 0.0
    ensures var sent := RangeModifier(true, volts, current, fields, coupling, latches, scope).value.after.sent;
      var pr := ProbeOf(volts, current);
      && (pr.found && pr.offsetRatio > 0.2 && coupling == CoupDc ==>
            |sent| > 0 && sent[0] == (Recentre, fields.(offset := pr.mid)))
      && (!(pr.found && pr.offsetRatio > 0.2 && coupling == CoupDc) ==> forall s :: s in sent ==> s.0 != Recentre)
  {
    ModifyRecentre(Pending(fields, latches, [], []), ProbeOf(volts, current), current, coupling, scope);
  }

  /** A waveform found nowhere on screen gets three times the current
      range as its first request. */
  lemma {:induction false} LocateRequest(volts: seq<real>, current: Screen, fields: Screen,
                                         coupling: string, latches: Latches, scope: Scope)
    requires volts != [] && current.range != 0.0
    requires !ProbeOf(volts, current).found
    ensures var sent := RangeModifier(true, volts, current, fields, coupling, latches, scope).value.after.sent;
      |sent| > 0 && sent[0] == (Locate, fields.(range := current.range * 3.0))
  {
    ModifyLocate(Pending(fields, latches, [], []), ProbeOf(volts, current), current, coupling, scope);
  }

  /** A range request of the last step is made only for a span outside
      60–80% of the range, and aims for a 70% span. */
  lemma {:induction false} ResolveRequest(volts: seq<real>, current: Screen, fields: Screen,
                                          coupling: string, latches: Latches, scope: Scope)
    requires volts != [] && current.range != 0.0
    ensures var pr := ProbeOf(volts, current);
      forall s :: s in RangeModifier(true, volts, current, fields, coupling, latches, scope).value.after.sent && s.0 == Resolve ==>
        s.1.range == pr.vpp / 0.7 && !(0.6 <= pr.ratio <= 0.8)
  {
    ModifyResolve(Pending(fields, latches, [], []), ProbeOf(volts, current), current, coupling, scope);
  }

  /** The recentre request of the steps, for any probe. */
  lemma ModifyRecentre(p0: Pending, pr: Probe, current: Screen, coupling: string, scope: Scope)
    requires p0.sent == []
    ensures var sent := Modify(p0, pr, current, coupling, scope).1.sent;
      && (pr.found && pr.offsetRatio > 0.2 && coupling == CoupDc ==>
            |sent| > 0 && sent[0] == (Recentre, p0.fields.(offset := pr.mid)))
      && (!(pr.found && pr.offsetRatio > 0.2 && coupling == CoupDc) ==> forall s :: s in sent ==> s.0 != Recentre)
  {
    var s1 := RecentreStep(p0, pr, coupling, scope);
    var s2 := LocateStep(s1.1, pr, current, scope);
    var s3 := ResolveStep(s2.1, pr, scope);
    if !(pr.found && pr.offsetRatio > 0.2 && coupling == CoupDc) {
      assert s1.1.sent == [];
      assert forall s :: s in s3.1.sent ==> s.0 == Locate || s.0 == Resolve;
    }
  }

  /** The locate request of the steps, for any probe. */
  lemma ModifyLocate(p0: Pending, pr: Probe, current: Screen, coupling: string, scope: Scope)
    requires p0.sent == [] && !pr.found
    ensures var sent := Modify(p0, pr, current, coupling, scope).1.sent;
      |sent| > 0 && sent[0] == (Locate, p0.fields.(range := current.range * 3.0))
  {
    var s1 := RecentreStep(p0, pr, coupling, scope);
    assert s1 == (false, p0);
  }

  /** The resolution requests of the steps, for any probe. */
  lemma ModifyResolve(p0: Pending, pr: Probe, current: Screen, coupling: string, scope: Scope)
    requires p0.sent == []
    ensures forall s :: s in Modify(p0, pr, current, coupling, scope).1.sent && s.0 == Resolve ==>
      s.1.range == pr.vpp / 0.7 && !(0.6 <= pr.ratio <= 0.8)
  {
    var s1 := RecentreStep(p0, pr, coupling, scope);
    var s2 := LocateStep(s1.1, pr, current, scope);
    assert forall s :: s in s2.1.sent ==> s.0 != Resolve;
  }

  /** The adjustment flag of a call so far, relative to the flags `l0`
      it started with: decided by the last request; earlier requests were
      repeated mismatches; knobs not yet used keep their flag; and the
      knobs used are all distinct and in the modifier's order. */
  predicate Decided(l0: Latches, st: (bool, Pending)) {
    var sent := st.1.sent;
    && (sent == [] ==> !st.0)
    && (sent != [] ==> (st.0 <==> !Tried(l0, sent[|sent| - 1].0) || !Tried(st.1.latches, sent[|sent| - 1].0)))
    && (forall j :: 0 <= j < |sent| - 1 ==> Tried(l0, sent[j].0) && Tried(st.1.latches, sent[j].0))
    && (forall k :: (forall j :: 0 <= j < |sent| ==> sent[j].0 != k) ==> Tried(st.1.latches, k) == Tried(l0, k))
    && (forall j, i :: 0 <= j < i < |sent| ==> Rank(sent[j].0) < Rank(sent[i].0))
  }

  /** The order in which the modifier tries its knobs. */
  function Rank(k: Knob): nat {
    match k
    case Recentre => 0
    case Locate => 1
    case Resolve => 2
  }

  /** A step for a knob later than any used so far, taken because no
      adjustment has been reported yet, keeps the flag decided. */
  lemma DecidedStep(l0: Latches, st: (bool, Pending), k: Knob, r: (bool, Pending))
    requires Decided(l0, st) && !st.0
    requires |st.1.sent| > 0 ==> Rank(st.1.sent[|st.1.sent| - 1].0) < Rank(k)
    requires StepOutcome(st.1, r, k)
    ensures Decided(l0, r)
  {
    var sent := st.1.sent;
    forall j | 0 <= j < |sent|
      ensures Rank(sent[j].0) < Rank(k)
    {
      if j < |sent| - 1 {
        assert Rank(sent[j].0) < Rank(sent[|sent| - 1].0);
      }
    }
    if r != (false, st.1) {
      var sent' := r.1.sent;
      assert sent' == sent + [sent'[|sent|]];
      forall j | 0 <= j < |sent'| - 1
        ensures Tried(l0, sent'[j].0) && Tried(r.1.latches, sent'[j].0)
      {
        assert sent'[j] == sent[j];
        assert sent'[j].0 != k;
      }
    }
  }

  /** One step either leaves the state alone without adjusting, or sends
      one request for its knob, reports an adjustment exactly when the
      readback matched or the knob had not been retried, and changes only
      that knob's flags. */
  predicate StepOutcome(p: Pending, r: (bool, Pending), k: Knob) {
    || r == (false, p)
    || (&& |r.1.sent| == |p.sent| + 1 && r.1.sent[..|p.sent|] == p.sent && r.1.sent[|p.sent|].0 == k
        && (r.0 <==> !Tried(p.latches, k) || !Tried(r.1.latches, k))
        && forall j :: j != k ==> Tried(r.1.latches, j) == Tried(p.latches, j))
  }

  /** How often `k` occurs in `ws`. */
  function Count(ws: seq<Knob>, k: Knob): nat {
    if ws == [] then 0 else Count(ws[..|ws| - 1], k) + (if ws[|ws| - 1] == k then 1 else 0)
  }

  lemma {:induction false} CountAppend(a: seq<Knob>, b: seq<Knob>, k: Knob)
    ensures Count(a + b, k) == Count(a, k) + Count(b, k)
    decreases |b|
  {
    if b == [] {
      assert a + b == a;
    } else {
      assert (a + b)[..|a + b| - 1] == a + b[..|b| - 1];
      CountAppend(a, b[..|b| - 1], k);
    }
  }

  /** The invariant of the modifier: from `p` to `q` no shown warning is
      cleared, and the warnings added are exactly the knobs whose shown
      flag went from false to true. */
  predicate WarnsOnceFrom(p: Pending, q: Pending) {
    forall k :: (Shown(p.latches, k) ==> Shown(q.latches, k))
      && Count(q.warnings, k) == Count(p.warnings, k) + (if !Shown(p.latches, k) && Shown(q.latches, k) then 1 else 0)
  }

  lemma WarnsOnceSame(p: Pending)
    ensures WarnsOnceFrom(p, p)
  {
  }

  lemma WarnsOnceTrans(a: Pending, b: Pending, c: Pending)
    requires WarnsOnceFrom(a, b) && WarnsOnceFrom(b, c)
    ensures WarnsOnceFrom(a, c)
  {
  }

  /** One adjustment keeps the invariant. */
  lemma AdjustWarnsOnce(p: Pending, k: Knob, request: Screen, read: Screen, close: bool)
    ensures WarnsOnceFrom(p, Adjust(p, k, request, read, close).1)
  {
    var q := Adjust(p, k, request, read, close).1;
    var added := if !close && Tried(p.latches, k) && !Shown(p.latches, k) then [k] else [];
    forall j
      ensures Count(q.warnings, j) == Count(p.warnings, j) + (if !Shown(p.latches, j) && Shown(q.latches, j) then 1 else 0)
    {
      CountAppend(p.warnings, added, j);
      if added != [] {
        assert added[..0] == [];
      }
    }
  }

  /** Within one call, a knob warns only when its warning has not been
      shown, and afterwards it has been; nothing clears a shown warning. */
  lemma RangeModifierWarnings(enabled: bool, volts: seq<real>, current: Screen, fields: Screen,
                              coupling: string, latches: Latches, scope: Scope)
    requires RangeModifier(enabled, volts, current, fields, coupling, latches, scope).Ok?
    ensures WarnsOnceFrom(Pending(fields, latches, [], []),
                          RangeModifier(enabled, volts, current, fields, coupling, latches, scope).value.after)
  {
    var p0 := Pending(fields, latches, [], []);
    if enabled && volts != [] {
      var pr := ProbeOf(volts, current);
      var s1 := RecentreStep(p0, pr, coupling, scope);
      var s2 := LocateStep(s1.1, pr, current, scope);
      var s3 := ResolveStep(s2.1, pr, scope);
      WarnsOnceTrans(p0, s1.1, s2.1);
      WarnsOnceTrans(p0, s2.1, s3.1);
    } else {
      WarnsOnceSame(p0);
    }
  }

  /** One call of the modifier within a sweep, with what the sweep
      supplies: the switch, the record, the current readback, the
      coupling and the instrument. */
  datatype Call = Call(enabled: bool, volts: seq<real>, current: Screen, coupling: string, scope: Scope)

  /** A sequence of calls sharing the channel's fields and the sweep's
      flags; it stops at the first call that raises. */
  function RunCalls(fields: Screen, latches: Latches, calls: seq<Call>): (r: (Latches, seq<Knob>))
    decreases |calls|
  {
    if calls == [] then (latches, [])
    else
      var c := calls[0];
      var step := RangeModifier(c.enabled, c.volts, c.current, fields, c.coupling, latches, c.scope);
      if step.Err? then (latches, [])
      else
        var rest := RunCalls(step.value.after.fields, step.value.after.latches, calls[1..]);
        (rest.0, step.value.after.warnings + rest.1)
  }

  /** Over a whole sweep, whatever the waveforms and the instrument do,
      each of the three warnings is shown at most once, and not at all
      if it was already shown. */
  lemma {:induction false} WarnsAtMostOnce(fields: Screen, latches: Latches, calls: seq<Call>, k: Knob)
    ensures Count(RunCalls(fields, latches, calls).1, k) <= (if Shown(latches, k) then 0 else 1)
    ensures Shown(latches, k) ==> Shown(RunCalls(fields, latches, calls).0, k)
    ensures Count(RunCalls(fields, latches, calls).1, k) == 1 ==> Shown(RunCalls(fields, latches, calls).0, k)
    decreases |calls|
  {
    if calls != [] {
      var c := calls[0];
      var step := RangeModifier(c.enabled, c.volts, c.current, fields, c.coupling, latches, c.scope);
      if step.Ok? {
        RangeModifierWarnings(c.enabled, c.volts, c.current, fields, c.coupling, latches, c.scope);
        var after := step.value.after;
        assert Count([], k) == 0;
        WarnsAtMostOnce(after.fields, after.latches, calls[1..], k);
        CountAppend(after.warnings, RunCalls(after.fields, after.latches, calls[1..]).1, k);
      }
    }
  }

  // ---------------------------------------------------------------------
  // Sweep loop.

  /** What one acquisition gives: the modifier adjusted the scope and the
      point must be measured again, the point's values, or the exception
      an instrument query raised. Phase and complex gain are present in
      dual-channel or triggered mode. */
  datatype Acquired = Adjusted | Measured(gain: real, gainDb: real, phase: Option<(Complex, real)>)
                    | Failed(error: Exc)

  /** The instruments and the stop flag, indexed by loop pass: whether
      stop is set, the frequency the generator reports after being set to
      the target (or the exception the query raised), and the acquisition
      at the reported frequency. */
  datatype LoopIo = LoopIo(
    stop: nat -> bool,
    readFreq: (nat, real) -> Result<real>,
    acquire: (nat, real) -> Acquired)

  /** Why the loop ended. `Raised` is an exception escaping the loop: the
      thread ends without queueing the `None` sentinel. */
  datatype End = Finished | Stopped | Aborted | OutOfFuel | Raised(error: Exc)

  /** The loop's output: reported frequencies and their values in order,
      the pass that recorded each, the queue handed to the plotter, how it
      ended, how many passes ran, and whether a frequency was ever
      reported out of tolerance. */
  datatype Sweep = Sweep(freqs: seq<real>, values: seq<Acquired>, at: seq<nat>, queue: seq<Option<real>>,
                         end: End, passes: nat, mismatch: bool)

  /** `np.isclose(freq, target, atol=1e-3, rtol=5e-6)`. */
  predicate FreqClose(freq: real, target: real) {
    IsClose(freq, target, 0.000005, 0.001)
  }

  lemma FreqCloseSelf(x: real)
    ensures FreqClose(x, x)
  {
  }

  /** Instruments that never fail: stop is never set, the generator
      reports exactly the frequency it was set to, and every acquisition
      measures. */
  ghost predicate Ideal(io: LoopIo) {
    && (forall t :: !io.stop(t))
    && (forall t, f :: io.readFreq(t, f) == Ok(f))
    && (forall t, f :: io.acquire(t, f).Measured?)
  }

  /** Point `k` was recorded at pass `t`: the generator reported
      `freq` there for the `k`-th frequency point, and the acquisition at
      that frequency gave `value`. */
  predicate RecordedAt(io: LoopIo, points: seq<real>, k: nat, t: nat, freq: real, value: Acquired)
    requires k < |points|
  {
    io.readFreq(t, points[k]) == Ok(freq) && io.acquire(t, freq) == value && value.Measured?
  }

  /** The record before pass `t`: one reported frequency, value, pass
      and queue entry per recorded point, each point recorded at an
      earlier pass than the next. */
  predicate Recorded(io: LoopIo, points: seq<real>, t: nat, freqs: seq<real>, values: seq<Acquired>, at: seq<nat>) {
    && |freqs| == |values| == |at| <= |points|
    && (forall k :: 0 <= k < |freqs| ==> at[k] < t && RecordedAt(io, points, k, at[k], freqs[k], values[k]))
    && (forall k, l :: 0 <= k < l < |at| ==> at[k] < at[l])
  }

  /** What the plotter has been handed for the recorded frequencies. */
  function Queued(freqs: seq<real>): (q: seq<Option<real>>)
    ensures |q| == |freqs| && forall k :: 0 <= k < |freqs| ==> q[k] == Some(freqs[k])
  {
    seq(|freqs|, (k: int) requires 0 <= k < |freqs| => Some(freqs[k]))
  }

  /** Recording the point measured at pass `t` keeps the record. */
  lemma RecordStep(io: LoopIo, points: seq<real>, t: nat, freqs: seq<real>, values: seq<Acquired>, at: seq<nat>,
                   freq: real, got: Acquired)
    requires Recorded(io, points, t, freqs, values, at)
    requires |freqs| < |points| && RecordedAt(io, points, |freqs|, t, freq, got)
    ensures Recorded(io, points, t + 1, freqs + [freq], values + [got], at + [t])
  {
  }

  /** With ideal instruments every recorded frequency is the point's own. */
  lemma IdealRecords(io: LoopIo, points: seq<real>, t: nat, freqs: seq<real>, values: seq<Acquired>, at: seq<nat>)
    requires Ideal(io) && Recorded(io, points, t, freqs, values, at)
    ensures freqs == points[..|freqs|]
  {
    forall k | 0 <= k < |freqs|
      ensures freqs[k] == points[k]
    {
      assert RecordedAt(io, points, k, at[k], freqs[k], values[k]);
    }
  }

  /** Pass `t`, working on point `i`, raised `e`: either the frequency
      read-back or the acquisition at the reported frequency. */
  predicate RaisedAt(io: LoopIo, points: seq<real>, i: nat, t: nat, e: Exc) {
    && i < |points|
    && (io.readFreq(t, points[i]) == Err(e)
        || (io.readFreq(t, points[i]).Ok? && io.acquire(t, io.readFreq(t, points[i]).value) == Failed(e)))
  }

  /** The loop of `start_swep_test` over the frequency points, for at most
      `fuel` passes (the source loops for as long as auto-ranging keeps
      reporting adjustments). Each pass checks stop, then the abort flag
      a previous mismatch set; a mismatching readback sets that flag, and
      skips the point if its frequency is already recorded; an adjustment
      repeats the same point; a measured point is recorded and queued; an
      exception from the instruments ends the loop. The queue ends with a
      `None` sentinel unless an exception ended the loop. An empty point
      list fails at `freq_points[0]`. */
  method SweepLoop(points: seq<real>, io: LoopIo, fuel: nat) returns (r: Result<Sweep>)
    ensures r.Err? <==> points == []
    ensures r.Err? ==> r.error.kind == IndexError
    ensures r.Ok? ==> var s := r.value;
      && |s.freqs| == |s.values| == |s.at| <= |points|
      && (forall k :: 0 <= k < |s.freqs| ==>
            s.at[k] < s.passes && RecordedAt(io, points, k, s.at[k], s.freqs[k], s.values[k]))
      && (forall k, l :: 0 <= k < l < |s.at| ==> s.at[k] < s.at[l])
      && (s.end.Raised? ==> |s.queue| == |s.freqs|)
      && (!s.end.Raised? ==> |s.queue| == |s.freqs| + 1 && s.queue[|s.freqs|] == None)
      && (forall k :: 0 <= k < |s.freqs| ==> s.queue[k] == Some(s.freqs[k]))
      && (s.end.Raised? ==> RaisedAt(io, points, |s.freqs|, s.passes, s.end.error))
      && (forall t :: 0 <= t < s.passes ==> !io.stop(t))
      && (s.end == Stopped ==> io.stop(s.passes))
      && (s.end == Aborted ==> s.mismatch)
      && (s.end == OutOfFuel ==> s.passes == fuel)
      && (!s.mismatch ==> forall k :: 0 <= k < |s.freqs| ==> FreqClose(s.freqs[k], points[k]))
      && (forall k :: 0 <= k < |s.freqs| - 1 ==> FreqClose(s.freqs[k], points[k]))
      && (!s.mismatch && s.end == Finished ==> |s.freqs| == |points|)
      && (Ideal(io) && fuel >= |points| ==> s.end == Finished && s.freqs == points && !s.mismatch)
  {
    if points == [] {
      return Raise(IndexError, "list index out of range");
    }
    var i := 0;
    var t := 0;
    var freqs: seq<real> := [];
    var values: seq<Acquired> := [];
    var at: seq<nat> := [];
    var aborted := false;
    var end := Finished;
    while i < |points|
      invariant 0 <= i <= |points| && t <= fuel
      invariant Recorded(io, points, t, freqs, values, at) && |freqs| <= i
      invariant forall u :: 0 <= u < t ==> !io.stop(u)
      invariant !aborted ==> |freqs| == i && forall k :: 0 <= k < |freqs| ==> FreqClose(freqs[k], points[k])
      invariant forall k :: 0 <= k < |freqs| - 1 ==> FreqClose(freqs[k], points[k])
      invariant Ideal(io) && fuel >= |points| ==> t == i && !aborted && end == Finished
      decreases fuel - t
    {
      if t == fuel {
        end := OutOfFuel;
        break;
      }
      if io.stop(t) {
        end := Stopped;
        break;
      }
      if aborted {
        end := Aborted;
        break;
      }
      var read := io.readFreq(t, points[i]);
      if read.Err? {
        end := Raised(read.error);
        break;
      }
      var freq := read.value;
      FreqCloseSelf(points[i]);
      if !FreqClose(freq, points[i]) {
        aborted := true;
        if freq in freqs {
          i := i + 1;
          t := t + 1;
          continue;
        }
      }
      var got := io.acquire(t, freq);
      if got.Failed? {
        end := Raised(got.error);
        break;
      }
      if got.Measured? {
        RecordStep(io, points, t, freqs, values, at, freq, got);
        freqs := freqs + [freq];
        values := values + [got];
        at := at + [t];
        i := i + 1;
      }
      t := t + 1;
    }
    if Ideal(io) && fuel >= |points| {
      IdealRecords(io, points, t, freqs, values, at);
    }
    // An exception escapes before the sentinel is queued.
    var queue := if end.Raised? then Queued(freqs) else Queued(freqs) + [None];
    r := Ok(Sweep(freqs, values, at, queue, end, t, aborted));
  }

  // ---------------------------------------------------------------------
  // Gain correction.

  /** The result arrays of the legacy sweep. A corrected entry is `None`
      where numpy's division by a zero reference gives a non-finite value. */
  datatype Columns = Columns(
    freq: seq<real>, gainRaw: seq<real>, gainDbRaw: seq<real>, phaseDeg: seq<real>,
    gainComplex: seq<Complex>,
    gainCorr: seq<Option<real>>, gainDbCorr: seq<Option<real>>, phaseDegCorr: seq<Option<real>>)

  function Somes(xs: seq<real>): (ys: seq<Option<real>>)
    ensures |ys| == |xs| && forall k :: 0 <= k < |xs| ==> ys[k] == Some(xs[k])
  {
    seq(|xs|, (k: int) requires 0 <= k < |xs| => Some(xs[k]))
  }

  /** numpy broadcasting of two one-dimensional arrays: equal lengths, or
      one of them of length one. */
  function Broadcast(m: nat, n: nat): (r: Option<nat>)
    ensures r.Some? <==> m == n || m == 1 || n == 1
    ensures r.Some? ==> r.value == (if m == 1 then n else m)
  {
    if m == n || m == 1 then Some(n) else if n == 1 then Some(m) else None
  }

  /** Entry `k` of an array broadcast to a longer length. */
  function At<T>(xs: seq<T>, k: nat): T
    requires |xs| == 1 || k < |xs|
  {
    if |xs| == 1 then xs[0] else xs[k]
  }

  /** `get_gain_corr` in complex mode: `gain_complex / href`, entry by
      entry, with its magnitude, and its dB and phase in degrees each
      rounded to six places. */
  function ComplexCorrection(num: Numerics, c: Columns, href: real -> Complex): (r: Result<Columns>)
    ensures r.Err? <==> Broadcast(|c.gainComplex|, |c.freq|).None?
    ensures r.Ok? ==> var n := Broadcast(|c.gainComplex|, |c.freq|).value;
      && |r.value.gainCorr| == n && |r.value.gainDbCorr| == n && |r.value.phaseDegCorr| == n
      && (forall k :: 0 <= k < n ==>
            (r.value.gainCorr[k].None? <==> href(At(c.freq, k)).Norm() == 0.0)
            && (r.value.gainCorr[k].Some? ==>
                  r.value.gainCorr[k].value == num.Abs(Div(At(c.gainComplex, k), href(At(c.freq, k))))))
      && (forall k :: 0 <= k < n ==>
            && (r.value.gainDbCorr[k].None? <==> r.value.gainCorr[k].None?)
            && (r.value.phaseDegCorr[k].None? <==> r.value.gainCorr[k].None?)
            && (r.value.gainCorr[k].Some? ==>
                  var q := Div(At(c.gainComplex, k), href(At(c.freq, k)));
                  && Abs(r.value.gainDbCorr[k].value - num.Db(num.Abs(q))) <= 0.0000005
                  && Abs(r.value.phaseDegCorr[k].value - num.Degrees(num.Angle(q))) <= 0.0000005))
      && r.value.(gainCorr := c.gainCorr, gainDbCorr := c.gainDbCorr, phaseDegCorr := c.phaseDegCorr) == c
  {
    match Broadcast(|c.gainComplex|, |c.freq|)
    case None => Raise(ValueError, "operands could not be broadcast together")
    case Some(n) =>
      var h := seq(n, (k: int) requires 0 <= k < n =>
        var d := href(At(c.freq, k));
        if d.Norm() == 0.0 then None else Some(Div(At(c.gainComplex, k), d)));
      Ok(c.(gainCorr := seq(n, (k: int) requires 0 <= k < n => if h[k].None? then None else Some(num.Abs(h[k].value))),
            gainDbCorr := seq(n, (k: int) requires 0 <= k < n => if h[k].None? then None else Some(Round6(num.Db(num.Abs(h[k].value))))),
            phaseDegCorr := seq(n, (k: int) requires 0 <= k < n => if h[k].None? then None else Some(Round6(num.Degrees(num.Angle(h[k].value)))))))
  }

  /** `get_gain_corr` in magnitude mode: the raw gain over the reference
      magnitude floored at 1e-12, rounded to six places, and its dB of
      the gain floored at 1e-12; the corrected phase is left as it was. */
  function MagnitudeCorrection(num: Numerics, c: Columns, href: real -> Complex): (r: Result<Columns>)
    ensures r.Err? <==> Broadcast(|c.gainRaw|, |c.freq|).None?
    ensures r.Ok? ==> var n := Broadcast(|c.gainRaw|, |c.freq|).value;
      && |r.value.gainCorr| == n && |r.value.gainDbCorr| == n
      && r.value.phaseDegCorr == c.phaseDegCorr
      && (forall k :: 0 <= k < n ==>
            && r.value.gainCorr[k].Some?
            && Abs(r.value.gainCorr[k].value - At(c.gainRaw, k) / Max(num.Abs(href(At(c.freq, k))), 0.000000000001)) <= 0.0000005
            && r.value.gainDbCorr[k] == Some(Round6(num.Db(Max(r.value.gainCorr[k].value, 0.000000000001)))))
      && r.value.(gainCorr := c.gainCorr, gainDbCorr := c.gainDbCorr) == c
  {
    match Broadcast(|c.gainRaw|, |c.freq|)
    case None => Raise(ValueError, "operands could not be broadcast together")
    case Some(n) =>
      var corr := Corrected(num, c.gainRaw, c.freq, href, n);
      Ok(c.(gainCorr := Somes(corr),
            gainDbCorr := Somes(seq(n, (k: int) requires 0 <= k < n => Round6(num.Db(Max(corr[k], 0.000000000001)))))))
  }

  /** `round(gain_raw / max(|href|, 1e-12), 6)` entry by entry. */
  function Corrected(num: Numerics, gainRaw: seq<real>, freq: seq<real>, href: real -> Complex, n: nat): (corr: seq<real>)
    requires (|gainRaw| == 1 || n <= |gainRaw|) && (|freq| == 1 || n <= |freq|)
    ensures |corr| == n
    ensures forall k :: 0 <= k < n ==> corr[k] == Round6(At(gainRaw, k) / Max(num.Abs(href(At(freq, k))), 0.000000000001))
  {
    seq(n, (k: int) requires 0 <= k < n => Round6(At(gainRaw, k) / Max(num.Abs(href(At(freq, k))), 0.000000000001)))
  }

  /** `get_gain_corr`: without calibration, or without a reference, the
      corrected arrays are the raw ones; dual-channel or triggered mode
      divides complex gains; otherwise only magnitudes are corrected. */
  function GainCorrection(num: Numerics, c: Columns, enabled: bool, href: Option<real -> Complex>,
                          complexMode: bool): (r: Result<Columns>)
    ensures !(enabled && href.Some?) ==>
      r == Ok(c.(gainCorr := Somes(c.gainRaw), gainDbCorr := Somes(c.gainDbRaw), phaseDegCorr := Somes(c.phaseDeg)))
    ensures r.Ok? ==>
      && r.value.freq == c.freq && r.value.gainRaw == c.gainRaw && r.value.gainDbRaw == c.gainDbRaw
      && r.value.phaseDeg == c.phaseDeg && r.value.gainComplex == c.gainComplex
    ensures enabled && href.Some? && !complexMode ==> r.Ok? || |c.gainRaw| != |c.freq|
  {
    if !(enabled && href.Some?) then
      Ok(c.(gainCorr := Somes(c.gainRaw), gainDbCorr := Somes(c.gainDbRaw), phaseDegCorr := Somes(c.phaseDeg)))
    else if complexMode then ComplexCorrection(num, c, href.value)
    else MagnitudeCorrection(num, c, href.value)
  }

  /** Dividing by a common positive reference and rounding to six places
      keeps sign and order. */
  lemma CorrectionOrder(x: real, y: real, d: real)
    requires d > 0.0
    ensures x >= 0.0 ==> Round6(x / d) >= 0.0
    ensures x <= y ==> Round6(x / d) <= Round6(y / d)
  {
    DivMono(0.0, x, d);
    Round6Order(x / d, x / d);
    DivMono(x, y, d);
    Round6Order(x / d, y / d);
  }

  /** A reference of exactly one leaves each complex gain as it is, so
      the corrected magnitude is the raw gain's. */
  lemma UnitReferenceKeepsGain(num: Numerics, c: Columns, k: nat)
    requires |c.gainComplex| == |c.freq| && k < |c.freq|
    ensures var r := ComplexCorrection(num, c, (f: real) => Complex(1.0, 0.0));
      r.Ok? && r.value.gainCorr[k] == Some(num.Abs(c.gainComplex[k]))
  {
    var one := Complex(1.0, 0.0);
    var q := Div(c.gainComplex[k], one);
    assert q == c.gainComplex[k];
    assert At(c.gainComplex, k) == c.gainComplex[k];
  }

  /** With a reference, magnitude correction of a non-negative gain stays
      non-negative and keeps the raw gain's order against a common
      reference. */
  lemma MagnitudeCorrectionOrder(num: Numerics, c: Columns, href: real -> Complex, j: nat, k: nat)
    requires |c.gainRaw| == |c.freq| && j < |c.freq| && k < |c.freq|
    requires href(c.freq[j]) == href(c.freq[k])
    ensures var r := MagnitudeCorrection(num, c, href).value;
      && (c.gainRaw[j] >= 0.0 ==> r.gainCorr[j].value >= 0.0)
      && (c.gainRaw[j] <= c.gainRaw[k] ==> r.gainCorr[j].value <= r.gainCorr[k].value)
  {
    var d := Max(num.Abs(href(c.freq[j])), 0.000000000001);
    var corr := Corrected(num, c.gainRaw, c.freq, href, |c.freq|);
    var g := MagnitudeCorrection(num, c, href).value.gainCorr;
    assert g == Somes(corr);
    assert g[j] == Some(corr[j]) && g[k] == Some(corr[k]);
    assert corr[j] == Round6(c.gainRaw[j] / d);
    assert corr[k] == Round6(c.gainRaw[k] / d);
    CorrectionOrder(c.gainRaw[j], c.gainRaw[k], d);
  }
}
