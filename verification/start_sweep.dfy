/** The sweep use case: validate the settings, configure both instruments,
    then for every frequency point set the generator, read back what it
    did, acquire the response (re-acquiring once after an auto-range
    change), measure, optionally correct against a reference, and report
    progress; the run ends with exactly one of completed, stopped or
    failed.

    The instruments are an oracle `ports(trace, call)`: the reply to a
    call given every call made before it, where an `Err` reply is the
    exception the driver raises. The stop flag is an oracle `stop(i)`:
    whether it is set when point `i` (counting from 0) is about to start.
    Timestamps are not modelled beyond which moment they mark. */
module StartSweep {
  import opened Wrappers
  import opened PyNumbers
  import opened Numerics
  import opened Enums
  import opened Models
  import opened Validators
  import opened SweepEngine
  import opened SignalProcessing
  import opened Calibration

  /** A call on one of the two instrument ports. */
  datatype Call =
    | AwgReset
    | OscReset
    | AwgOutputOn(ch: int)
    | AwgSetImpedance(imp: string, ch: int)
    | AwgSetAmplitude(vpp: real, ch: int)
    | AwgSetFrequency(freqHz: real, ch: int)
    | AwgGetFrequency(ch: int)
    | AwgGetAmplitude(ch: int)
    | OscOutputOn(ch: int)
    | OscSetCoupling(ch: int, coupling: string)
    | OscSetImpedance(ch: int, imp: string)
    | OscSetVertical(ch: int, fullScale: real, offset: real)
    | OscGetVertical(ch: int)
    | OscArmTrigger(ch: int, level: real)
    | OscSetFreeRun
    | OscGetSampleRate
    | OscSetTimebase(window: real)
    | OscSingleAcquire(triggered: bool)
    | OscReadWaveform(ch: int, points: int)

  /** What a port call returns when it does not raise. */
  datatype Reply =
    | Done
    | Number(x: real)
    | Waveform(times: seq<real>, volts: seq<real>)
    | Vertical(fullScale: real, offset: real)

  /** Everything the run consults but does not compute: the instruments,
      the stop flag, the numeric library and `f"{x:.6f}"`. */
  datatype Env = Env(
    ports: (seq<Call>, Call) -> Result<Reply>,
    stop: nat -> bool,
    num: Numerics,
    fixed6: real -> string)

  /** `StartSweepCommand`. */
  datatype Command = Command(settings: AppSettings, calibrationEnabled: bool, reference: Option<Interpolator>)

  /** The events the run emits, in the order it emits them. */
  datatype Event =
    | Started(total: nat)
    | Progress(freqHz: real, pointIndex: nat, total: nat)
    | DataUpdated(lastPoint: SweepPoint, partial: SweepResult)
    | Warning(code: string, message: string)
    | Failed(errorCode: string, message: string)
    | Completed(result: SweepResult)
    | Stopped(result: SweepResult)

  predicate Terminal(e: Event) {
    e.Failed? || e.Completed? || e.Stopped?
  }

  predicate IsProgress(e: Event) {
    e.Progress?
  }

  predicate SetsFrequency(c: Call) {
    c.AwgSetFrequency?
  }

  predicate Acquires(c: Call) {
    c.OscSingleAcquire?
  }

  /** The codes of the warnings a run may emit. */
  predicate KnownWarning(e: Event) {
    e.Warning? ==> e.code in {"READY", "FREQ_MISMATCH", "AMP_MISMATCH"}
  }

  /** What `run` returns, together with every port call and every event. */
  datatype RunOutput = RunOutput(result: SweepResult, trace: seq<Call>, events: seq<Event>)

  // ---------------------------------------------------------------------
  // Counting in traces.

  function CountWhere<T>(s: seq<T>, p: T -> bool): (n: nat)
    ensures n <= |s|
  {
    if s == [] then 0 else CountWhere(s[..|s| - 1], p) + (if p(s[|s| - 1]) then 1 else 0)
  }

  lemma CountSnoc<T>(s: seq<T>, x: T, p: T -> bool)
    ensures CountWhere(s + [x], p) == CountWhere(s, p) + (if p(x) then 1 else 0)
  {
    assert (s + [x])[..|s|] == s;
  }

  lemma {:induction false} CountAppend<T>(a: seq<T>, b: seq<T>, p: T -> bool)
    ensures CountWhere(a + b, p) == CountWhere(a, p) + CountWhere(b, p)
    decreases |b|
  {
    if b == [] {
      assert a + b == a;
    } else {
      var c := a + b;
      assert c[..|c| - 1] == a + b[..|b| - 1];
      CountAppend(a, b[..|b| - 1], p);
    }
  }

  /** A sequence none of whose elements satisfies `p` counts zero. */
  lemma {:induction false} CountNone<T>(s: seq<T>, p: T -> bool)
    requires forall k :: 0 <= k < |s| ==> !p(s[k])
    ensures CountWhere(s, p) == 0
  {
    if s != [] {
      CountNone(s[..|s| - 1], p);
    }
  }

  // ---------------------------------------------------------------------
  // Port calls.

  /** What a stretch of the run produces: its value or the exception
      that ended it, the trace with its calls appended, and the warnings
      it emitted. */
  datatype Step<T> = Step(r: Result<T>, trace: seq<Call>, warnings: seq<Event>)

  /** A waveform as the port returns it: time stamps and volts. */
  type Wave = (seq<real>, seq<real>)

  /** Recording one call adds one to the counts it matches. */
  lemma CountCall(trace: seq<Call>, c: Call)
    ensures Extends(trace, trace + [c])
    ensures CountWhere(trace + [c], SetsFrequency) == CountWhere(trace, SetsFrequency) + (if c.AwgSetFrequency? then 1 else 0)
    ensures CountWhere(trace + [c], Acquires) == CountWhere(trace, Acquires) + (if c.OscSingleAcquire? then 1 else 0)
  {
    assert (trace + [c])[..|trace|] == trace;
    CountSnoc(trace, c, SetsFrequency);
    CountSnoc(trace, c, Acquires);
  }

  /** A numeric query's reply; a reply of another shape is the
      `TypeError` that converting it would raise. */
  function NumberOf(r: Result<Reply>): (x: Result<real>)
    ensures x.Ok? <==> r.Ok? && r.value.Number?
    ensures x.Ok? ==> x.value == r.value.x
  {
    match r
    case Err(e) => Err(e)
    case Ok(Number(x)) => Ok(x)
    case Ok(_) => Raise(TypeError, "unexpected instrument reply")
  }

  function WaveOf(r: Result<Reply>): (w: Result<(seq<real>, seq<real>)>)
    ensures w.Ok? <==> r.Ok? && r.value.Waveform?
    ensures w.Ok? ==> w.value == (r.value.times, r.value.volts)
  {
    match r
    case Err(e) => Err(e)
    case Ok(Waveform(t, v)) => Ok((t, v))
    case Ok(_) => Raise(TypeError, "unexpected instrument reply")
  }

  /** Every call of `calls` answered without raising, after `trace`. */
  predicate AnsweredUpTo(env: Env, trace: seq<Call>, calls: seq<Call>, k: nat)
    requires k <= |calls|
  {
    forall j :: 0 <= j < k ==> env.ports(trace + calls[..j], calls[j]).Ok?
  }

  /** Issue commands in order, stopping at the first one that raises. */
  method Issue(env: Env, trace: seq<Call>, calls: seq<Call>) returns (r: Result<()>, trace': seq<Call>)
    ensures r.Ok? <==> AnsweredUpTo(env, trace, calls, |calls|)
    ensures r.Ok? ==> trace' == trace + calls
    ensures r.Err? ==>
      exists k :: 0 <= k < |calls| && trace' == trace + calls[..k + 1]
        && AnsweredUpTo(env, trace, calls, k) && env.ports(trace + calls[..k], calls[k]).Err?
        && r.error == env.ports(trace + calls[..k], calls[k]).error
    ensures (forall k :: 0 <= k < |calls| ==> !SetsFrequency(calls[k]) && !Acquires(calls[k])) ==>
      CountWhere(trace', SetsFrequency) == CountWhere(trace, SetsFrequency)
      && CountWhere(trace', Acquires) == CountWhere(trace, Acquires)
  {
    trace' := trace;
    var i := 0;
    while i < |calls|
      invariant 0 <= i <= |calls|
      invariant trace' == trace + calls[..i]
      invariant AnsweredUpTo(env, trace, calls, i)
      invariant (forall k :: 0 <= k < |calls| ==> !SetsFrequency(calls[k]) && !Acquires(calls[k])) ==>
        CountWhere(trace', SetsFrequency) == CountWhere(trace, SetsFrequency)
        && CountWhere(trace', Acquires) == CountWhere(trace, Acquires)
    {
      var reply := env.ports(trace', calls[i]);
      CountCall(trace', calls[i]);
      assert calls[..i + 1] == calls[..i] + [calls[i]];
      trace' := trace' + [calls[i]];
      if reply.Err? {
        assert !AnsweredUpTo(env, trace, calls, |calls|) by {
          assert env.ports(trace + calls[..i], calls[i]).Err?;
        }
        return Err(reply.error), trace';
      }
      i := i + 1;
    }
    assert calls[..|calls|] == calls;
    r := Ok(());
  }

  // ---------------------------------------------------------------------
  // Configuring the instruments.

  /** The commands that put one oscilloscope channel into the configured
      state: enabled, coupling, impedance, then range and offset. */
  function ChannelCalls(ch: int, o: OscSettings): seq<Call> {
    [OscOutputOn(ch), OscSetCoupling(ch, o.coupling.Value()), OscSetImpedance(ch, o.impedance.Value()),
     OscSetVertical(ch, o.fullScaleV, o.offsetV)]
  }

  /** `_configure_instruments` as the command list it sends: optional
      resets, the generator channel, the test channel, the reference
      channel in dual mode when one is set, then the trigger. */
  function ConfigureCalls(s: AppSettings): (calls: seq<Call>)
    ensures forall k :: 0 <= k < |calls| ==> !SetsFrequency(calls[k]) && !Acquires(calls[k])
  {
    var su := s.setup;
    var awgCh := su.channels.awgCh;
    var testCh := su.channels.oscTestCh;
    var resets := if s.runMode.autoReset then [AwgReset, OscReset] else [];
    var awg := [AwgOutputOn(awgCh), AwgSetImpedance(su.awgSettings.impedance.Value(), awgCh),
                AwgSetAmplitude(su.awgSettings.amplitudeVpp, awgCh)];
    var refCh := su.channels.oscRefCh;
    var ref := if s.runMode.correctionMode == Dual && Truthy(refCh) then ChannelCalls(refCh.value, su.oscSettings) else [];
    var trigCh := OrDefault(su.channels.oscTrigCh, testCh);
    var trig := if s.runMode.triggerMode == Triggered then [OscOutputOn(trigCh), OscArmTrigger(trigCh, 0.0)]
                else [OscSetFreeRun];
    resets + awg + ChannelCalls(testCh, su.oscSettings) + ref + trig
  }

  /** The configuration in terms of the settings: resets come first
      exactly when auto-reset is on, the generator is enabled at the
      requested amplitude, the test channel (and in dual mode a set
      reference channel) gets range and offset, and the last command arms
      the trigger channel (the test channel when none is set) at 0 V or
      selects free run. */
  lemma ConfigureCallsSpec(s: AppSettings)
    ensures var calls := ConfigureCalls(s); var su := s.setup; var o := su.oscSettings;
      && |calls| == (if s.runMode.autoReset then 2 else 0) + 7
                    + (if s.runMode.correctionMode == Dual && Truthy(su.channels.oscRefCh) then 4 else 0)
                    + (if s.runMode.triggerMode == Triggered then 2 else 1)
      && (s.runMode.autoReset <==> calls[0] == AwgReset)
      && AwgSetAmplitude(su.awgSettings.amplitudeVpp, su.channels.awgCh) in calls
      && OscSetVertical(su.channels.oscTestCh, o.fullScaleV, o.offsetV) in calls
      && (s.runMode.correctionMode == Dual && Truthy(su.channels.oscRefCh) ==>
            OscSetVertical(su.channels.oscRefCh.value, o.fullScaleV, o.offsetV) in calls)
      && (s.runMode.triggerMode == Triggered ==>
            calls[|calls| - 1] == OscArmTrigger(OrDefault(su.channels.oscTrigCh, su.channels.oscTestCh), 0.0))
      && (s.runMode.triggerMode == FreeRun ==> calls[|calls| - 1] == OscSetFreeRun)
  {
    var calls := ConfigureCalls(s);
    if !s.runMode.autoReset {
      assert calls[0] == AwgOutputOn(s.setup.channels.awgCh);
    }
  }

  /** `_configure_instruments`: the commands of `ConfigureCalls` in order,
      then a `READY` warning; a command that raises ends it there. */
  method ConfigureInstruments(env: Env, s: AppSettings, trace: seq<Call>)
    returns (r: Result<()>, trace': seq<Call>, events: seq<Event>)
    ensures r.Ok? <==> AnsweredUpTo(env, trace, ConfigureCalls(s), |ConfigureCalls(s)|)
    ensures r.Ok? ==> trace' == trace + ConfigureCalls(s) && events == [Warning("READY", "Instruments configured")]
    ensures r.Err? ==> events == [] && |trace| < |trace'| <= |trace| + |ConfigureCalls(s)|
    ensures CountWhere(trace', SetsFrequency) == CountWhere(trace, SetsFrequency)
    ensures CountWhere(trace', Acquires) == CountWhere(trace, Acquires)
  {
    r, trace' := Issue(env, trace, ConfigureCalls(s));
    events := if r.Ok? then [Warning("READY", "Instruments configured")] else [];
  }

  // ---------------------------------------------------------------------
  // Auto-ranging.

  lemma RatioScale(vpp: real, current: real, k: real)
    requires current > 0.0
    ensures vpp / current > k <==> vpp > k * current
    ensures vpp / current < k <==> vpp < k * current
  {
    var q := vpp / current;
    assert vpp == q * current;
    assert q * current - k * current == (q - k) * current;
  }

  /** The full-scale range auto-ranging aims for: a swing above 85% of
      the range grows it so the swing fills 70%; a positive swing below
      55% shrinks it towards 70%, but never below half the range; any
      other swing keeps it. */
  function TargetRange(vpp: real, current: real): (t: real)
    requires current > 0.0
    ensures vpp / current > 0.85 ==> t == vpp / 0.7 && t > current
    ensures 0.0 < vpp / current < 0.55 ==> current * 0.5 <= t < current && t >= vpp / 0.7
    ensures vpp / current <= 0.0 || 0.55 <= vpp / current <= 0.85 ==> t == current
  {
    var ratio := vpp / current;
    RatioScale(vpp, current, 0.85);
    RatioScale(vpp, current, 0.55);
    if ratio > 0.85 then vpp / 0.7
    else if 0.0 < ratio < 0.55 then Max(vpp / 0.7, current * 0.5)
    else current
  }

  /** The offset auto-ranging aims for: the waveform's midpoint when that
      is more than 20% of the range away from the current offset, and
      otherwise the offset the settings request (not the current one). */
  function TargetOffset(midpoint: real, current: real, currentOffset: real, requested: real): (t: real)
    ensures Abs(midpoint - currentOffset) > current * 0.2 ==> t == midpoint
    ensures Abs(midpoint - currentOffset) <= current * 0.2 ==> t == requested
  {
    if Abs(midpoint - currentOffset) > current * 0.2 then midpoint else requested
  }

  /** The vertical setting `_adjust_auto_range` writes for a waveform
      spanning `vmin..vmax`, or `None` when both targets are within 1%
      (or 1 mV) of the current values. */
  function AutoRangeDecision(vmax: real, vmin: real, current: real, currentOffset: real, requested: real)
    : (d: Option<(real, real)>)
    requires current > 0.0
    ensures var tr := TargetRange(vmax - vmin, current);
      var to := TargetOffset((vmax + vmin) / 2.0, current, currentOffset, requested);
      && (d.Some? <==> !IsClose(tr, current, 0.01, 0.001) || !IsClose(to, currentOffset, 0.01, 0.001))
      && (d.Some? ==> d.value == (tr, to))
  {
    var tr := TargetRange(vmax - vmin, current);
    var to := TargetOffset((vmax + vmin) / 2.0, current, currentOffset, requested);
    if !IsClose(tr, current, 0.01, 0.001) || !IsClose(to, currentOffset, 0.01, 0.001) then Some((tr, to))
    else None
  }

  /** Growing the range settles it: after a grow, the same waveform sits
      at 70% of the new range, so a second decision keeps the range. */
  lemma GrownRangeSettles(vpp: real, current: real)
    requires current > 0.0 && vpp / current > 0.85
    ensures TargetRange(vpp, TargetRange(vpp, current)) == TargetRange(vpp, current)
  {
    var t := TargetRange(vpp, current);
    RatioScale(vpp, current, 0.85);
    assert t == vpp / 0.7;
    assert vpp / t == 0.7;
  }

  /** The offset need not settle: a waveform centred on 1 V, read with a
      1 V range at offset 0 V while 0 V is requested, moves the offset to
      1 V; read again at that offset it moves back to the requested 0 V. */
  lemma OffsetReturnsToRequested()
    ensures AutoRangeDecision(1.35, 0.65, 1.0, 0.0, 0.0) == Some((1.0, 1.0))
    ensures AutoRangeDecision(1.35, 0.65, 1.0, 1.0, 0.0) == Some((1.0, 0.0))
  {
    assert TargetRange(1.35 - 0.65, 1.0) == 1.0;
    assert (1.35 + 0.65) / 2.0 == 1.0;
  }

  /** The vertical setting `_adjust_auto_range` writes for a non-empty
      waveform, given the reply to its vertical query: none when the query
      fails or is not a setting, when the current range is not positive,
      or when both targets are already close. */
  function WriteDecision(reply: Result<Reply>, volts: seq<real>, requested: real): Option<(real, real)>
    requires |volts| > 0
  {
    if reply.Ok? && reply.value.Vertical? && reply.value.fullScale > 0.0 then
      AutoRangeDecision(SeqMax(volts), SeqMin(volts), reply.value.fullScale, reply.value.offset, requested)
    else None
  }

  /** `_adjust_auto_range` on one channel: nothing for an empty waveform;
      otherwise the current vertical setting is read, and the range and
      offset `AutoRangeDecision` picks for the waveform's extremes are
      written exactly when it picks some (and the current range is
      positive). The result is whether it wrote; a query or write that
      raises is the error. */
  function AdjustAutoRange(env: Env, trace: seq<Call>, ch: int, volts: seq<real>, requestedOffset: real)
    : (o: Step<bool>)
    ensures o.warnings == []
    ensures |volts| == 0 ==> o.r == Ok(false) && o.trace == trace
    ensures |volts| > 0 ==>
      var q := OscGetVertical(ch);
      var reply := env.ports(trace, q);
      var d := WriteDecision(reply, volts, requestedOffset);
      && (d.None? ==> o.trace == trace + [q])
      && (d.Some? ==> o.trace == trace + [q, OscSetVertical(ch, d.value.0, d.value.1)])
      && (o.r == Ok(true) <==> d.Some? && env.ports(trace + [q], OscSetVertical(ch, d.value.0, d.value.1)).Ok?)
      && (o.r.Err? <==> reply.Err? || !reply.value.Vertical?
                        || (d.Some? && env.ports(trace + [q], OscSetVertical(ch, d.value.0, d.value.1)).Err?))
    ensures CountWhere(o.trace, SetsFrequency) == CountWhere(trace, SetsFrequency)
    ensures CountWhere(o.trace, Acquires) == CountWhere(trace, Acquires)
    ensures Extends(trace, o.trace) && |o.trace| <= |trace| + 2
  {
    if |volts| == 0 then Step(Ok(false), trace, [])
    else
      var q := OscGetVertical(ch);
      var t1 := trace + [q];
      var reply := env.ports(trace, q);
      CountCall(trace, q);
      if reply.Err? then Step(Err(reply.error), t1, [])
      else if !reply.value.Vertical? then Step(Raise(TypeError, "unexpected instrument reply"), t1, [])
      else
        match WriteDecision(reply, volts, requestedOffset)
        case None => Step(Ok(false), t1, [])
        case Some(target) =>
          var w := OscSetVertical(ch, target.0, target.1);
          CountCall(t1, w);
          ExtendsTrans(trace, t1, t1 + [w]);
          assert t1 + [w] == trace + [q, w];
          var done := env.ports(t1, w);
          Step(if done.Err? then Err(done.error) else Ok(true), t1 + [w], [])
  }

  // ---------------------------------------------------------------------
  // One frequency point.

  /** A read-back query: the number the instrument reports, and a
      mismatch warning when it is not close to the requested value. */
  function ReadOne(env: Env, trace: seq<Call>, c: Call, requested: real, rtol: real, atol: real,
                   code: string, unit: string): (o: Step<real>)
    ensures o.trace == trace + [c] && o.r == NumberOf(env.ports(trace, c))
    ensures o.r.Err? ==> o.warnings == []
    ensures o.r.Ok? ==> (o.warnings == [] <==> IsClose(o.r.value, requested, rtol, atol))
    ensures |o.warnings| <= 1 && forall k :: 0 <= k < |o.warnings| ==> o.warnings[k].Warning? && o.warnings[k].code == code
  {
    var x := NumberOf(env.ports(trace, c));
    var w := if x.Ok? && !IsClose(x.value, requested, rtol, atol) then
               [Warning(code, "Requested " + env.fixed6(requested) + " " + unit
                              + ", actual " + env.fixed6(x.value) + " " + unit)]
             else [];
    Step(x, trace + [c], w)
  }

  /** Set the generator to the target, then read back its frequency and
      amplitude, warning about either when it differs from the request;
      a mismatch never fails the point. */
  function ReadBack(env: Env, s: AppSettings, trace: seq<Call>, target: real): (o: Step<(real, real)>)
    ensures var ch := s.setup.channels.awgCh;
      var c0 := AwgSetFrequency(target, ch);
      && |trace| < |o.trace| <= |trace| + 3 && o.trace[..|trace| + 1] == trace + [c0]
      && (o.r.Ok? <==>
            && env.ports(trace, c0).Ok?
            && NumberOf(env.ports(trace + [c0], AwgGetFrequency(ch))).Ok?
            && NumberOf(env.ports(trace + [c0, AwgGetFrequency(ch)], AwgGetAmplitude(ch))).Ok?)
      && (o.r.Ok? ==>
            && o.trace == trace + [c0, AwgGetFrequency(ch), AwgGetAmplitude(ch)]
            && o.r.value.0 == NumberOf(env.ports(trace + [c0], AwgGetFrequency(ch))).value
            && o.r.value.1 == NumberOf(env.ports(trace + [c0, AwgGetFrequency(ch)], AwgGetAmplitude(ch))).value
            && (o.warnings == [] <==>
                  IsClose(o.r.value.0, target, 0.000005, 0.001)
                  && IsClose(o.r.value.1, s.setup.awgSettings.amplitudeVpp, 0.001, 0.01)))
    ensures |o.warnings| <= 2 && forall k :: 0 <= k < |o.warnings| ==>
      o.warnings[k].Warning? && o.warnings[k].code in {"FREQ_MISMATCH", "AMP_MISMATCH"}
    ensures CountWhere(o.trace, SetsFrequency) == CountWhere(trace, SetsFrequency) + 1
    ensures CountWhere(o.trace, Acquires) == CountWhere(trace, Acquires)
  {
    var ch := s.setup.channels.awgCh;
    var c0 := AwgSetFrequency(target, ch);
    var t1 := trace + [c0];
    CountCall(trace, c0);
    ReadBackShape(trace, c0, AwgGetFrequency(ch), AwgGetAmplitude(ch));
    var sent := env.ports(trace, c0);
    if sent.Err? then Step(Err(sent.error), t1, [])
    else ReadPair(env, s, t1, target)
  }

  /** The two read-back queries after the frequency command; the second
      is sent only when the first answered with a number. */
  function ReadPair(env: Env, s: AppSettings, trace: seq<Call>, target: real): (o: Step<(real, real)>)
    ensures var ch := s.setup.channels.awgCh;
      var qf := AwgGetFrequency(ch);
      var qa := AwgGetAmplitude(ch);
      && (o.trace == trace + [qf] || o.trace == trace + [qf, qa])
      && (o.r.Ok? <==> NumberOf(env.ports(trace, qf)).Ok? && NumberOf(env.ports(trace + [qf], qa)).Ok?)
      && (o.r.Ok? ==>
            && o.trace == trace + [qf, qa]
            && o.r.value.0 == NumberOf(env.ports(trace, qf)).value
            && o.r.value.1 == NumberOf(env.ports(trace + [qf], qa)).value
            && (o.warnings == [] <==>
                  IsClose(o.r.value.0, target, 0.000005, 0.001)
                  && IsClose(o.r.value.1, s.setup.awgSettings.amplitudeVpp, 0.001, 0.01)))
    ensures |o.warnings| <= 2 && forall k :: 0 <= k < |o.warnings| ==>
      o.warnings[k].Warning? && o.warnings[k].code in {"FREQ_MISMATCH", "AMP_MISMATCH"}
    ensures CountWhere(o.trace, SetsFrequency) == CountWhere(trace, SetsFrequency)
    ensures CountWhere(o.trace, Acquires) == CountWhere(trace, Acquires)
  {
    var ch := s.setup.channels.awgCh;
    var f := ReadOne(env, trace, AwgGetFrequency(ch), target, 0.000005, 0.001, "FREQ_MISMATCH", "Hz");
    CountCall(trace, AwgGetFrequency(ch));
    if f.r.Err? then Step(Err(f.r.error), f.trace, f.warnings)
    else
      var a := ReadOne(env, f.trace, AwgGetAmplitude(ch), s.setup.awgSettings.amplitudeVpp, 0.001, 0.01,
                       "AMP_MISMATCH", "Vpp");
      CountCall(f.trace, AwgGetAmplitude(ch));
      assert a.trace == trace + [AwgGetFrequency(ch), AwgGetAmplitude(ch)];
      var w := f.warnings + a.warnings;
      if a.r.Err? then Step(Err(a.r.error), a.trace, w)
      else Step(Ok((f.r.value, a.r.value)), a.trace, w)
  }

  lemma ReadBackShape(trace: seq<Call>, c0: Call, c1: Call, c2: Call)
    ensures trace + [c0] + [c1] == trace + [c0, c1]
    ensures trace + [c0] + [c1, c2] == trace + [c0, c1, c2]
    ensures (trace + [c0])[..|trace| + 1] == trace + [c0]
    ensures (trace + [c0, c1])[..|trace| + 1] == trace + [c0]
    ensures (trace + [c0, c1, c2])[..|trace| + 1] == trace + [c0]
  {
    assert (trace + [c0, c1])[..|trace| + 1] == trace + [c0];
    assert (trace + [c0, c1, c2])[..|trace| + 1] == trace + [c0];
  }

  /** `trace` is a prefix of `trace'`: calls are only ever appended. */
  predicate Extends(trace: seq<Call>, trace': seq<Call>) {
    |trace| <= |trace'| && trace'[..|trace|] == trace
  }

  lemma ExtendsTrans(a: seq<Call>, b: seq<Call>, c: seq<Call>)
    requires Extends(a, b) && Extends(b, c)
    ensures Extends(a, c)
  {
    assert c[..|a|] == c[..|b|][..|a|];
  }

  /** The calls of one acquisition of the test channel once the sample
      rate `sr` is known: the time base sized for the actual frequency,
      the acquisition, and the read. */
  function AcquireCalls(s: AppSettings, actual: real, sr: real): seq<Call> {
    [OscSetTimebase(SamplingWindow(actual, sr, s.setup.oscSettings.points)),
     OscSingleAcquire(s.runMode.triggerMode == Triggered),
     OscReadWaveform(s.setup.channels.oscTestCh, s.setup.oscSettings.points)]
  }

  /** With the sample rate known: size the time base, acquire once and
      read the test channel; the waveform is the reply to that read. */
  function AcquireAt(env: Env, s: AppSettings, trace: seq<Call>, actual: real, sr: real): (o: Step<Wave>)
    ensures o.warnings == []
    ensures Extends(trace, o.trace) && |trace| < |o.trace| <= |trace| + 3
    ensures o.trace[|trace|] == AcquireCalls(s, actual, sr)[0]
    ensures o.r.Ok? ==>
      var calls := AcquireCalls(s, actual, sr);
      o.trace == trace + calls && o.r == WaveOf(env.ports(trace + calls[..2], calls[2]))
    ensures CountWhere(o.trace, SetsFrequency) == CountWhere(trace, SetsFrequency)
    ensures CountWhere(o.trace, Acquires) <= CountWhere(trace, Acquires) + 1
    ensures o.r.Ok? ==> CountWhere(o.trace, Acquires) == CountWhere(trace, Acquires) + 1
  {
    var c1 := OscSetTimebase(SamplingWindow(actual, sr, s.setup.oscSettings.points));
    var c2 := OscSingleAcquire(s.runMode.triggerMode == Triggered);
    var c3 := OscReadWaveform(s.setup.channels.oscTestCh, s.setup.oscSettings.points);
    assert AcquireCalls(s, actual, sr) == [c1, c2, c3];
    var t1 := trace + [c1];
    CountCall(trace, c1);
    var tb := env.ports(trace, c1);
    if tb.Err? then Step(Err(tb.error), t1, [])
    else
      var t2 := t1 + [c2];
      CountCall(t1, c2);
      ExtendsTrans(trace, t1, t2);
      var acq := env.ports(t1, c2);
      if acq.Err? then Step(Err(acq.error), t2, [])
      else
        ThreeCalls(trace, c1, c2, c3);
        Step(WaveOf(env.ports(t2, c3)), t2 + [c3], [])
  }

  /** The trace after three calls, and its counts. */
  lemma ThreeCalls(trace: seq<Call>, c1: Call, c2: Call, c3: Call)
    requires !c1.AwgSetFrequency? && !c1.OscSingleAcquire? && c2.OscSingleAcquire? && !c3.AwgSetFrequency? && !c3.OscSingleAcquire?
    ensures var t := trace + [c1] + [c2] + [c3];
      && t == trace + [c1, c2, c3] && trace + [c1] + [c2] == trace + [c1, c2, c3][..2]
      && Extends(trace, t) && t[|trace|] == c1
      && CountWhere(t, SetsFrequency) == CountWhere(trace, SetsFrequency)
      && CountWhere(t, Acquires) == CountWhere(trace, Acquires) + 1
  {
    ThreeCallsShape(trace, c1, c2, c3);
    CountCall(trace, c1);
    CountCall(trace + [c1], c2);
    CountCall(trace + [c1] + [c2], c3);
  }

  lemma ThreeCallsShape(trace: seq<Call>, c1: Call, c2: Call, c3: Call)
    ensures var t := trace + [c1] + [c2] + [c3];
      && t == trace + [c1, c2, c3] && trace + [c1] + [c2] == trace + [c1, c2, c3][..2]
      && Extends(trace, t) && t[|trace|] == c1
  {
    var t := trace + [c1] + [c2] + [c3];
    assert t == trace + [c1, c2, c3];
    assert [c1, c2, c3][..2] == [c1, c2];
    assert t[..|trace|] == trace;
  }

  /** Size the time base for the actual frequency, acquire once and read
      the test channel; the waveform is the reply to that read. */
  function AcquireOnce(env: Env, s: AppSettings, trace: seq<Call>, actual: real): (o: Step<Wave>)
    ensures o.warnings == []
    ensures Extends(trace, o.trace) && |trace| < |o.trace| <= |trace| + 4
    ensures o.trace[|trace|] == OscGetSampleRate
    ensures |o.trace| > |trace| + 1 ==>
      NumberOf(env.ports(trace, OscGetSampleRate)).Ok? &&
      o.trace[|trace| + 1] == OscSetTimebase(SamplingWindow(actual, NumberOf(env.ports(trace, OscGetSampleRate)).value,
                                                            s.setup.oscSettings.points))
    ensures o.r.Ok? ==>
      && NumberOf(env.ports(trace, OscGetSampleRate)).Ok?
      && var calls := AcquireCalls(s, actual, NumberOf(env.ports(trace, OscGetSampleRate)).value);
         && o.trace == trace + [OscGetSampleRate] + calls
         && o.r == WaveOf(env.ports(trace + [OscGetSampleRate] + calls[..2], calls[2]))
    ensures CountWhere(o.trace, SetsFrequency) == CountWhere(trace, SetsFrequency)
    ensures CountWhere(o.trace, Acquires) <= CountWhere(trace, Acquires) + 1
    ensures o.r.Ok? ==> CountWhere(o.trace, Acquires) == CountWhere(trace, Acquires) + 1
  {
    var t1 := trace + [OscGetSampleRate];
    CountCall(trace, OscGetSampleRate);
    var sr := NumberOf(env.ports(trace, OscGetSampleRate));
    if sr.Err? then Step(Err(sr.error), t1, [])
    else
      var o := AcquireAt(env, s, t1, actual, sr.value);
      ExtendsTrans(trace, t1, o.trace);
      assert o.trace[|trace|] == o.trace[..|t1|][|trace|];
      o
  }

  /** With auto-range on, consult the adjuster once on the test channel,
      and when it wrote a new setting acquire and read the test channel
      once more; the adjuster is not consulted again. */
  function Reacquire(env: Env, s: AppSettings, trace: seq<Call>, wave: Wave): (o: Step<Wave>)
    ensures o.warnings == []
    ensures !s.runMode.autoRange ==> o.r == Ok(wave) && o.trace == trace
    ensures s.runMode.autoRange ==>
      var adj := AdjustAutoRange(env, trace, s.setup.channels.oscTestCh, wave.1, s.setup.oscSettings.offsetV);
      var again := [OscSingleAcquire(s.runMode.triggerMode == Triggered),
                    OscReadWaveform(s.setup.channels.oscTestCh, s.setup.oscSettings.points)];
      && (adj.r == Ok(false) ==> o.r == Ok(wave) && o.trace == adj.trace)
      && (adj.r.Err? ==> o.r.Err? && o.trace == adj.trace)
      && (adj.r == Ok(true) && o.r.Ok? ==>
            o.trace == adj.trace + again && o.r == WaveOf(env.ports(adj.trace + again[..1], again[1])))
    ensures Extends(trace, o.trace) && |o.trace| <= |trace| + 4
    ensures CountWhere(o.trace, SetsFrequency) == CountWhere(trace, SetsFrequency)
    ensures CountWhere(trace, Acquires) <= CountWhere(o.trace, Acquires) <= CountWhere(trace, Acquires) + 1
  {
    if !s.runMode.autoRange then Step(Ok(wave), trace, [])
    else
      var su := s.setup;
      var testCh := su.channels.oscTestCh;
      var adj := AdjustAutoRange(env, trace, testCh, wave.1, su.oscSettings.offsetV);
      if adj.r.Err? then Step(Err(adj.r.error), adj.trace, [])
      else if !adj.r.value then Step(Ok(wave), adj.trace, [])
      else
        var acq := OscSingleAcquire(s.runMode.triggerMode == Triggered);
        var rd := OscReadWaveform(testCh, su.oscSettings.points);
        var t2 := adj.trace + [acq];
        CountCall(adj.trace, acq);
        ExtendsTrans(trace, adj.trace, t2);
        var again := env.ports(adj.trace, acq);
        if again.Err? then Step(Err(again.error), t2, [])
        else
          CountCall(t2, rd);
          ExtendsTrans(trace, t2, t2 + [rd]);
          assert t2 + [rd] == adj.trace + [acq, rd] && [acq, rd][..1] == [acq];
          Step(WaveOf(env.ports(t2, rd)), t2 + [rd], [])
  }

  /** Acquire the test channel for one point: at least one and at most two
      acquisitions, and at most one without auto-range. The waveform is
      the first acquisition's, or the re-acquired one. */
  function Acquire(env: Env, s: AppSettings, trace: seq<Call>, actual: real): (o: Step<Wave>)
    ensures o.warnings == []
    ensures Extends(trace, o.trace) && |o.trace| > |trace|
    ensures CountWhere(o.trace, SetsFrequency) == CountWhere(trace, SetsFrequency)
    ensures CountWhere(o.trace, Acquires) <= CountWhere(trace, Acquires) + 2
    ensures !s.runMode.autoRange ==> CountWhere(o.trace, Acquires) <= CountWhere(trace, Acquires) + 1
    ensures o.r.Ok? ==> CountWhere(o.trace, Acquires) >= CountWhere(trace, Acquires) + 1
    ensures o.r.Ok? ==>
      var first := AcquireOnce(env, s, trace, actual);
      first.r.Ok? && o == Reacquire(env, s, first.trace, first.r.value)
  {
    var first := AcquireOnce(env, s, trace, actual);
    if first.r.Err? then first
    else
      var again := Reacquire(env, s, first.trace, first.r.value);
      ExtendsTrans(trace, first.trace, again.trace);
      again
  }

  /** Measure the point: in dual mode against the reference channel (the
      test channel when none is set), otherwise against the drive the
      generator reported, with phase only when triggered. */
  function Measure(env: Env, s: AppSettings, trace: seq<Call>, actual: real, readAmp: real, wave: Wave)
    : (o: Step<Measurement>)
    ensures o.warnings == []
    ensures var su := s.setup;
      s.runMode.correctionMode != Dual ==>
        && o.trace == trace
        && o.r == MeasureSingleChannel(env.num, wave.0, wave.1, actual,
                    CalcVinPeak(readAmp, su.awgSettings.impedance.Value(), su.oscSettings.impedance.Value()),
                    s.runMode.triggerMode == Triggered)
    ensures var su := s.setup;
      var rd := OscReadWaveform(OrDefault(su.channels.oscRefCh, su.channels.oscTestCh), su.oscSettings.points);
      s.runMode.correctionMode == Dual ==>
        && o.trace == trace + [rd]
        && (o.r.Ok? <==> WaveOf(env.ports(trace, rd)).Ok?
                         && MeasureDualChannel(env.num, wave.0, wave.1, WaveOf(env.ports(trace, rd)).value.0,
                                               WaveOf(env.ports(trace, rd)).value.1, actual).Ok?)
        && (o.r.Ok? ==> o.r == MeasureDualChannel(env.num, wave.0, wave.1, WaveOf(env.ports(trace, rd)).value.0,
                                                  WaveOf(env.ports(trace, rd)).value.1, actual))
    ensures Extends(trace, o.trace)
    ensures CountWhere(o.trace, SetsFrequency) == CountWhere(trace, SetsFrequency)
    ensures CountWhere(o.trace, Acquires) == CountWhere(trace, Acquires)
  {
    var su := s.setup;
    if s.runMode.correctionMode == Dual then
      var rd := OscReadWaveform(OrDefault(su.channels.oscRefCh, su.channels.oscTestCh), su.oscSettings.points);
      CountCall(trace, rd);
      var refWave := WaveOf(env.ports(trace, rd));
      if refWave.Err? then Step(Err(refWave.error), trace + [rd], [])
      else Step(MeasureDualChannel(env.num, wave.0, wave.1, refWave.value.0, refWave.value.1, actual), trace + [rd], [])
    else
      assert trace[..|trace|] == trace;
      var vin := CalcVinPeak(readAmp, su.awgSettings.impedance.Value(), su.oscSettings.impedance.Value());
      Step(MeasureSingleChannel(env.num, wave.0, wave.1, actual, vin, s.runMode.triggerMode == Triggered), trace, [])
  }

  /** The reference correction of a measured point: applied only when
      calibration is enabled and an interpolator is present, with phase
      exactly in dual mode or when triggered. */
  function Calibrate(num: Numerics, cmd: Command, point: SweepPoint): (r: Result<SweepPoint>)
    ensures !(cmd.calibrationEnabled && cmd.reference.Some?) ==> r == Ok(point)
    ensures cmd.calibrationEnabled && cmd.reference.Some? ==>
      r == ApplyReferenceToPoint(num, point, Evaluate(num, cmd.reference.value, point.freqHz),
             cmd.settings.runMode.correctionMode == Dual || cmd.settings.runMode.triggerMode == Triggered)
    ensures r.Ok? ==> r.value.freqHz == point.freqHz
  {
    if cmd.calibrationEnabled && cmd.reference.Some? then
      var usePhase := cmd.settings.runMode.correctionMode == Dual || cmd.settings.runMode.triggerMode == Triggered;
      ApplyReferenceToPoint(num, point, Evaluate(num, cmd.reference.value, point.freqHz), usePhase)
    else Ok(point)
  }

  /** The point a measurement makes at the frequency the generator
      reported, before any reference correction. */
  function Measured(freqHz: real, m: Measurement): SweepPoint {
    SweepPoint(freqHz, m.gainLinear, m.gainDb, m.phaseDeg, m.gainComplex)
  }

  /** The body of the sweep loop for one target frequency: the first
      command sets the generator, there is exactly one such command and at
      most two acquisitions, only mismatch warnings are emitted, and a
      measured point sits at the frequency the generator reported. What
      the point holds is `PassPoint`. */
  function RunPoint(env: Env, cmd: Command, trace: seq<Call>, target: real): (o: Step<SweepPoint>)
    ensures var ch := cmd.settings.setup.channels.awgCh;
      && Extends(trace + [AwgSetFrequency(target, ch)], o.trace)
      && (o.r.Ok? ==> NumberOf(env.ports(trace + [AwgSetFrequency(target, ch)], AwgGetFrequency(ch))).Ok?
                      && o.r.value.freqHz == NumberOf(env.ports(trace + [AwgSetFrequency(target, ch)], AwgGetFrequency(ch))).value)
    ensures CountWhere(o.trace, SetsFrequency) == CountWhere(trace, SetsFrequency) + 1
    ensures CountWhere(o.trace, Acquires) <= CountWhere(trace, Acquires) + 2
    ensures forall k :: 0 <= k < |o.warnings| ==> o.warnings[k].Warning? && KnownWarning(o.warnings[k])
  {
    var s := cmd.settings;
    var c0 := AwgSetFrequency(target, s.setup.channels.awgCh);
    var rb := ReadBack(env, s, trace, target);
    assert Extends(trace + [c0], rb.trace);
    if rb.r.Err? then Step(Err(rb.r.error), rb.trace, rb.warnings)
    else
      var p := MeasurePoint(env, cmd, rb.trace, rb.r.value.0, rb.r.value.1);
      ExtendsTrans(trace + [c0], rb.trace, p.trace);
      Step(p.r, p.trace, rb.warnings)
  }

  /** The pass after the read-back: acquire at the frequency the
      generator reported, measure, and correct. */
  function MeasurePoint(env: Env, cmd: Command, trace: seq<Call>, actual: real, readAmp: real): (o: Step<SweepPoint>)
    ensures o.warnings == []
    ensures Extends(trace, o.trace)
    ensures CountWhere(o.trace, SetsFrequency) == CountWhere(trace, SetsFrequency)
    ensures CountWhere(o.trace, Acquires) <= CountWhere(trace, Acquires) + 2
    ensures o.r.Ok? ==> o.r.value.freqHz == actual
  {
    var s := cmd.settings;
    var acq := Acquire(env, s, trace, actual);
    if acq.r.Err? then Step(Err(acq.r.error), acq.trace, [])
    else
      var m := Measure(env, s, acq.trace, actual, readAmp, acq.r.value);
      ExtendsTrans(trace, acq.trace, m.trace);
      if m.r.Err? then Step(Err(m.r.error), m.trace, [])
      else Step(Calibrate(env.num, cmd, Measured(actual, m.r.value)), m.trace, [])
  }

  /** What one pass yields: a point exactly when the read-back, the
      acquisition, the measurement and the correction all succeed, and
      then it is the measurement of the acquired waveform at the frequency
      the generator reported, corrected by `Calibrate`; the pass ends
      after the measurement's calls. */
  lemma PassPoint(env: Env, cmd: Command, trace: seq<Call>, target: real)
    ensures var o := RunPoint(env, cmd, trace, target);
      var s := cmd.settings; var rb := ReadBack(env, s, trace, target);
      && (o.r.Ok? <==>
            && rb.r.Ok?
            && var acq := Acquire(env, s, rb.trace, rb.r.value.0);
               && acq.r.Ok?
               && var m := Measure(env, s, acq.trace, rb.r.value.0, rb.r.value.1, acq.r.value);
                  m.r.Ok? && Calibrate(env.num, cmd, Measured(rb.r.value.0, m.r.value)).Ok?)
      && (o.r.Ok? ==>
            var acq := Acquire(env, s, rb.trace, rb.r.value.0);
            var m := Measure(env, s, acq.trace, rb.r.value.0, rb.r.value.1, acq.r.value);
            && o.r == Calibrate(env.num, cmd, Measured(rb.r.value.0, m.r.value))
            && o.trace == m.trace)
  {
  }

  // ---------------------------------------------------------------------
  // The run.

  /** The metadata a run starts with. */
  function StartMeta(s: AppSettings): map<string, MetaValue> {
    map["started_at" := MetaStamp, "freq_unit" := MetaText(s.freqUnit), "schema_version" := MetaInt(s.schemaVersion)]
  }

  /** A run that failed after validation: an empty result and a
      `SWEEP_RUNTIME` failure carrying the exception's message. */
  function RuntimeFailure(trace: seq<Call>, events: seq<Event>, e: Exc): (out: RunOutput)
    ensures out.result == EmptyResult && out.trace == trace
    ensures out.events == events + [Failed("SWEEP_RUNTIME", e.message)]
  {
    RunOutput(EmptyResult, trace, events + [Failed("SWEEP_RUNTIME", e.message)])
  }

  /** The frequencies a run sweeps: the plan of valid settings. */
  function Plan(env: Env, s: AppSettings): seq<real> {
    var r := FrequencyPoints(env.num, s.sweep);
    if r.Ok? then r.value else []
  }

  /** Events of a run still in progress: `Started` first, no terminal
      event yet, only known warnings. */
  predicate Ongoing(events: seq<Event>, n: nat) {
    && |events| >= 2 && events[0] == Started(n)
    && forall k :: 0 <= k < |events| ==> !Terminal(events[k]) && KnownWarning(events[k])
  }

  /** A pass: from the trace so far and a planned frequency, the step
      that measures one point. */
  type PassFn = (seq<Call>, real) -> Step<SweepPoint>

  /** The pass of a run of `cmd`: `RunPoint`. */
  function PassOf(env: Env, cmd: Command): PassFn {
    (before: seq<Call>, target: real) => RunPoint(env, cmd, before, target)
  }

  /** The bookkeeping every pass keeps: it appends to the trace, sends
      one frequency command and at most two acquisitions, and warns only
      with known warnings. */
  predicate Bookkept(o: Step<SweepPoint>, trace: seq<Call>) {
    && Extends(trace, o.trace)
    && CountWhere(o.trace, SetsFrequency) == CountWhere(trace, SetsFrequency) + 1
    && CountWhere(o.trace, Acquires) <= CountWhere(trace, Acquires) + 2
    && forall k :: 0 <= k < |o.warnings| ==> o.warnings[k].Warning? && KnownWarning(o.warnings[k])
  }

  /** `RunPoint` keeps that bookkeeping after any trace, for any target. */
  lemma RunPointBookkept(env: Env, cmd: Command)
    ensures forall before, target :: Bookkept(PassOf(env, cmd)(before, target), before)
  {
    forall before, target
      ensures Bookkept(PassOf(env, cmd)(before, target), before)
    {
      var o := RunPoint(env, cmd, before, target);
      ExtendsTrans(before, before + [AwgSetFrequency(target, cmd.settings.setup.channels.awgCh)], o.trace);
    }
  }

  /** The pass for `target`, started after `before`, yields `point` and
      leaves the trace `after`. */
  predicate PassYields(pass: PassFn, before: seq<Call>, target: real, point: SweepPoint, after: seq<Call>) {
    var o := pass(before, target);
    o.r == Ok(point) && o.trace == after
  }

  /** The passes behind the points of a run: pass `k` starts at
      `starts[k]` in the trace, is the pass for the planned frequency
      `plan[k]`, yields `points[k]` and ends where pass `k + 1` starts;
      the last one ends the trace. */
  predicate Passes(pass: PassFn, plan: seq<real>, trace: seq<Call>, starts: seq<nat>,
                   points: seq<SweepPoint>) {
    && |starts| == |points| + 1 && |points| <= |plan|
    && starts[|points|] == |trace|
    && (forall k :: 0 <= k < |starts| ==> starts[k] <= |trace|)
    && forall k :: 0 <= k < |points| ==>
         PassYields(pass, trace[..starts[k]], plan[k], points[k], trace[..starts[k + 1]])
  }

  /** How a sweep over `plan` with passes `pass` and stop flag `stop`
      ends, once it got past validation and configuration (`from` calls):
      `Started(|plan|)` first and exactly one terminal event, last; a
      failure returns an empty result; completion measured every planned
      frequency once, in order, with one frequency command, at most two
      acquisitions and one progress event per point; a stop is seen
      before any command for the next point and returns the points
      measured so far. Every returned point is the one its pass yields,
      the passes following each other from the end of the
      configuration. */
  ghost predicate Ends(pass: PassFn, stop: nat -> bool, plan: seq<real>, from: nat, out: RunOutput) {
    var n := |plan|;
    && |out.events| >= 2 && out.events[0] == Started(n)
    && Terminal(out.events[|out.events| - 1])
    && (forall k :: 0 <= k < |out.events| - 1 ==> !Terminal(out.events[k]))
    && (forall k :: 0 <= k < |out.events| ==> KnownWarning(out.events[k]))
    && (out.events[|out.events| - 1].Failed? ==>
          out.result == EmptyResult && out.events[|out.events| - 1].errorCode == "SWEEP_RUNTIME")
    && (out.events[|out.events| - 1].Completed? ==>
          && out.events[|out.events| - 1] == Completed(out.result)
          && |out.result.points| == n
          && CountWhere(out.trace, SetsFrequency) == n
          && CountWhere(out.trace, Acquires) <= 2 * n
          && CountWhere(out.events, IsProgress) == n
          && "completed_at" in out.result.meta && "started_at" in out.result.meta
          && (forall j :: 0 <= j < n ==> !stop(j)))
    && (out.events[|out.events| - 1].Stopped? ==>
          && out.events[|out.events| - 1] == Stopped(out.result)
          && |out.result.points| < n
          && stop(|out.result.points|)
          && (forall j :: 0 <= j < |out.result.points| ==> !stop(j))
          && CountWhere(out.trace, SetsFrequency) == |out.result.points|
          && CountWhere(out.events, IsProgress) == |out.result.points|
          && "stopped_at" in out.result.meta)
    && (!out.events[|out.events| - 1].Failed? ==>
          exists starts :: |starts| > 0 && starts[0] == from && Passes(pass, plan, out.trace, starts, out.result.points))
  }

  /** How a run of `cmd` ends: as `Ends` says, the passes being
      `RunPoint` and the stop flag the one of the environment. */
  ghost predicate WellEnded(env: Env, cmd: Command, plan: seq<real>, from: nat, out: RunOutput) {
    Ends(PassOf(env, cmd), env.stop, plan, from, out)
  }

  /** One more pass extends the chain of passes. */
  lemma PassesGrow(pass: PassFn, plan: seq<real>, trace: seq<Call>, starts: seq<nat>,
                   points: seq<SweepPoint>, point: SweepPoint, trace': seq<Call>)
    requires Passes(pass, plan, trace, starts, points) && |points| < |plan|
    requires PassYields(pass, trace, plan[|points|], point, trace') && Extends(trace, trace')
    ensures Passes(pass, plan, trace', starts + [|trace'|], points + [point])
  {
    var st := starts + [|trace'|];
    var ps := points + [point];
    forall k | 0 <= k < |ps|
      ensures PassYields(pass, trace'[..st[k]], plan[k], ps[k], trace'[..st[k + 1]])
    {
      if k < |points| {
        assert trace'[..st[k]] == trace[..starts[k]];
        assert trace'[..st[k + 1]] == trace[..starts[k + 1]];
      } else {
        assert trace'[..st[k]] == trace;
        assert trace'[..st[k + 1]] == trace';
      }
    }
  }

  /** The bookkeeping after a measured point: warnings, then `Progress`
      and `DataUpdated`, add exactly one progress event and no terminal one. */
  lemma AfterPoint(events: seq<Event>, n: nat, warnings: seq<Event>, extra: seq<Event>)
    requires Ongoing(events, n)
    requires forall k :: 0 <= k < |warnings| ==> warnings[k].Warning? && KnownWarning(warnings[k])
    requires |extra| == 2 && extra[0].Progress? && extra[1].DataUpdated?
    ensures Ongoing(events + warnings + extra, n)
    ensures CountWhere(events + warnings + extra, IsProgress) == CountWhere(events, IsProgress) + 1
  {
    OngoingAfter(events, n, warnings, extra);
    ProgressAfter(events, warnings, extra);
  }

  lemma OngoingAfter(events: seq<Event>, n: nat, warnings: seq<Event>, extra: seq<Event>)
    requires Ongoing(events, n)
    requires forall k :: 0 <= k < |warnings| ==> warnings[k].Warning? && KnownWarning(warnings[k])
    requires |extra| == 2 && extra[0].Progress? && extra[1].DataUpdated?
    ensures Ongoing(events + warnings + extra, n)
  {
    var all := events + warnings + extra;
    forall k | 0 <= k < |all|
      ensures !Terminal(all[k]) && KnownWarning(all[k])
    {
      if k < |events| {
        assert all[k] == events[k];
      } else if k < |events| + |warnings| {
        assert all[k] == warnings[k - |events|];
      } else {
        assert all[k] == extra[k - |events| - |warnings|];
      }
    }
  }

  lemma ProgressAfter(events: seq<Event>, warnings: seq<Event>, extra: seq<Event>)
    requires forall k :: 0 <= k < |warnings| ==> warnings[k].Warning?
    requires |extra| == 2 && extra[0].Progress? && extra[1].DataUpdated?
    ensures CountWhere(events + warnings + extra, IsProgress) == CountWhere(events, IsProgress) + 1
  {
    CountAppend(events, warnings, IsProgress);
    CountNone(warnings, IsProgress);
    CountAppend(events + warnings, extra, IsProgress);
    CountSnoc([extra[0]], extra[1], IsProgress);
    CountSnoc([], extra[0], IsProgress);
    assert [] + [extra[0]] == [extra[0]];
    assert [extra[0]] + [extra[1]] == extra;
  }

  /** A runtime failure after `Started` ends the run well. */
  lemma FailureEnds(pass: PassFn, stop: nat -> bool, plan: seq<real>, from: nat, trace: seq<Call>,
                    events: seq<Event>, e: Exc)
    requires |events| >= 1 && events[0] == Started(|plan|)
    requires forall k :: 0 <= k < |events| ==> !Terminal(events[k]) && KnownWarning(events[k])
    ensures Ends(pass, stop, plan, from, RuntimeFailure(trace, events, e))
  {
  }

  /** The state of the sweep loop before point `i`: `i` points measured
      by the passes for the first `i` planned frequencies, one frequency
      command, at most two acquisitions and one progress event each, and
      the stop flag clear so far. */
  ghost predicate Sweeping(pass: PassFn, stop: nat -> bool, plan: seq<real>, from: nat, i: nat,
                           result: SweepResult, trace: seq<Call>, events: seq<Event>, starts: seq<nat>) {
    && i <= |plan|
    && |result.points| == i && "started_at" in result.meta
    && Ongoing(events, |plan|)
    && CountWhere(trace, SetsFrequency) == i
    && CountWhere(trace, Acquires) <= 2 * i
    && CountWhere(events, IsProgress) == i
    && (forall j :: 0 <= j < i ==> !stop(j))
    && |starts| > 0 && starts[0] == from && Passes(pass, plan, trace, starts, result.points)
  }

  /** A pass that yields a point moves the loop on to the next one. */
  lemma SweepStep(pass: PassFn, stop: nat -> bool, plan: seq<real>, from: nat, i: nat, result: SweepResult,
                  trace: seq<Call>, events: seq<Event>, starts: seq<nat>)
    returns (starts': seq<nat>)
    requires Sweeping(pass, stop, plan, from, i, result, trace, events, starts)
    requires i < |plan| && !stop(i)
    requires pass(trace, plan[i]).r.Ok? && Bookkept(pass(trace, plan[i]), trace)
    ensures var o := pass(trace, plan[i]); var result' := Models.Append(result, o.r.value);
      Sweeping(pass, stop, plan, from, i + 1, result', o.trace,
               events + o.warnings + [Progress(o.r.value.freqHz, i + 1, |plan|), DataUpdated(o.r.value, result')],
               starts')
  {
    var o := pass(trace, plan[i]);
    starts' := starts + [|o.trace|];
    var result' := Models.Append(result, o.r.value);
    assert result'.points == result.points + [o.r.value];
    PassesGrow(pass, plan, trace, starts, result.points, o.r.value, o.trace);
    AfterPoint(events, |plan|, o.warnings,
               [Progress(o.r.value.freqHz, i + 1, |plan|), DataUpdated(o.r.value, result')]);
  }

  /** A stop seen before point `i` ends the run well. */
  lemma StopEnds(pass: PassFn, stop: nat -> bool, plan: seq<real>, from: nat, starts: seq<nat>, i: nat,
                 result: SweepResult, trace: seq<Call>, events: seq<Event>)
    requires Sweeping(pass, stop, plan, from, i, result, trace, events, starts)
    requires i < |plan| && stop(i)
    ensures var stopped := result.(meta := result.meta["stopped_at" := MetaStamp]);
      Ends(pass, stop, plan, from, RunOutput(stopped, trace, events + [Stopped(stopped)]))
  {
    var stopped := result.(meta := result.meta["stopped_at" := MetaStamp]);
    CountSnoc(events, Stopped(stopped), IsProgress);
    assert Passes(pass, plan, trace, starts, stopped.points);
  }

  /** Finishing every planned point ends the run well. */
  lemma CompletionEnds(pass: PassFn, stop: nat -> bool, plan: seq<real>, from: nat, starts: seq<nat>,
                       result: SweepResult, trace: seq<Call>, events: seq<Event>)
    requires Sweeping(pass, stop, plan, from, |plan|, result, trace, events, starts)
    ensures var done := result.(meta := result.meta["completed_at" := MetaStamp]);
      Ends(pass, stop, plan, from, RunOutput(done, trace, events + [Completed(done)]))
  {
    var done := result.(meta := result.meta["completed_at" := MetaStamp]);
    CountSnoc(events, Completed(done), IsProgress);
    assert Passes(pass, plan, trace, starts, done.points);
  }

  /** The sweep loop over the planned frequencies: before each point the
      stop flag is read, then the pass for the point runs; a pass that
      raises ends the run with a runtime failure. */
  method SweepLoop(pass: PassFn, stop: nat -> bool, plan: seq<real>, result0: SweepResult, trace0: seq<Call>,
                   events0: seq<Event>)
    returns (out: RunOutput)
    requires forall before, target :: Bookkept(pass(before, target), before)
    requires Ongoing(events0, |plan|) && |result0.points| == 0 && "started_at" in result0.meta
    requires CountWhere(trace0, SetsFrequency) == 0 && CountWhere(trace0, Acquires) == 0
    requires CountWhere(events0, IsProgress) == 0
    ensures Ends(pass, stop, plan, |trace0|, out)
  {
    var n := |plan|;
    var result := result0;
    var trace := trace0;
    var events := events0;
    ghost var starts: seq<nat> := [|trace0|];
    var i := 0;
    while i < n
      invariant Sweeping(pass, stop, plan, |trace0|, i, result, trace, events, starts)
      invariant forall before, target :: Bookkept(pass(before, target), before)
    {
      if stop(i) {
        StopEnds(pass, stop, plan, |trace0|, starts, i, result, trace, events);
        result := result.(meta := result.meta["stopped_at" := MetaStamp]);
        return RunOutput(result, trace, events + [Stopped(result)]);
      }
      var o := pass(trace, plan[i]);
      assert Bookkept(o, trace);
      if o.r.Err? {
        FailureEnds(pass, stop, plan, |trace0|, o.trace, events + o.warnings, o.r.error);
        return RuntimeFailure(o.trace, events + o.warnings, o.r.error);
      }
      starts := SweepStep(pass, stop, plan, |trace0|, i, result, trace, events, starts);
      trace := o.trace;
      result := Models.Append(result, o.r.value);
      events := events + o.warnings + [Progress(o.r.value.freqHz, i + 1, n), DataUpdated(o.r.value, result)];
      i := i + 1;
    }
    CompletionEnds(pass, stop, plan, |trace0|, starts, result, trace, events);
    result := result.(meta := result.meta["completed_at" := MetaStamp]);
    out := RunOutput(result, trace, events + [Completed(result)]);
  }

  /** `StartSweepUseCase.run`: a settings value that fails validation ends
      the run with one `VALIDATION` failure before any port call; any other
      run ends as `WellEnded` describes, for the frequencies the plan
      yields, its passes starting right after the configuration commands. */
  method Run(env: Env, cmd: Command) returns (out: RunOutput)
    ensures !SettingsOk(cmd.settings) ==>
      out == RunOutput(EmptyResult, [], [Failed("VALIDATION", ValidateSettings(cmd.settings).error.message)])
    ensures SettingsOk(cmd.settings) ==>
      WellEnded(env, cmd, Plan(env, cmd.settings), |ConfigureCalls(cmd.settings)|, out)
  {
    var s := cmd.settings;
    var v := ValidateSettings(s);
    if v.Err? {
      return RunOutput(EmptyResult, [], [Failed("VALIDATION", v.error.message)]);
    }
    PlanOfValid(env, s);
    var plan := FrequencyPoints(env.num, s.sweep).value;
    out := ConfigureAndSweep(env, cmd, plan);
  }

  /** After validation: announce the run, configure the instruments, and
      sweep over `plan`. */
  method ConfigureAndSweep(env: Env, cmd: Command, plan: seq<real>) returns (out: RunOutput)
    ensures WellEnded(env, cmd, plan, |ConfigureCalls(cmd.settings)|, out)
  {
    var s := cmd.settings;
    var configured, trace, ready := ConfigureInstruments(env, s, []);
    if configured.Err? {
      FailureEnds(PassOf(env, cmd), env.stop, plan, |ConfigureCalls(s)|, trace, [Started(|plan|)], configured.error);
      return RuntimeFailure(trace, [Started(|plan|)], configured.error);
    }
    var events := [Started(|plan|)] + ready;
    ReadyOngoing(|plan|, events);
    RunPointBookkept(env, cmd);
    out := SweepLoop(PassOf(env, cmd), env.stop, plan, SweepResult([], StartMeta(s)), trace, events);
  }

  /** Settings that passed validation always have a frequency plan. */
  lemma PlanOfValid(env: Env, s: AppSettings)
    requires SettingsOk(s)
    ensures FrequencyPoints(env.num, s.sweep).Ok?
    ensures Plan(env, s) == FrequencyPoints(env.num, s.sweep).value
  {
    FrequencyPointsSpec(env.num, s.sweep);
  }

  /** The events right after configuration: the run is under way. */
  lemma ReadyOngoing(n: nat, events: seq<Event>)
    requires events == [Started(n), Warning("READY", "Instruments configured")]
    ensures Ongoing(events, n) && CountWhere(events, IsProgress) == 0
  {
    CountNone(events, IsProgress);
  }
}
