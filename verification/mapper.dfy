/** The mapping between the form's text fields and the settings model:
    reading the form into settings and writing settings back into it. */
module Mapper {
  import opened Wrappers
  import opened Text
  import opened PyNumbers
  import opened Enums
  import opened Models
  import opened CvtTools

  /** The form's fields as the widgets hold them: text, except for the
      check boxes. */
  datatype ViewModel = ViewModel(
    awgModel: string, oscModel: string,
    awgConnectMode: string, oscConnectMode: string,
    awgVisa: string, oscVisa: string,
    awgIp: string, oscIp: string,
    freqUnit: string,
    startFreq: string, stopFreq: string, stepFreq: string, stepCount: string,
    isLog: bool,
    awgAmp: string, awgImp: string,
    oscRange: string, oscOffset: string, oscPoints: string, oscImp: string, oscCoupling: string,
    awgCh: string, oscTestCh: string, oscRefCh: string, oscTrigCh: string,
    correctionMode: string, triggerMode: string,
    autoRange: bool, autoReset: bool,
    calibrationEnabled: bool, autoSaveData: bool,
    figureMode: string, magnitudePhaseMode: string,
    statusText: string)

  /** `_safe_int`: `int()` of the parsed number, truncating a float. */
  function SafeInt(value: string): (n: int)
    ensures var v := ParseGeneralVal(value, None).Value();
      Abs(n as real) <= Abs(v) && Abs(v) - Abs(n as real) < 1.0 && (v >= 0.0 ==> n >= 0) && (v <= 0.0 ==> n <= 0)
    ensures IsIntegral(ParseGeneralVal(value, None).Value()) ==> n as real == ParseGeneralVal(value, None).Value()
  {
    match ParseGeneralVal(value, None)
    case PyInt(i) => i
    case PyFloat(x) => Trunc(x)
  }

  lemma RenderedIntValue(i: int)
    ensures ParseGeneralVal(IntToString(i) + [], None).Value() == Times(i as real, ConvertGeneralUnit(None))
  {
    ParseRenderedInt(i, [], None);
  }

  /** `str(i)` parses back to the int `i`. */
  lemma RenderedIntParses(i: int)
    ensures ParseGeneralVal(IntToString(i), None) == PyInt(i)
  {
    RenderedIntValue(i);
    assert IntToString(i) + [] == IntToString(i);
    assert IsIntegral(i as real);
  }

  /** An integer written out by `str` is read back unchanged. */
  lemma SafeIntOfRendered(i: int)
    ensures SafeInt(IntToString(i)) == i
  {
    RenderedIntParses(i);
  }

  /** `float(parse_to_Vpp(text))`: a text without a number yields "" and
      `float("")` raises `ValueError`. */
  function AmplitudeOf(text: string): (r: Result<real>)
    ensures r.Ok? <==> ParseToVpp(text).Ok? && ParseToVpp(text).value.Vpp?
    ensures r.Ok? ==> r.value == ParseToVpp(text).value.volts
    ensures r.Err? ==> r.error.kind == ValueError
  {
    var p :- ParseToVpp(text);
    match p
    case NoNumber => Raise(ValueError, "could not convert string to float: ''")
    case Vpp(v) => Ok(v)
  }

  /** `vm_to_settings`: the run-mode enums are read first, then the
      remaining fields in constructor order; an unknown enum text or an
      amplitude without a number raises `ValueError`. On success the
      active sweep mode decides which step field is set, the point count
      is at least two, both optional channels are set, addresses carry no
      surrounding whitespace, and the settings file version is 1. */
  function VmToSettings(vm: ViewModel): (r: Result<AppSettings>)
    ensures r.Ok? <==>
      && CorrectionModeOf(vm.correctionMode).Ok? && TriggerModeOf(vm.triggerMode).Ok?
      && ConnectionModeOf(vm.awgConnectMode).Ok? && ConnectionModeOf(vm.oscConnectMode).Ok?
      && AmplitudeOf(vm.awgAmp).Ok? && ImpedanceModeOf(vm.awgImp).Ok?
      && ImpedanceModeOf(vm.oscImp).Ok? && CouplingModeOf(vm.oscCoupling).Ok?
      && MagnitudePhaseModeOf(vm.magnitudePhaseMode).Ok?
    ensures r.Err? ==> r.error.kind == ValueError
    ensures CorrectionModeOf(vm.correctionMode).Err? ==> r == Err(CorrectionModeOf(vm.correctionMode).error)
    ensures r.Ok? ==> var s := r.value;
      && s.schemaVersion == 1 && s.freqUnit == vm.freqUnit
      && s.sweep.isLog == vm.isLog
      && (s.sweep.stepHz.None? <==> vm.isLog) && (s.sweep.stepCount.Some? <==> vm.isLog)
      && s.setup.oscSettings.points >= 2
      && s.setup.channels.oscRefCh.Some? && s.setup.channels.oscTrigCh.Some?
      && s.setup.awg.visaAddress == Strip(vm.awgVisa) && s.setup.osc.visaAddress == Strip(vm.oscVisa)
      && s.setup.awg.ipAddress == Strip(vm.awgIp) && s.setup.osc.ipAddress == Strip(vm.oscIp)
      && s.setup.awgSettings.amplitudeVpp == AmplitudeOf(vm.awgAmp).value
  {
    var startHz := ParseToHz(vm.startFreq, vm.freqUnit).Value();
    var stopHz := ParseToHz(vm.stopFreq, vm.freqUnit).Value();
    var stepHz := if vm.isLog then None else Some(ParseToHz(vm.stepFreq, vm.freqUnit).Value());
    var stepCount := if vm.isLog then Some(SafeInt(vm.stepCount)) else None;
    var correction :- CorrectionModeOf(vm.correctionMode);
    var trigger :- TriggerModeOf(vm.triggerMode);
    var awgConnect :- ConnectionModeOf(vm.awgConnectMode);
    var oscConnect :- ConnectionModeOf(vm.oscConnectMode);
    var channels := ChannelSelection(SafeInt(vm.awgCh), SafeInt(vm.oscTestCh),
                                     Some(SafeInt(vm.oscRefCh)), Some(SafeInt(vm.oscTrigCh)));
    var amplitude :- AmplitudeOf(vm.awgAmp);
    var awgImp :- ImpedanceModeOf(vm.awgImp);
    var fullScale := ParseToV(vm.oscRange).Value();
    var offset := ParseToV(vm.oscOffset).Value();
    var points := if SafeInt(vm.oscPoints) >= 2 then SafeInt(vm.oscPoints) else 2;
    var oscImp :- ImpedanceModeOf(vm.oscImp);
    var coupling :- CouplingModeOf(vm.oscCoupling);
    var magPhase :- MagnitudePhaseModeOf(vm.magnitudePhaseMode);
    Ok(AppSettings(
      1, vm.freqUnit,
      SweepSpec(startHz, stopHz, stepHz, stepCount, vm.isLog),
      RunMode(correction, trigger, vm.autoRange, vm.autoReset),
      InstrumentSetup(
        InstrumentEndpoint(vm.awgModel, awgConnect, Strip(vm.awgVisa), Strip(vm.awgIp)),
        InstrumentEndpoint(vm.oscModel, oscConnect, Strip(vm.oscVisa), Strip(vm.oscIp)),
        channels,
        AwgSettings(amplitude, awgImp),
        OscSettings(fullScale, offset, points, oscImp, coupling)),
      magPhase, vm.autoSaveData))
  }

  /** `settings_to_vm`: every field the settings determine is written
      back; frequencies are shown in the settings' unit rounded to six
      places. `str` on a float is the parameter `str`. The step frequency
      is written only when the settings have one; the figure mode, the
      calibration switch and the status line are left alone. */
  function SettingsToVm(s: AppSettings, vm: ViewModel, str: real -> string): (vm': ViewModel)
    ensures vm'.freqUnit == s.freqUnit && vm'.isLog == s.sweep.isLog
    ensures s.sweep.stepHz.None? ==> vm'.stepFreq == vm.stepFreq
    ensures vm'.figureMode == vm.figureMode && vm'.calibrationEnabled == vm.calibrationEnabled
    ensures vm'.statusText == vm.statusText
    ensures vm'.awgVisa == s.setup.awg.visaAddress && vm'.oscIp == s.setup.osc.ipAddress
  {
    var scale := ConvertGeneralUnit(Some(s.freqUnit));
    var sw := s.sweep;
    var su := s.setup;
    vm.(
      freqUnit := s.freqUnit,
      startFreq := str(Round6(sw.startHz / scale)),
      stopFreq := str(Round6(sw.stopHz / scale)),
      stepFreq := if sw.stepHz.Some? then str(Round6(sw.stepHz.value / scale)) else vm.stepFreq,
      stepCount := IntToString(OrDefault(sw.stepCount, 100)),
      isLog := sw.isLog,
      awgModel := su.awg.model, oscModel := su.osc.model,
      awgConnectMode := su.awg.connectMode.Value(), oscConnectMode := su.osc.connectMode.Value(),
      awgVisa := su.awg.visaAddress, oscVisa := su.osc.visaAddress,
      awgIp := su.awg.ipAddress, oscIp := su.osc.ipAddress,
      awgAmp := str(su.awgSettings.amplitudeVpp),
      awgImp := su.awgSettings.impedance.Value(),
      oscRange := str(su.oscSettings.fullScaleV),
      oscOffset := str(su.oscSettings.offsetV),
      oscPoints := IntToString(su.oscSettings.points),
      oscImp := su.oscSettings.impedance.Value(),
      oscCoupling := su.oscSettings.coupling.Value(),
      awgCh := IntToString(su.channels.awgCh),
      oscTestCh := IntToString(su.channels.oscTestCh),
      oscRefCh := IntToString(OrDefault(su.channels.oscRefCh, 2)),
      oscTrigCh := IntToString(OrDefault(su.channels.oscTrigCh, 2)),
      correctionMode := s.runMode.correctionMode.Value(),
      triggerMode := s.runMode.triggerMode.Value(),
      autoRange := s.runMode.autoRange, autoReset := s.runMode.autoReset,
      magnitudePhaseMode := s.magnitudePhaseMode.Value(),
      autoSaveData := s.autoSaveData)
  }

  /** Writing settings into the form and reading them back: the read fails
      exactly when the amplitude text `str` produces has no number, and
      otherwise returns the same settings except that optional channels
      and a log step count fall back to their defaults when unset or zero,
      the inactive step field is dropped, the point count is raised to two,
      and the float fields are whatever their rendered text parses to. */
  lemma MapperRoundTrip(s: AppSettings, vm: ViewModel, str: real -> string)
    requires Strip(s.setup.awg.visaAddress) == s.setup.awg.visaAddress
    requires Strip(s.setup.osc.visaAddress) == s.setup.osc.visaAddress
    requires Strip(s.setup.awg.ipAddress) == s.setup.awg.ipAddress
    requires Strip(s.setup.osc.ipAddress) == s.setup.osc.ipAddress
    ensures var r := VmToSettings(SettingsToVm(s, vm, str));
      && (r.Ok? <==> AmplitudeOf(str(s.setup.awgSettings.amplitudeVpp)).Ok?)
      && (r.Ok? ==>
            var t := r.value;
            && t.freqUnit == s.freqUnit && t.sweep.isLog == s.sweep.isLog
            && t.sweep.stepCount == (if s.sweep.isLog then Some(OrDefault(s.sweep.stepCount, 100)) else None)
            && (s.sweep.isLog ==> t.sweep.stepHz.None?)
            && t.runMode == s.runMode
            && t.setup.awg == s.setup.awg && t.setup.osc == s.setup.osc
            && t.setup.channels == ChannelSelection(s.setup.channels.awgCh, s.setup.channels.oscTestCh,
                 Some(OrDefault(s.setup.channels.oscRefCh, 2)), Some(OrDefault(s.setup.channels.oscTrigCh, 2)))
            && t.setup.awgSettings == AwgSettings(AmplitudeOf(str(s.setup.awgSettings.amplitudeVpp)).value,
                                                  s.setup.awgSettings.impedance)
            && t.setup.oscSettings == OscSettings(
                 ParseToV(str(s.setup.oscSettings.fullScaleV)).Value(),
                 ParseToV(str(s.setup.oscSettings.offsetV)).Value(),
                 if s.setup.oscSettings.points >= 2 then s.setup.oscSettings.points else 2,
                 s.setup.oscSettings.impedance, s.setup.oscSettings.coupling)
            && t.magnitudePhaseMode == s.magnitudePhaseMode && t.autoSaveData == s.autoSaveData)
  {
    var su := s.setup;
    EnumValuesRoundTrip(s.runMode.correctionMode, s.runMode.triggerMode, su.awg.connectMode,
                        su.awgSettings.impedance, su.oscSettings.coupling, s.magnitudePhaseMode);
    EnumValuesRoundTrip(s.runMode.correctionMode, s.runMode.triggerMode, su.osc.connectMode,
                        su.oscSettings.impedance, su.oscSettings.coupling, s.magnitudePhaseMode);
    SafeIntOfRendered(OrDefault(s.sweep.stepCount, 100));
    SafeIntOfRendered(su.oscSettings.points);
    SafeIntOfRendered(su.channels.awgCh);
    SafeIntOfRendered(su.channels.oscTestCh);
    SafeIntOfRendered(OrDefault(su.channels.oscRefCh, 2));
    SafeIntOfRendered(OrDefault(su.channels.oscTrigCh, 2));
  }
}
