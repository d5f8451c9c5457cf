/** The JSON settings repository: the persisted dict form of the settings,
    reading it back with a default for every missing field, the default
    settings, and load/save with validation. The file is a value: `None`
    when it does not exist, the decoded JSON payload otherwise. */
module SettingsRepo {
  import opened Wrappers
  import opened Enums
  import opened Models
  import opened PyJson
  import opened SettingsDict
  import opened Validators

  /** `Mapping.mapping_mhz`, `Mapping.mapping_DSG_4102`, `Mapping.mapping_MDO_34`. */
  const MHz: string := "MHz"
  const Dsg4102: string := "DSG4102"
  const Mdo34: string := "MDO34"

  /** The settings written when no settings file exists. */
  const DefaultSettings: AppSettings := AppSettings(
    1, MHz,
    SweepSpec(1000000.0, 100000000.0, Some(1000000.0), Some(100), false),
    RunMode(NoCorrection, FreeRun, true, true),
    InstrumentSetup(
      InstrumentEndpoint(Dsg4102, Auto, "", "0.0.0.0"),
      InstrumentEndpoint(Mdo34, Auto, "", "0.0.0.0"),
      ChannelSelection(1, 1, Some(2), Some(2)),
      AwgSettings(1.0, R50),
      OscSettings(1.0, 0.0, 10000, R50, DC)),
    Mag, true)

  /** The default settings pass validation, so loading with no file never
      fails. */
  lemma DefaultSettingsValid()
    ensures SettingsOk(DefaultSettings)
    ensures ValidateSettings(DefaultSettings) == Ok(())
  {
  }

  /** `_to_dict`: the `asdict` layout with each of the eight enum fields
      (correction and trigger mode, both connect modes, both impedances,
      the coupling and the magnitude/phase mode) written as its value. */
  function ToDict(s: AppSettings): (j: Json)
    ensures !HasEnum(j)
    ensures j.JObj? && |j.members| == 7
  {
    TextHasNoEnum(s);
    JObj(SettingsMembers(s, true))
  }

  lemma NoEnumMembers(ms: seq<Member>)
    requires forall i :: 0 <= i < |ms| ==> !HasEnum(ms[i].value)
    ensures !HasEnum(JObj(ms))
  {
  }

  /** Rendered as text, the settings hold no enum member at any depth. */
  lemma TextHasNoEnum(s: AppSettings)
    ensures !HasEnum(JObj(SettingsMembers(s, true)))
  {
    NoEnumMembers(SweepDict(s.sweep).members);
    NoEnumMembers(RunModeDict(s.runMode, true).members);
    SetupHasNoEnum(s.setup);
    NoEnumMembers(SettingsMembers(s, true));
  }

  lemma SetupHasNoEnum(su: InstrumentSetup)
    ensures !HasEnum(SetupDict(su, true))
  {
    NoEnumMembers(EndpointDict(su.awg, true).members);
    NoEnumMembers(EndpointDict(su.osc, true).members);
    NoEnumMembers(ChannelsDict(su.channels).members);
    NoEnumMembers(AwgSettingsDict(su.awgSettings, true).members);
    NoEnumMembers(OscSettingsDict(su.oscSettings, true).members);
    NoEnumMembers(SetupDict(su, true).members);
  }

  /** `float(obj.get(key, default))`. */
  function FloatField(obj: Json, key: string, default: real): Result<real> {
    var v :- Get(obj, key, JFloat(default));
    ToFloat(v)
  }

  /** `int(obj.get(key, default))`. */
  function IntField(obj: Json, key: string, default: int): Result<int> {
    var v :- Get(obj, key, JInt(default));
    ToInt(v)
  }

  /** `str(obj.get(key, default))`. */
  function StrField(obj: Json, key: string, default: string, repr: Json -> string): Result<string> {
    var v :- Get(obj, key, JStr(default));
    Ok(ToStr(v, repr))
  }

  /** `bool(obj.get(key, default))`. */
  function BoolField(obj: Json, key: string, default: bool): Result<bool> {
    var v :- Get(obj, key, JBool(default));
    Ok(PyJson.Truthy(v))
  }

  /** `None if obj.get(key) is None else float(obj.get(key, …))`: once the
      key holds a value the second lookup's default is never used. */
  function OptFloatField(obj: Json, key: string): Result<Option<real>> {
    var v :- Get(obj, key, JNull);
    if v == JNull then Ok(None)
    else
      var x :- ToFloat(v);
      Ok(Some(x))
  }

  /** `None if obj.get(key) is None else int(obj.get(key, …))`. */
  function OptIntField(obj: Json, key: string): Result<Option<int>> {
    var v :- Get(obj, key, JNull);
    if v == JNull then Ok(None)
    else
      var x :- ToInt(v);
      Ok(Some(x))
  }

  /** `payload.get(key, {})` on a dict payload. */
  function Entry(payload: Json, key: string): Json
    requires payload.JObj?
  {
    Lookup(payload.members, key).GetOr(JObj([]))
  }

  /** A nested dict of the setup, or `{}` when the setup is not a dict. */
  function SubPayload(setup: Json, key: string): Json {
    if setup.JObj? then Lookup(setup.members, key).GetOr(JObj([])) else JObj([])
  }

  /** The sweep section: each field read from its key, in field order. */
  function ParseSweep(p: Json): (r: Result<SweepSpec>)
    ensures r.Ok? ==> FloatField(p, "start_hz", 1000000.0) == Ok(r.value.startHz)
    ensures r.Ok? ==> FloatField(p, "stop_hz", 100000000.0) == Ok(r.value.stopHz)
    ensures r.Ok? ==> OptFloatField(p, "step_hz") == Ok(r.value.stepHz)
    ensures r.Ok? ==> OptIntField(p, "step_count") == Ok(r.value.stepCount)
    ensures r.Ok? ==> BoolField(p, "is_log", false) == Ok(r.value.isLog)
    ensures r.Ok? <==>
      (&& FloatField(p, "start_hz", 1000000.0).Ok?
       && FloatField(p, "stop_hz", 100000000.0).Ok?
       && OptFloatField(p, "step_hz").Ok?
       && OptIntField(p, "step_count").Ok?)
  {
    var start :- FloatField(p, "start_hz", 1000000.0);
    var stop :- FloatField(p, "stop_hz", 100000000.0);
    var step :- OptFloatField(p, "step_hz");
    var count :- OptIntField(p, "step_count");
    var isLog := BoolField(p, "is_log", false).value;
    Ok(SweepSpec(start, stop, step, count, isLog))
  }

  function ParseRunMode(p: Json, repr: Json -> string): Result<RunMode> {
    var c :- StrField(p, "correction_mode", NoCorrection.Value(), repr);
    var correction :- CorrectionModeOf(c);
    var t :- StrField(p, "trigger_mode", FreeRun.Value(), repr);
    var trigger :- TriggerModeOf(t);
    var autoRange :- BoolField(p, "auto_range", true);
    var autoReset :- BoolField(p, "auto_reset", true);
    Ok(RunMode(correction, trigger, autoRange, autoReset))
  }

  function ParseEndpoint(p: Json, defaultModel: string, repr: Json -> string): Result<InstrumentEndpoint> {
    var model :- StrField(p, "model", defaultModel, repr);
    var m :- StrField(p, "connect_mode", Auto.Value(), repr);
    var mode :- ConnectionModeOf(m);
    var visa :- StrField(p, "visa_address", "", repr);
    var ip :- StrField(p, "ip_address", "0.0.0.0", repr);
    Ok(InstrumentEndpoint(model, mode, visa, ip))
  }

  function ParseChannels(p: Json): Result<ChannelSelection> {
    var awgCh :- IntField(p, "awg_ch", 1);
    var testCh :- IntField(p, "osc_test_ch", 1);
    var refCh :- OptIntField(p, "osc_ref_ch");
    var trigCh :- OptIntField(p, "osc_trig_ch");
    Ok(ChannelSelection(awgCh, testCh, refCh, trigCh))
  }

  function ParseAwgSettings(p: Json, repr: Json -> string): Result<AwgSettings> {
    var amplitude :- FloatField(p, "amplitude_vpp", 1.0);
    var i :- StrField(p, "impedance", R50.Value(), repr);
    var impedance :- ImpedanceModeOf(i);
    Ok(AwgSettings(amplitude, impedance))
  }

  function ParseOscSettings(p: Json, repr: Json -> string): Result<OscSettings> {
    var fullScale :- FloatField(p, "full_scale_v", 1.0);
    var offset :- FloatField(p, "offset_v", 0.0);
    var points :- IntField(p, "points", 10000);
    var i :- StrField(p, "impedance", R50.Value(), repr);
    var impedance :- ImpedanceModeOf(i);
    var c :- StrField(p, "coupling", DC.Value(), repr);
    var coupling :- CouplingModeOf(c);
    Ok(OscSettings(fullScale, offset, points, impedance, coupling))
  }

  /** `_from_dict`: every field read with its default, in field order, so
      the first bad field is the one reported. A payload that is not a dict,
      or a sweep, run-mode or instrument entry that is not one, raises
      `AttributeError`; a setup entry that is not a dict counts as `{}`.
      `repr` is the text `str` gives a float or a dict. */
  function FromDict(payload: Json, repr: Json -> string): (r: Result<AppSettings>)
    ensures !payload.JObj? ==> r.Err? && r.error.kind == AttributeError
    ensures r.Ok? ==> IntField(payload, "schema_version", 1) == Ok(r.value.schemaVersion)
    ensures r.Ok? ==> ParseSweep(Entry(payload, "sweep")) == Ok(r.value.sweep)
    ensures r.Ok? ==> ParseRunMode(Entry(payload, "run_mode"), repr) == Ok(r.value.runMode)
    ensures r.Ok? ==> ParseChannels(SubPayload(Entry(payload, "setup"), "channels")) == Ok(r.value.setup.channels)
  {
    if !payload.JObj? then Raise(AttributeError, "object has no attribute 'get'")
    else
    var sweepP := Entry(payload, "sweep");
    var runP := Entry(payload, "run_mode");
    var setupP := Entry(payload, "setup");
    var schema :- IntField(payload, "schema_version", 1);
    var unit := StrField(payload, "freq_unit", MHz, repr).value;
    var sweep :- ParseSweep(sweepP);
    var run :- ParseRunMode(runP, repr);
    var awg :- ParseEndpoint(SubPayload(setupP, "awg"), Dsg4102, repr);
    var osc :- ParseEndpoint(SubPayload(setupP, "osc"), Mdo34, repr);
    var channels :- ParseChannels(SubPayload(setupP, "channels"));
    var awgSettings :- ParseAwgSettings(SubPayload(setupP, "awg_settings"), repr);
    var oscSettings :- ParseOscSettings(SubPayload(setupP, "osc_settings"), repr);
    var m := StrField(payload, "magnitude_phase_mode", Mag.Value(), repr).value;
    var mode :- MagnitudePhaseModeOf(m);
    var autoSave := BoolField(payload, "auto_save_data", true).value;
    Ok(AppSettings(schema, unit, sweep, run, InstrumentSetup(awg, osc, channels, awgSettings, oscSettings),
                   mode, autoSave))
  }

  /** A sweep entry that is not a dict (a list, a number, a string) makes
      `sweep_payload.get` raise once the two top fields before it read. */
  lemma SweepNotDictFails(payload: Json, repr: Json -> string)
    requires payload.JObj?
    requires IntField(payload, "schema_version", 1).Ok?
    requires !Entry(payload, "sweep").JObj?
    ensures FromDict(payload, repr).Err?
    ensures FromDict(payload, repr).error.kind == AttributeError
  {
  }

  /** A start frequency stored as the string "1.5e6" loads as 1.5 MHz. */
  lemma StartFromExponentString(payload: Json, repr: Json -> string, sweep: seq<Member>)
    requires payload.JObj?
    requires Lookup(payload.members, "sweep") == Some(JObj(sweep))
    requires Lookup(sweep, "start_hz") == Some(JStr("1.5e6"))
    requires FromDict(payload, repr).Ok?
    ensures FromDict(payload, repr).value.sweep.startHz == 1500000.0
  {
    SweepStartOf(sweep);
  }

  /** The sweep reader takes its start from `float(sweep["start_hz"])`. */
  lemma SweepStartOf(sweep: seq<Member>)
    requires Lookup(sweep, "start_hz") == Some(JStr("1.5e6"))
    ensures ParseSweep(JObj(sweep)).Ok? ==> ParseSweep(JObj(sweep)).value.startHz == 1500000.0
  {
    var p := JObj(sweep);
    assert Get(p, "start_hz", JFloat(1000000.0)) == Ok(JStr("1.5e6"));
    ExponentStringToFloat();
    assert FloatField(p, "start_hz", 1000000.0) == Ok(1500000.0);
  }

  /** Each field reader returns the value its key holds. */
  lemma FloatFieldOf(p: Json, key: string, default: real, x: real)
    requires p.JObj? && Lookup(p.members, key) == Some(JFloat(x))
    ensures FloatField(p, key, default) == Ok(x)
  {
  }

  lemma IntFieldOf(p: Json, key: string, default: int, x: int)
    requires p.JObj? && Lookup(p.members, key) == Some(JInt(x))
    ensures IntField(p, key, default) == Ok(x)
  {
  }

  lemma StrFieldOf(p: Json, key: string, default: string, repr: Json -> string, x: string)
    requires p.JObj? && Lookup(p.members, key) == Some(JStr(x))
    ensures StrField(p, key, default, repr) == Ok(x)
  {
  }

  lemma BoolFieldOf(p: Json, key: string, default: bool, x: bool)
    requires p.JObj? && Lookup(p.members, key) == Some(JBool(x))
    ensures BoolField(p, key, default) == Ok(x)
  {
  }

  lemma OptFloatFieldOf(p: Json, key: string, x: Option<real>)
    requires p.JObj? && Lookup(p.members, key) == Some(OptFloat(x))
    ensures OptFloatField(p, key) == Ok(x)
  {
  }

  lemma OptIntFieldOf(p: Json, key: string, x: Option<int>)
    requires p.JObj? && Lookup(p.members, key) == Some(OptInt(x))
    ensures OptIntField(p, key) == Ok(x)
  {
  }

  /** Each reader, given a dict whose fields hold a record's values,
      returns that record. */
  lemma SweepFrom(p: Json, sw: SweepSpec)
    requires p.JObj?
    requires Lookup(p.members, "start_hz") == Some(JFloat(sw.startHz))
    requires Lookup(p.members, "stop_hz") == Some(JFloat(sw.stopHz))
    requires Lookup(p.members, "step_hz") == Some(OptFloat(sw.stepHz))
    requires Lookup(p.members, "step_count") == Some(OptInt(sw.stepCount))
    requires Lookup(p.members, "is_log") == Some(JBool(sw.isLog))
    ensures ParseSweep(p) == Ok(sw)
  {
    FloatFieldOf(p, "start_hz", 1000000.0, sw.startHz);
    FloatFieldOf(p, "stop_hz", 100000000.0, sw.stopHz);
    OptFloatFieldOf(p, "step_hz", sw.stepHz);
    OptIntFieldOf(p, "step_count", sw.stepCount);
    BoolFieldOf(p, "is_log", false, sw.isLog);
  }

  lemma SweepRoundTrip(sw: SweepSpec)
    ensures ParseSweep(SweepDict(sw)) == Ok(sw)
  {
    var p := SweepDict(sw);
    LookupDistinct(p.members);
    assert p.members[0].key == "start_hz" && p.members[1].key == "stop_hz" && p.members[2].key == "step_hz";
    assert p.members[3].key == "step_count" && p.members[4].key == "is_log";
    SweepFrom(p, sw);
  }

  lemma RunModeFrom(p: Json, rm: RunMode, repr: Json -> string)
    requires p.JObj?
    requires Lookup(p.members, "correction_mode") == Some(JStr(rm.correctionMode.Value()))
    requires Lookup(p.members, "trigger_mode") == Some(JStr(rm.triggerMode.Value()))
    requires Lookup(p.members, "auto_range") == Some(JBool(rm.autoRange))
    requires Lookup(p.members, "auto_reset") == Some(JBool(rm.autoReset))
    ensures ParseRunMode(p, repr) == Ok(rm)
  {
    EnumValuesRoundTrip(rm.correctionMode, rm.triggerMode, Auto, R50, DC, Mag);
    StrFieldOf(p, "correction_mode", NoCorrection.Value(), repr, rm.correctionMode.Value());
    StrFieldOf(p, "trigger_mode", FreeRun.Value(), repr, rm.triggerMode.Value());
    BoolFieldOf(p, "auto_range", true, rm.autoRange);
    BoolFieldOf(p, "auto_reset", true, rm.autoReset);
  }

  lemma RunModeRoundTrip(rm: RunMode, repr: Json -> string)
    ensures ParseRunMode(RunModeDict(rm, true), repr) == Ok(rm)
  {
    var p := RunModeDict(rm, true);
    LookupDistinct(p.members);
    assert p.members[0].key == "correction_mode" && p.members[1].key == "trigger_mode";
    assert p.members[2].key == "auto_range" && p.members[3].key == "auto_reset";
    RunModeFrom(p, rm, repr);
  }

  lemma EndpointFrom(p: Json, ep: InstrumentEndpoint, defaultModel: string, repr: Json -> string)
    requires p.JObj?
    requires Lookup(p.members, "model") == Some(JStr(ep.model))
    requires Lookup(p.members, "connect_mode") == Some(JStr(ep.connectMode.Value()))
    requires Lookup(p.members, "visa_address") == Some(JStr(ep.visaAddress))
    requires Lookup(p.members, "ip_address") == Some(JStr(ep.ipAddress))
    ensures ParseEndpoint(p, defaultModel, repr) == Ok(ep)
  {
    EnumValuesRoundTrip(NoCorrection, FreeRun, ep.connectMode, R50, DC, Mag);
    StrFieldOf(p, "model", defaultModel, repr, ep.model);
    StrFieldOf(p, "connect_mode", Auto.Value(), repr, ep.connectMode.Value());
    StrFieldOf(p, "visa_address", "", repr, ep.visaAddress);
    StrFieldOf(p, "ip_address", "0.0.0.0", repr, ep.ipAddress);
  }

  lemma EndpointRoundTrip(ep: InstrumentEndpoint, defaultModel: string, repr: Json -> string)
    ensures ParseEndpoint(EndpointDict(ep, true), defaultModel, repr) == Ok(ep)
  {
    var p := EndpointDict(ep, true);
    LookupDistinct(p.members);
    assert p.members[0].key == "model" && p.members[1].key == "connect_mode";
    assert p.members[2].key == "visa_address" && p.members[3].key == "ip_address";
    EndpointFrom(p, ep, defaultModel, repr);
  }

  lemma ChannelsFrom(p: Json, ch: ChannelSelection)
    requires p.JObj?
    requires Lookup(p.members, "awg_ch") == Some(JInt(ch.awgCh))
    requires Lookup(p.members, "osc_test_ch") == Some(JInt(ch.oscTestCh))
    requires Lookup(p.members, "osc_ref_ch") == Some(OptInt(ch.oscRefCh))
    requires Lookup(p.members, "osc_trig_ch") == Some(OptInt(ch.oscTrigCh))
    ensures ParseChannels(p) == Ok(ch)
  {
    IntFieldOf(p, "awg_ch", 1, ch.awgCh);
    IntFieldOf(p, "osc_test_ch", 1, ch.oscTestCh);
    OptIntFieldOf(p, "osc_ref_ch", ch.oscRefCh);
    OptIntFieldOf(p, "osc_trig_ch", ch.oscTrigCh);
  }

  lemma ChannelsRoundTrip(ch: ChannelSelection)
    ensures ParseChannels(ChannelsDict(ch)) == Ok(ch)
  {
    var p := ChannelsDict(ch);
    LookupDistinct(p.members);
    assert p.members[0].key == "awg_ch" && p.members[1].key == "osc_test_ch";
    assert p.members[2].key == "osc_ref_ch" && p.members[3].key == "osc_trig_ch";
    ChannelsFrom(p, ch);
  }

  lemma AwgSettingsFrom(p: Json, a: AwgSettings, repr: Json -> string)
    requires p.JObj?
    requires Lookup(p.members, "amplitude_vpp") == Some(JFloat(a.amplitudeVpp))
    requires Lookup(p.members, "impedance") == Some(JStr(a.impedance.Value()))
    ensures ParseAwgSettings(p, repr) == Ok(a)
  {
    EnumValuesRoundTrip(NoCorrection, FreeRun, Auto, a.impedance, DC, Mag);
    FloatFieldOf(p, "amplitude_vpp", 1.0, a.amplitudeVpp);
    StrFieldOf(p, "impedance", R50.Value(), repr, a.impedance.Value());
  }

  lemma AwgSettingsRoundTrip(a: AwgSettings, repr: Json -> string)
    ensures ParseAwgSettings(AwgSettingsDict(a, true), repr) == Ok(a)
  {
    var p := AwgSettingsDict(a, true);
    LookupDistinct(p.members);
    assert p.members[0].key == "amplitude_vpp" && p.members[1].key == "impedance";
    AwgSettingsFrom(p, a, repr);
  }

  lemma OscSettingsFrom(p: Json, o: OscSettings, repr: Json -> string)
    requires p.JObj?
    requires Lookup(p.members, "full_scale_v") == Some(JFloat(o.fullScaleV))
    requires Lookup(p.members, "offset_v") == Some(JFloat(o.offsetV))
    requires Lookup(p.members, "points") == Some(JInt(o.points))
    requires Lookup(p.members, "impedance") == Some(JStr(o.impedance.Value()))
    requires Lookup(p.members, "coupling") == Some(JStr(o.coupling.Value()))
    ensures ParseOscSettings(p, repr) == Ok(o)
  {
    EnumValuesRoundTrip(NoCorrection, FreeRun, Auto, o.impedance, o.coupling, Mag);
    FloatFieldOf(p, "full_scale_v", 1.0, o.fullScaleV);
    FloatFieldOf(p, "offset_v", 0.0, o.offsetV);
    IntFieldOf(p, "points", 10000, o.points);
    StrFieldOf(p, "impedance", R50.Value(), repr, o.impedance.Value());
    StrFieldOf(p, "coupling", DC.Value(), repr, o.coupling.Value());
  }

  lemma OscSettingsRoundTrip(o: OscSettings, repr: Json -> string)
    ensures ParseOscSettings(OscSettingsDict(o, true), repr) == Ok(o)
  {
    var p := OscSettingsDict(o, true);
    LookupDistinct(p.members);
    assert p.members[0].key == "full_scale_v" && p.members[1].key == "offset_v" && p.members[2].key == "points";
    assert p.members[3].key == "impedance" && p.members[4].key == "coupling";
    OscSettingsFrom(p, o, repr);
  }

  /** The top-level reader, given a dict whose fields and nested dicts
      read back as the settings' parts, returns the settings. */
  lemma SettingsFrom(p: Json, s: AppSettings, repr: Json -> string)
    requires p.JObj?
    requires Lookup(p.members, "schema_version") == Some(JInt(s.schemaVersion))
    requires Lookup(p.members, "freq_unit") == Some(JStr(s.freqUnit))
    requires Lookup(p.members, "magnitude_phase_mode") == Some(JStr(s.magnitudePhaseMode.Value()))
    requires Lookup(p.members, "auto_save_data") == Some(JBool(s.autoSaveData))
    requires ParseSweep(Lookup(p.members, "sweep").GetOr(JObj([]))) == Ok(s.sweep)
    requires ParseRunMode(Lookup(p.members, "run_mode").GetOr(JObj([])), repr) == Ok(s.runMode)
    requires var setup := Lookup(p.members, "setup").GetOr(JObj([]));
      && ParseEndpoint(SubPayload(setup, "awg"), Dsg4102, repr) == Ok(s.setup.awg)
      && ParseEndpoint(SubPayload(setup, "osc"), Mdo34, repr) == Ok(s.setup.osc)
      && ParseChannels(SubPayload(setup, "channels")) == Ok(s.setup.channels)
      && ParseAwgSettings(SubPayload(setup, "awg_settings"), repr) == Ok(s.setup.awgSettings)
      && ParseOscSettings(SubPayload(setup, "osc_settings"), repr) == Ok(s.setup.oscSettings)
    ensures FromDict(p, repr) == Ok(s)
  {
    EnumValuesRoundTrip(NoCorrection, FreeRun, Auto, R50, DC, s.magnitudePhaseMode);
    IntFieldOf(p, "schema_version", 1, s.schemaVersion);
    StrFieldOf(p, "freq_unit", MHz, repr, s.freqUnit);
    StrFieldOf(p, "magnitude_phase_mode", Mag.Value(), repr, s.magnitudePhaseMode.Value());
    BoolFieldOf(p, "auto_save_data", true, s.autoSaveData);
  }

  /** Where the persisted form keeps each part of the settings. */
  lemma TopLookups(s: AppSettings)
    ensures var ms := SettingsMembers(s, true);
      && Lookup(ms, "schema_version") == Some(JInt(s.schemaVersion))
      && Lookup(ms, "freq_unit") == Some(JStr(s.freqUnit))
      && Lookup(ms, "sweep") == Some(SweepDict(s.sweep))
      && Lookup(ms, "run_mode") == Some(RunModeDict(s.runMode, true))
      && Lookup(ms, "setup") == Some(SetupDict(s.setup, true))
      && Lookup(ms, "magnitude_phase_mode") == Some(JStr(s.magnitudePhaseMode.Value()))
      && Lookup(ms, "auto_save_data") == Some(JBool(s.autoSaveData))
  {
    var ms := SettingsMembers(s, true);
    TopKeysDistinct(s);
    LookupDistinct(ms);
    assert Lookup(ms, ms[0].key) == Some(ms[0].value) && Lookup(ms, ms[1].key) == Some(ms[1].value);
    assert Lookup(ms, ms[2].key) == Some(ms[2].value) && Lookup(ms, ms[3].key) == Some(ms[3].value);
    assert Lookup(ms, ms[4].key) == Some(ms[4].value) && Lookup(ms, ms[5].key) == Some(ms[5].value);
    assert Lookup(ms, ms[6].key) == Some(ms[6].value);
  }

  /** The seven top-level keys are told apart by their lengths, or else by
      their second letters. */
  lemma TopKeysDistinct(s: AppSettings)
    ensures DistinctKeys(SettingsMembers(s, true))
  {
    var ms := SettingsMembers(s, true);
    forall i, j | 0 <= i < j < |ms| ensures ms[i].key != ms[j].key {
      if |ms[i].key| == |ms[j].key| {
        assert ms[i].key[1] != ms[j].key[1];
      }
    }
  }

  lemma SetupLookups(su: InstrumentSetup)
    ensures var setup := SetupDict(su, true);
      && SubPayload(setup, "awg") == EndpointDict(su.awg, true)
      && SubPayload(setup, "osc") == EndpointDict(su.osc, true)
      && SubPayload(setup, "channels") == ChannelsDict(su.channels)
      && SubPayload(setup, "awg_settings") == AwgSettingsDict(su.awgSettings, true)
      && SubPayload(setup, "osc_settings") == OscSettingsDict(su.oscSettings, true)
  {
    var ms := SetupDict(su, true).members;
    LookupDistinct(ms);
    assert ms[0].key == "awg" && ms[1].key == "osc" && ms[2].key == "channels";
    assert ms[3].key == "awg_settings" && ms[4].key == "osc_settings";
  }

  /** Reading back what `_to_dict` wrote gives the same settings, `None`
      fields included, whatever `str` makes of floats. */
  lemma DictRoundTrip(s: AppSettings, repr: Json -> string)
    ensures FromDict(ToDict(s), repr) == Ok(s)
  {
    TopLookups(s);
    SetupLookups(s.setup);
    SweepRoundTrip(s.sweep);
    RunModeRoundTrip(s.runMode, repr);
    EndpointRoundTrip(s.setup.awg, Dsg4102, repr);
    EndpointRoundTrip(s.setup.osc, Mdo34, repr);
    ChannelsRoundTrip(s.setup.channels);
    AwgSettingsRoundTrip(s.setup.awgSettings, repr);
    OscSettingsRoundTrip(s.setup.oscSettings, repr);
    SettingsFrom(ToDict(s), s, repr);
  }

  /** `save`: validate, then write the persisted form; nothing is written
      when validation fails. */
  function Save(s: AppSettings): (r: Result<Json>)
    ensures r.Ok? <==> SettingsOk(s)
    ensures r.Ok? ==> r.value == ToDict(s)
    ensures r.Err? ==> r == ValidateSettings(s).PropagateFailure()
  {
    var _ :- ValidateSettings(s);
    Ok(ToDict(s))
  }

  /** `load`: with no file, the defaults, which are also written out; with
      a file, its payload read back and validated. The result pairs the
      settings with the file contents afterwards. */
  function Load(stored: Option<Json>, repr: Json -> string): (r: Result<(AppSettings, Json)>)
    ensures r.Ok? ==> SettingsOk(r.value.0)
    ensures stored.Some? && r.Ok? ==> r.value.1 == stored.value
    ensures stored.Some? && !stored.value.JObj? ==> r.Err? && r.error.kind == AttributeError
  {
    match stored
    case None =>
      // `save` validates the defaults, which always pass
      DefaultSettingsValid();
      Ok((DefaultSettings, ToDict(DefaultSettings)))
    case Some(payload) =>
      var s :- FromDict(payload, repr);
      var _ :- ValidateSettings(s);
      Ok((s, payload))
  }

  /** Loading with no file yields the defaults and writes them. */
  lemma LoadMissing(repr: Json -> string)
    ensures Load(None, repr) == Ok((DefaultSettings, ToDict(DefaultSettings)))
    ensures Save(DefaultSettings) == Ok(ToDict(DefaultSettings))
  {
    DefaultSettingsValid();
  }

  /** What `save` accepts, `load` returns unchanged. */
  lemma SaveThenLoad(s: AppSettings, repr: Json -> string)
    requires Save(s).Ok?
    ensures Load(Some(Save(s).value), repr) == Ok((s, ToDict(s)))
  {
    DictRoundTrip(s, repr);
  }

  /** Every nested reader, given `{}`, returns its defaults, except that
      the optional fields come back as `None`. */
  lemma EmptyPartsRead(repr: Json -> string)
    ensures ParseSweep(JObj([])) == Ok(SweepSpec(1000000.0, 100000000.0, None, None, false))
    ensures ParseRunMode(JObj([]), repr) == Ok(DefaultSettings.runMode)
    ensures ParseEndpoint(JObj([]), Dsg4102, repr) == Ok(DefaultSettings.setup.awg)
    ensures ParseEndpoint(JObj([]), Mdo34, repr) == Ok(DefaultSettings.setup.osc)
    ensures ParseChannels(JObj([])) == Ok(ChannelSelection(1, 1, None, None))
    ensures ParseAwgSettings(JObj([]), repr) == Ok(DefaultSettings.setup.awgSettings)
    ensures ParseOscSettings(JObj([]), repr) == Ok(DefaultSettings.setup.oscSettings)
  {
    EmptySweepRead();
    EmptyRunModeRead(repr);
    EmptyEndpointsRead(repr);
    EmptyChannelsRead();
    EmptyAwgRead(repr);
    EmptyOscRead(repr);
  }

  lemma EmptySweepRead()
    ensures ParseSweep(JObj([])) == Ok(SweepSpec(1000000.0, 100000000.0, None, None, false))
  {
  }

  lemma EmptyRunModeRead(repr: Json -> string)
    ensures ParseRunMode(JObj([]), repr) == Ok(DefaultSettings.runMode)
  {
    EnumValuesRoundTrip(NoCorrection, FreeRun, Auto, R50, DC, Mag);
  }

  lemma EmptyEndpointsRead(repr: Json -> string)
    ensures ParseEndpoint(JObj([]), Dsg4102, repr) == Ok(DefaultSettings.setup.awg)
    ensures ParseEndpoint(JObj([]), Mdo34, repr) == Ok(DefaultSettings.setup.osc)
  {
  }

  lemma EmptyChannelsRead()
    ensures ParseChannels(JObj([])) == Ok(ChannelSelection(1, 1, None, None))
  {
  }

  lemma EmptyAwgRead(repr: Json -> string)
    ensures ParseAwgSettings(JObj([]), repr) == Ok(DefaultSettings.setup.awgSettings)
  {
    EnumValuesRoundTrip(NoCorrection, FreeRun, Auto, R50, DC, Mag);
  }

  lemma EmptyOscRead(repr: Json -> string)
    ensures ParseOscSettings(JObj([]), repr) == Ok(DefaultSettings.setup.oscSettings)
  {
    EnumValuesRoundTrip(NoCorrection, FreeRun, Auto, R50, DC, Mag);
  }

  /** A file holding `{}` does not load: the reader gives `None` for the
      step size, the step count and both optional channels instead of the
      defaults written next to them, and a linear sweep without a step is
      rejected. */
  lemma EmptyPayloadRejected(repr: Json -> string)
    ensures FromDict(JObj([]), repr) == Ok(EmptyPayloadSettings)
    ensures Load(Some(JObj([])), repr) == Raise(ValidationError, "step_hz must be > 0 for linear sweep")
  {
    EmptyFromDict(repr);
    EmptyPayloadInvalid();
  }

  lemma EmptyFromDict(repr: Json -> string)
    ensures FromDict(JObj([]), repr) == Ok(EmptyPayloadSettings)
  {
    EmptyPartsRead(repr);
    EmptyTopFields(repr);
    assert forall k :: SubPayload(JObj([]), k) == JObj([]);
  }

  /** The top-level reads of `{}` give their defaults. */
  lemma EmptyTopFields(repr: Json -> string)
    ensures IntField(JObj([]), "schema_version", 1) == Ok(1)
    ensures StrField(JObj([]), "freq_unit", MHz, repr) == Ok(MHz)
    ensures StrField(JObj([]), "magnitude_phase_mode", Mag.Value(), repr) == Ok(Mag.Value())
    ensures MagnitudePhaseModeOf(Mag.Value()) == Ok(Mag)
    ensures BoolField(JObj([]), "auto_save_data", true) == Ok(true)
  {
    EnumValuesRoundTrip(NoCorrection, FreeRun, Auto, R50, DC, Mag);
  }

  lemma EmptyPayloadInvalid()
    ensures ValidateSettings(EmptyPayloadSettings) == Raise(ValidationError, "step_hz must be > 0 for linear sweep")
  {
  }

  /** The defaults with the four optional fields cleared. */
  const EmptyPayloadSettings: AppSettings := DefaultSettings.(
    sweep := DefaultSettings.sweep.(stepHz := None, stepCount := None),
    setup := DefaultSettings.setup.(channels := ChannelSelection(1, 1, None, None)))
}
