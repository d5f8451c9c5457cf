/** `dataclasses.asdict` of the application settings: nested dicts in
    field order. The eight enum fields are rendered either as enum
    members or as their value text, so the same layout serves the raw
    `asdict` output and the persisted form. */
module SettingsDict {
  import opened Wrappers
  import opened Enums
  import opened Models
  import opened PyJson

  /** An enum field: its value text in the persisted form, the member
      itself in the raw `asdict` output. */
  function Render(asText: bool, v: string): Json {
    if asText then JStr(v) else JEnum(v)
  }

  function OptFloat(x: Option<real>): Json {
    match x case Some(v) => JFloat(v) case None => JNull
  }

  function OptInt(x: Option<int>): Json {
    match x case Some(v) => JInt(v) case None => JNull
  }

  function SweepDict(sw: SweepSpec): Json {
    JObj([Member("start_hz", JFloat(sw.startHz)), Member("stop_hz", JFloat(sw.stopHz)),
          Member("step_hz", OptFloat(sw.stepHz)), Member("step_count", OptInt(sw.stepCount)),
          Member("is_log", JBool(sw.isLog))])
  }

  function RunModeDict(rm: RunMode, asText: bool): Json {
    JObj([Member("correction_mode", Render(asText, rm.correctionMode.Value())),
          Member("trigger_mode", Render(asText, rm.triggerMode.Value())),
          Member("auto_range", JBool(rm.autoRange)), Member("auto_reset", JBool(rm.autoReset))])
  }

  function EndpointDict(ep: InstrumentEndpoint, asText: bool): Json {
    JObj([Member("model", JStr(ep.model)), Member("connect_mode", Render(asText, ep.connectMode.Value())),
          Member("visa_address", JStr(ep.visaAddress)), Member("ip_address", JStr(ep.ipAddress))])
  }

  function ChannelsDict(ch: ChannelSelection): Json {
    JObj([Member("awg_ch", JInt(ch.awgCh)), Member("osc_test_ch", JInt(ch.oscTestCh)),
          Member("osc_ref_ch", OptInt(ch.oscRefCh)), Member("osc_trig_ch", OptInt(ch.oscTrigCh))])
  }

  function AwgSettingsDict(a: AwgSettings, asText: bool): Json {
    JObj([Member("amplitude_vpp", JFloat(a.amplitudeVpp)),
          Member("impedance", Render(asText, a.impedance.Value()))])
  }

  function OscSettingsDict(o: OscSettings, asText: bool): Json {
    JObj([Member("full_scale_v", JFloat(o.fullScaleV)), Member("offset_v", JFloat(o.offsetV)),
          Member("points", JInt(o.points)), Member("impedance", Render(asText, o.impedance.Value())),
          Member("coupling", Render(asText, o.coupling.Value()))])
  }

  function SetupDict(su: InstrumentSetup, asText: bool): Json {
    JObj([Member("awg", EndpointDict(su.awg, asText)), Member("osc", EndpointDict(su.osc, asText)),
          Member("channels", ChannelsDict(su.channels)),
          Member("awg_settings", AwgSettingsDict(su.awgSettings, asText)),
          Member("osc_settings", OscSettingsDict(su.oscSettings, asText))])
  }

  /** The top-level members, in the field order of `AppSettings`. */
  function SettingsMembers(s: AppSettings, asText: bool): seq<Member> {
    [Member("schema_version", JInt(s.schemaVersion)), Member("freq_unit", JStr(s.freqUnit)),
     Member("sweep", SweepDict(s.sweep)), Member("run_mode", RunModeDict(s.runMode, asText)),
     Member("setup", SetupDict(s.setup, asText)),
     Member("magnitude_phase_mode", Render(asText, s.magnitudePhaseMode.Value())),
     Member("auto_save_data", JBool(s.autoSaveData))]
  }

  /** `asdict(settings)`: enum members stay enum members. */
  function AsDict(s: AppSettings): Json {
    JObj(SettingsMembers(s, false))
  }
}
