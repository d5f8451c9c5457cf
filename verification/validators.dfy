/** Settings validation. Each check raises `ValidationError` with its own
    message at the first rule broken; success means every rule holds. */
module Validators {
  import opened Wrappers
  import opened Enums
  import opened Models

  /** A sweep plan is usable: both ends positive, in order, and the
      active mode's step field present and positive. */
  predicate SweepSpecOk(spec: SweepSpec) {
    && spec.startHz > 0.0
    && spec.stopHz > 0.0
    && spec.stopHz >= spec.startHz
    && (spec.isLog ==> spec.stepCount.Some? && spec.stepCount.value > 0)
    && (!spec.isLog ==> spec.stepHz.Some? && spec.stepHz.value > 0.0)
  }

  /** `validate_sweep_spec`. */
  function ValidateSweepSpec(spec: SweepSpec): (r: Result<()>)
    ensures r.Ok? <==> SweepSpecOk(spec)
    ensures r.Err? ==> r.error.kind == ValidationError
    ensures spec.startHz <= 0.0 ==> r == Raise(ValidationError, "start_hz must be > 0")
  {
    if spec.startHz <= 0.0 then Raise(ValidationError, "start_hz must be > 0")
    else if spec.stopHz <= 0.0 then Raise(ValidationError, "stop_hz must be > 0")
    else if spec.stopHz < spec.startHz then Raise(ValidationError, "stop_hz must be >= start_hz")
    else if spec.isLog then
      // `not step_count`: None and 0 are both falsy
      if spec.stepCount.None? || spec.stepCount.value == 0 || spec.stepCount.value <= 0 then
        Raise(ValidationError, "step_count must be > 0 for logarithmic sweep")
      else Ok(())
    else
      if spec.stepHz.None? || spec.stepHz.value == 0.0 || spec.stepHz.value <= 0.0 then
        Raise(ValidationError, "step_hz must be > 0 for linear sweep")
      else Ok(())
  }

  /** Python truthiness of an optional channel number. */
  predicate Truthy(ch: Option<int>) {
    ch.Some? && ch.value != 0
  }

  /** Channel numbers are positive, and the mode-specific channels are set. */
  predicate ChannelsOk(channels: ChannelSelection, correction: CorrectionMode, trigger: TriggerMode) {
    && channels.awgCh > 0
    && channels.oscTestCh > 0
    && (correction == Dual ==> Truthy(channels.oscRefCh))
    && (trigger == Triggered ==> Truthy(channels.oscTrigCh))
  }

  /** `validate_channels`. */
  function ValidateChannels(channels: ChannelSelection, correction: CorrectionMode, trigger: TriggerMode): (r: Result<()>)
    ensures r.Ok? <==> ChannelsOk(channels, correction, trigger)
    ensures r.Err? ==> r.error.kind == ValidationError
    ensures correction == Dual && channels.oscRefCh == Some(0) && channels.awgCh > 0 && channels.oscTestCh > 0 ==>
      r == Raise(ValidationError, "osc_ref_ch is required for dual correction")
  {
    if channels.awgCh <= 0 || channels.oscTestCh <= 0 then Raise(ValidationError, "Channel index must be positive")
    else if correction == Dual && !Truthy(channels.oscRefCh) then
      Raise(ValidationError, "osc_ref_ch is required for dual correction")
    else if trigger == Triggered && !Truthy(channels.oscTrigCh) then
      Raise(ValidationError, "osc_trig_ch is required for triggered mode")
    else Ok(())
  }

  /** More than one point, a positive full scale, and never 50 Ω with AC. */
  predicate OscSettingsOk(settings: OscSettings) {
    && settings.points > 1
    && settings.fullScaleV > 0.0
    && !(settings.impedance == R50 && settings.coupling == AC)
  }

  /** `validate_osc_settings`. */
  function ValidateOscSettings(settings: OscSettings): (r: Result<()>)
    ensures r.Ok? <==> OscSettingsOk(settings)
    ensures r.Err? ==> r.error.kind == ValidationError
  {
    if settings.points <= 1 then Raise(ValidationError, "osc points must be > 1")
    else if settings.fullScaleV <= 0.0 then Raise(ValidationError, "osc full_scale_v must be > 0")
    else if settings.impedance == R50 && settings.coupling == AC then
      Raise(ValidationError, "50-ohm impedance does not support AC coupling")
    else Ok(())
  }

  predicate SettingsOk(settings: AppSettings) {
    && SweepSpecOk(settings.sweep)
    && OscSettingsOk(settings.setup.oscSettings)
    && ChannelsOk(settings.setup.channels, settings.runMode.correctionMode, settings.runMode.triggerMode)
  }

  /** `validate_settings`: sweep first, then oscilloscope, then channels;
      the first failure is the one raised. */
  function ValidateSettings(settings: AppSettings): (r: Result<()>)
    ensures r.Ok? <==> SettingsOk(settings)
    ensures r.Err? ==> r.error.kind == ValidationError
    ensures !SweepSpecOk(settings.sweep) ==> r == ValidateSweepSpec(settings.sweep)
    ensures SweepSpecOk(settings.sweep) && !OscSettingsOk(settings.setup.oscSettings) ==>
      r == ValidateOscSettings(settings.setup.oscSettings)
    ensures SweepSpecOk(settings.sweep) && OscSettingsOk(settings.setup.oscSettings) ==>
      r == ValidateChannels(settings.setup.channels, settings.runMode.correctionMode, settings.runMode.triggerMode)
  {
    var _ :- ValidateSweepSpec(settings.sweep);
    var _ :- ValidateOscSettings(settings.setup.oscSettings);
    ValidateChannels(settings.setup.channels, settings.runMode.correctionMode, settings.runMode.triggerMode)
  }
}
