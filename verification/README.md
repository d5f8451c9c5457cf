# Gain/phase sweeper core in Dafny

This project models the measurement core of an AWG + oscilloscope gain/phase
sweeper: a function generator drives a device under test at a list of
frequencies, an oscilloscope records the input and output, and the program
turns each record into a gain (linear and dB) and optionally a phase, corrects
it against a stored reference response, and exports the result.

Both generations of the program are modelled:

- the layered application: sweep planning (`sweep_engine`), settings
  validation, the measurement arithmetic of `signal_processing`, reference
  calibration, the `SweepResult` data model and array exporter, the JSON
  settings repository, the instrument-address factory, the Tk view-model
  mapper, and the `StartSweepUseCase` orchestrator with its one-step
  auto-range rule;
- the legacy program: the SI-prefix parsers of `cvtTools`, the focus-out
  normalisers of `traceVal`, the instrument command-script interpreter and
  IEEE 488.2 definite-length block framing of `equips`, the channel
  arithmetic of `channel`, the device and channel registry of `deviceMng`,
  the configuration normalisers and export column selection of `ui`, and the
  sweep loop, retry-once auto-range controller and gain correction of `test`.

Conventions of the model:

- Python floats are Dafny `real`s, so there is no rounding, NaN or infinity;
  where the program rounds (`round(x, 6)`, `np.round`) the rounding is an
  explicit function with the property it needs.
- Logarithms, exponentials, `atan2`, square roots, the FFT, the Hann window,
  spline fitting and float formatting are fields of a `Numerics` record
  passed as a parameter, so every proof holds for any implementation of
  them; a complex value is a pair of reals.
- Exceptions are an `Err` carrying the Python exception kind and message.
- Instruments are oracles: a port answers each command from the trace of
  commands sent so far; the stop flag is an oracle read once per point.
- Mutable Tk variables, channel objects and dictionaries are immutable
  records and sequences, and an operation returns the updated value.
- Strings are sequences of characters; the regular expressions of the
  program are hand-written scanners over them.

## Model

| member | source | states |
|---|---|---|
| SweepEngine.LogSpace | src/app/domain/sweep_engine.py:9-11 | a log sweep of n points starts at 10^a and, beyond one point, ends at 10^b |
| SweepEngine.WithinBound | src/app/domain/sweep_engine.py:20-24 | the linear loop keeps a point exactly when its index is below the point count, so no point past `stop + 1e-9` is appended |
| SweepEngine.LinearSweep | src/app/domain/sweep_engine.py:20-24 | the linear points are `start + i*step` for every index up to the count |
| SweepEngine.LinearPoints | src/app/domain/sweep_engine.py:20-24 | the accumulate-and-step loop produces exactly the closed-form linear sweep |
| SweepEngine.GenerateFrequencyPoints | src/app/domain/sweep_engine.py:8-28 | the procedural generator agrees with the value-level definition of the sweep plan |
| SweepEngine.FrequencyPointsSpec | src/app/domain/sweep_engine.py:8-28 | an error exactly for a linear plan without a positive step; otherwise never empty; a log plan gives `max(1, step_count)` points |
| SweepEngine.LinearSweepSpec | src/app/domain/sweep_engine.py:20-24 | the linear sweep starts at the start frequency, climbs by exactly the step, stays within the stop bound, and the next point would pass it |
| SweepEngine.LastPastBound | src/app/domain/sweep_engine.py:22-24 | the loop stops only once the next point is past the bound |
| SweepEngine.LinearPointsSpec | src/app/domain/sweep_engine.py:13-27 | a linear plan yields `[start]` when start and stop are close, otherwise points from start in exact steps up to the bound |
| SweepEngine.LinearSweepExample | tests/test_domain_sweep_engine.py:16-19 | 1 Hz to 5 Hz in 2 Hz steps gives 1, 3 and 5 Hz, end included |
| SweepEngine.SamplingWindowWith | src/app/domain/sweep_engine.py:31-45 | the window is the longest of the sample-count, cycle-count and minimum windows, cut down to `max_points` samples when that is positive and shorter: it never exceeds either bound, and it is below the clamp only when it equals that longest window |
| SweepEngine.TenCycleWindow | src/app/domain/sweep_engine.py:31-45 | a 1 kHz tone sampled at 1 MS/s for 1000 points gets a 10 ms window, ten cycles |
| SweepEngine.SamplingWindow | src/app/domain/sweep_engine.py:31-45 | with the default arguments the window is positive, holds at least ten cycles of the tone and at least 1 µs unless clamped, covers the requested samples, and is at most 10 000 000 samples long |
| Validators.ValidateSweepSpec | src/app/domain/validators.py:11-24 | succeeds exactly for a plan with positive, ordered ends and a positive step (count for log, Hz for linear); failures are validation errors with the source's messages |
| Validators.ValidateChannels | src/app/domain/validators.py:27-34 | succeeds exactly when both channel numbers are positive and dual correction / triggered mode have their extra channel set (zero counts as unset) |
| Validators.ValidateOscSettings | src/app/domain/validators.py:37-44 | succeeds exactly for more than one point, a positive full scale and no 50 Ω with AC coupling |
| Validators.ValidateSettings | src/app/domain/validators.py:47-54 | succeeds exactly when all three parts are valid; the first failing part, in sweep / oscilloscope / channels order, is the error raised |
| Enums.CorrectionModeOf | src/app/domain/enums.py:6-9 | `CorrectionMode(s)` succeeds exactly for "none", "single" and "dual", giving the member with that value |
| Enums.TriggerModeOf | src/app/domain/enums.py:12-14 | succeeds exactly for "free_run" and "triggered" |
| Enums.ConnectionModeOf | src/app/domain/enums.py:17-19 | succeeds exactly for "auto" and "lan" |
| Enums.ImpedanceModeOf | src/app/domain/enums.py:22-24 | succeeds exactly for "50" and "INF" |
| Enums.CouplingModeOf | src/app/domain/enums.py:27-29 | succeeds exactly for "AC" and "DC" |
| Enums.MagnitudePhaseModeOf | src/app/domain/enums.py:32-35 | succeeds exactly for "magnitude", "phase" and "magnitude_phase" |
| Enums.EnumValuesRoundTrip | src/app/domain/enums.py:6-35 | every member of every enum is recovered from its own value |
| Models.MagnitudePoint | src/app/domain/models.py:75-81 | a point built from frequency and gains alone carries no phase and no complex gain |
| Models.Append | src/app/domain/models.py:89-90 | appending adds the point at the end and keeps every earlier point and the metadata |
| Models.FreqArray | src/app/domain/models.py:96-97 | one frequency per point, in point order |
| Models.GainArray | src/app/domain/models.py:99-100 | one linear gain per point, in point order |
| Models.GainDbArray | src/app/domain/models.py:102-103 | one dB gain per point, in point order |
| Models.PhaseArrayMembers | src/app/domain/models.py:105-107 | the phase array holds exactly the phases points carry, and is empty iff no point has one |
| Models.ComplexArrayMembers | src/app/domain/models.py:109-111 | the complex-gain array holds exactly the complex gains points carry, and is empty iff no point has one |
| Models.ArraysAfterAppend | src/app/domain/models.py:89-111 | after an append every array gains that point's entry (phase and complex only when present) and the result is not empty |
| SignalProcessing.CalcVinPeak | src/app/domain/signal_processing.py:8-15 | with both ends at 50 Ω the drive is half the panel voltage; a non-negative panel voltage gives a drive between 0 and the panel voltage |
| SignalProcessing.VinFactor | src/app/domain/signal_processing.py:9-15 | for every impedance pairing the drive-to-panel ratio lies in (0, 1] |
| SignalProcessing.VinPeakMonotone | src/app/domain/signal_processing.py:8-15 | a larger panel voltage never gives a smaller drive |
| SignalProcessing.VertexOffset | src/app/domain/signal_processing.py:23-26 | nearly collinear log-magnitudes (curvature below 1e-12) give offset 0 |
| SignalProcessing.ParabolicDeltaSymmetric | src/app/domain/signal_processing.py:18-26 | equal neighbours put the vertex on the middle bin |
| SignalProcessing.ParabolicDeltaMirror | src/app/domain/signal_processing.py:18-26 | swapping the two neighbours negates the offset |
| SignalProcessing.ArgMin | src/app/domain/signal_processing.py:46 | the chosen bin is nearest the target, and every earlier bin is strictly farther (first minimum) |
| SignalProcessing.BinFreqs | src/app/domain/signal_processing.py:44 | n/2 + 1 bins, bin i at i/(n·d) |
| SignalProcessing.Spectrum | src/app/domain/signal_processing.py:41-43 | the real FFT of an n-sample record has n/2 + 1 bins |
| SignalProcessing.PeakBand | src/app/domain/signal_processing.py:47-48 | the band holds the peak bin, lies inside the spectrum and has at most five bins |
| SignalProcessing.PeakOffset | src/app/domain/signal_processing.py:53-57 | the parabolic offset is used only when both neighbours of the peak exist, else 0 |
| SignalProcessing.RefinedFreq | src/app/domain/signal_processing.py:59-62 | a single bin, or a zero offset, leaves the peak bin's frequency unchanged |
| SignalProcessing.ToneAngle | src/app/domain/signal_processing.py:64-68 | the tone's own angle, or the band sum's angle when the tone is below 1e-15 |
| SignalProcessing.MakeTone | src/app/domain/signal_processing.py:40-71 | the tone metrics pick the nearest bin, keep the band shape, and build the phasor from the band amplitude and the chosen angle |
| SignalProcessing.ToneMetrics | src/app/domain/signal_processing.py:29-71 | succeeds exactly for a non-empty record with two time stamps of non-zero spacing whose samples broadcast against the time stamps (one sample, or one per stamp); a record that does not broadcast raises `ValueError`; the result has the band shape |
| SignalProcessing.MeasureSingleChannel | src/app/domain/signal_processing.py:74-90 | the gain is amplitude over drive, both floored at 1e-15, with its dB value; phase and complex gain are present exactly when asked for |
| SignalProcessing.DualPhasors | src/app/domain/signal_processing.py:103-107 | both phasors are kept unless either is below 1e-15, in which case both are rebuilt from their band sums' angles |
| SignalProcessing.SafeReference | src/app/domain/signal_processing.py:109 | the divisor is never zero: the reference phasor when above 1e-15, else 1e-15 |
| SignalProcessing.MeasureDualChannel | src/app/domain/signal_processing.py:93-113 | succeeds exactly when both records do; the complex gain times the divisor gives the test phasor, the gain is floored at 1e-15, and phase is always present |
| Calibration.ReferenceValues | src/app/domain/calibration.py:19-22 | magnitude-only references give one real value per dB entry; with a phase every value is complex; unequal lengths that cannot broadcast are an error |
| Calibration.UniqueIndices | src/app/domain/calibration.py:28-29 | the kept indices are increasing and each opens a run of equal frequencies |
| Calibration.UniqueIndicesComplete | src/app/domain/calibration.py:28-29 | every index that opens a run of equal frequencies is kept |
| Calibration.KnotsIncrease | src/app/domain/calibration.py:24-29 | after the sort and de-duplication the knot frequencies strictly increase |
| Calibration.KnotsCover | src/app/domain/calibration.py:24-29 | every reference frequency is a knot, and there are knots iff the reference is not empty |
| Calibration.KnotsFromEntries | src/app/domain/calibration.py:24-29 | each knot carries the value of some reference entry at that frequency |
| Calibration.FromKnots | src/app/domain/calibration.py:31-79 | one knot gives a constant; otherwise a spline of order min(3, n−1) over the knots, complex when the values are, with the end values kept for extrapolation |
| Calibration.ReferenceKnots | src/app/domain/calibration.py:12-29 | the knots pair frequencies with values and exist iff the reference has frequencies; it fails iff the values do not broadcast, there is a single frequency or a single value (squeezed to a 0-d array, which the argsort indexing rejects with `IndexError`, even with no frequencies), or there are fewer values than frequencies |
| Calibration.BuildReferenceInterpolator | src/app/domain/calibration.py:11-29 | an empty reference raises `ValueError("Reference frequency data is empty")`; otherwise it succeeds exactly when the knots can be built, so never for a single frequency |
| Calibration.BuildHoldoutInterpolator | src/ui.py:2073-2128 | the legacy builder fails on an empty reference, with `IndexError` when its values squeeze to a 0-d array and `ValueError` otherwise, fails on a single frequency, and otherwise succeeds exactly when the knots can be built |
| Calibration.EmptyFreqSingleGain | src/ui.py:2083-2103 | no frequencies with one gain value raise `IndexError` at the argsort indexing, before the emptiness check |
| Calibration.BuildersAgree | src/ui.py:2073-2165 | the legacy holdout builder succeeds on the same references as the domain builder (both reject an empty one) and differs only for a single real-valued knot, where it keeps the absolute value |
| Calibration.EvaluateKnots | src/app/domain/calibration.py:31-79 | one knot gives its value everywhere; outside the knot range the first or last value holds flat, complex or as a magnitude |
| Calibration.ApplyReferenceToPoint | src/app/domain/calibration.py:82-114 | the frequency is kept; without phase the gain times max(abs(ref), 1e-12) gives the old gain and phase is untouched; with phase the gain, dB and degrees are those of the raw complex gain over the reference, and the only error is a zero reference dividing a Python complex gain (the point's own, or the real gain); a gain rebuilt from phase divides in numpy and gives the non-finite quotient |
| Calibration.RawComplex | src/app/domain/calibration.py:87-92 | the point's own complex gain first, else gain and phase, else the real gain |
| Calibration.SelfReferenceIsUnity | src/app/domain/calibration.py:106-107 | dividing a point by its own gain (at least 1e-12) gives gain 1 |
| Calibration.ZeroReferenceFails | src/app/domain/calibration.py:84-106 | a zero reference, real or complex, fails the phase path exactly when the raw gain is a Python complex, gives the non-finite quotient of the rebuilt gain otherwise, and never fails the magnitude path |
| CvtTools.SignLen | src/cvtTools.py:14 | the optional sign takes one character exactly when the text starts with `+` or `-` |
| CvtTools.DigitRunSpec | src/cvtTools.py:14 | the `\d*` run is all digits and cannot be extended (greedy) |
| CvtTools.FractionLen | src/cvtTools.py:14 | the `(?:\.\d+)?` group starts with a dot and is never a lone dot |
| CvtTools.ExponentLen | src/cvtTools.py:14 | the exponent group starts with `e`/`E` and is never a lone mark |
| CvtTools.ScanDigits | src/cvtTools.py:14 | the integer and fraction parts of the match are digits |
| CvtTools.UnitLetter | src/cvtTools.py:14-16 | group 2 of the `?` pattern is empty iff no unit character follows the number, else that one character |
| CvtTools.UnitRun | src/cvtTools.py:86-88 | group 2 of the `*` pattern is the longest run of unit characters after the number |
| CvtTools.NumberValue | src/cvtTools.py:18-21 | `float` of the number text fails exactly when the mantissa has no digit |
| CvtTools.PrefixScale | src/cvtTools.py:30-39 | every prefix letter has a positive multiplier (unknown letters 1) |
| CvtTools.ConvertGeneralUnit | src/cvtTools.py:47-68 | the multiplier is positive, and a missing or empty unit scales by 1 |
| CvtTools.UnitScale | src/cvtTools.py:23-39 | with no unit letter the default unit's multiplier applies |
| CvtTools.ParseGeneralVal | src/cvtTools.py:8-45 | spaces are ignored; an unparseable number gives 0.0; otherwise the scaled value, returned as int exactly when it is integral |
| CvtTools.ParseToHz | src/cvtTools.py:70-77 | the parsed frequency, with any falsy result replaced by int 0 |
| CvtTools.ParseToV | src/cvtTools.py:102-107 | voltage text parses with no default unit, that is with multiplier 1 |
| CvtTools.VppKindScale | src/cvtTools.py:93-97 | the amplitude-kind multiplier is 1, 2 or √8 |
| CvtTools.MilliScale | src/cvtTools.py:99 | the milli multiplier is 0.001 or 1 |
| CvtTools.ParseToVpp | src/cvtTools.py:79-100 | no number text gives `""`; a number text `float` rejects raises `ValueError`; otherwise a value |
| CvtTools.ScanRenderedInt | src/cvtTools.py:14-19 | an integer's decimal text followed by a terminator scans back as exactly that integer |
| CvtTools.ParseRenderedInt | src/cvtTools.py:8-45 | rendering an integer with a unit letter and parsing it gives the integer times that letter's multiplier (the default unit's without a letter) |
| CvtTools.ParseRenderedVpp | src/cvtTools.py:79-100 | a count followed by an amplitude word parses to the count times the word's kind and milli multipliers |
| CvtTools.VppWordScale | src/cvtTools.py:94 | "Vpp" scales by 1 |
| CvtTools.VpkWordScale | src/cvtTools.py:95 | "Vpk" scales by 2 |
| CvtTools.VrmsWordScale | src/cvtTools.py:96 | "Vrms" scales by √8 |
| CvtTools.MilliVpkWordScale | src/cvtTools.py:95-99 | "mVpk" scales by 2 × 0.001 |
| CvtTools.NoDigitsParsesToZero | src/cvtTools.py:18-21 | text without any digit parses to 0.0 |
| TraceVal.PrefixLabel | src/traceVal.py:36-49 | a recognised prefix letter has a one-character canonical spelling that is itself a unit character |
| TraceVal.LeadLabel | src/traceVal.py:73-91 | the written prefix is at most one unit character, never a space or an exponent mark |
| TraceVal.FreqOutFocus | src/traceVal.py:16-58 | text with no unit letters is left alone; otherwise it becomes "<number> <prefix>Hz", with bare "Hz" for `h` and no unit for an unknown letter |
| TraceVal.VoltsOutFocus | src/traceVal.py:62-95 | the field becomes "<number> <prefix>V" |
| TraceVal.VppKindLabel | src/traceVal.py:130-139 | the amplitude kind written is one of "Vpp", "Vpk", "Vrms" or nothing |
| TraceVal.VppOutFocus | src/traceVal.py:98-143 | the field becomes "<number> <prefix><kind>" |
| TraceVal.GeneralOutFocus | src/traceVal.py:146-176 | the field becomes "<number> <prefix>" |
| TraceVal.ForcePositiveOutFocus | src/traceVal.py:180-192 | the text is kept iff its leading number parses and is positive, and cleared otherwise |
| TraceVal.ForceIntOutFocus | src/traceVal.py:196-220 | an unparseable number clears the field; without a unit the field is the number truncated to an int |
| TraceVal.IpOutFocus | src/traceVal.py:224-233 | a non-empty octet text is kept iff `int()` accepts it and its value is in 0..255, and cleared otherwise |
| TraceVal.IpOutFocusOfRendered | src/traceVal.py:224-233 | rendering an integer and normalising it keeps exactly the octets 0..255 |
| TraceVal.ForcePositiveIdempotent | src/traceVal.py:180-192 | a second focus-out changes nothing |
| TraceVal.VppKindAgreesWithParse | src/traceVal.py:130-139 | the kind shown is "Vpk" exactly when `parse_to_Vpp` doubles the value, "Vpp" whenever the unit names vpp, and "Vrms" whenever the value is scaled by √8 |
| TraceVal.ScanStable | src/traceVal.py:23 | the number text scans the same whatever non-extending text follows it |
| TraceVal.NormalisedParts | src/traceVal.py:23-26 | reading back "<number> <suffix>" gives the same number text and the suffix as unit |
| TraceVal.FreqOutFocusIdempotent | src/traceVal.py:16-58 | normalising a frequency field twice is the same as once |
| TraceVal.VoltsOutFocusIdempotent | src/traceVal.py:62-95 | normalising a voltage field twice is the same as once |
| TraceVal.GeneralOutFocusIdempotent | src/traceVal.py:146-176 | normalising a general field twice is the same as once |
| SettingsRepo.DefaultSettingsValid | src/app/infrastructure/persistence/settings_repo_json.py:53-95 | the default settings pass validation, so a first load never fails |
| SettingsRepo.ToDict | src/app/infrastructure/persistence/settings_repo_json.py:97-107 | the persisted form is a seven-member dict with no enum member left at any depth |
| SettingsRepo.TextHasNoEnum | src/app/infrastructure/persistence/settings_repo_json.py:98-106 | with the eight enum fields written as their values, no enum member remains anywhere in the nested dicts |
| SettingsRepo.FromDict | src/app/infrastructure/persistence/settings_repo_json.py:109-137 | a payload that is not a dict raises `AttributeError`; a loaded schema version, sweep, run mode and channel selection are what their readers give for the entry under their key (`{}` when absent) |
| SettingsRepo.ParseSweep | src/app/infrastructure/persistence/settings_repo_json.py:123-137 | a sweep section loads iff its start, stop, step and count convert, and each field is the conversion of its own key with its own default |
| SettingsRepo.SweepNotDictFails | src/app/infrastructure/persistence/settings_repo_json.py:110-124 | a sweep entry that is not a dict (a list included) raises `AttributeError` once the schema version reads |
| SettingsRepo.StartFromExponentString | src/app/infrastructure/persistence/settings_repo_json.py:124 | a start frequency stored as the string `"1.5e6"` loads as 1500000 |
| PyJson.ToFloat | src/app/infrastructure/persistence/settings_repo_json.py:124-130 | `float` keeps a float, widens an int, reads a stripped string as an integer spelling or a decimal literal with fraction and exponent, and raises exactly on `None`, a dict, a list, an enum member or any other string |
| PyJson.ToInt | src/app/infrastructure/persistence/settings_repo_json.py:121 | `int` keeps an int, truncates a float toward zero, reads a string only as an integer spelling, and raises exactly on `None`, a dict, a list, an enum member or any other string |
| PyJson.ExponentStringToFloat | src/app/infrastructure/persistence/settings_repo_json.py:124 | `float("1.5e6")` is 1500000 |
| SettingsRepo.FloatFieldOf | src/app/infrastructure/persistence/settings_repo_json.py:124-125 | `float(obj.get(key, default))` returns the float its key holds |
| SettingsRepo.IntFieldOf | src/app/infrastructure/persistence/settings_repo_json.py:158-159 | `int(obj.get(key, default))` returns the int its key holds |
| SettingsRepo.StrFieldOf | src/app/infrastructure/persistence/settings_repo_json.py:146-149 | `str(obj.get(key, default))` returns the string its key holds |
| SettingsRepo.BoolFieldOf | src/app/infrastructure/persistence/settings_repo_json.py:136 | `bool(obj.get(key, default))` returns the boolean its key holds |
| SettingsRepo.OptFloatFieldOf | src/app/infrastructure/persistence/settings_repo_json.py:126-130 | an optional float field reads back its value, `None` included |
| SettingsRepo.OptIntFieldOf | src/app/infrastructure/persistence/settings_repo_json.py:131-135 | an optional int field reads back its value, `None` included |
| SettingsRepo.SweepFrom | src/app/infrastructure/persistence/settings_repo_json.py:123-137 | a sweep dict whose keys hold a plan's values reads back as that plan |
| SettingsRepo.SweepRoundTrip | src/app/infrastructure/persistence/settings_repo_json.py:123-137 | reading the written sweep dict gives the same plan |
| SettingsRepo.RunModeFrom | src/app/infrastructure/persistence/settings_repo_json.py:138-143 | a run-mode dict holding the values reads back as that run mode |
| SettingsRepo.RunModeRoundTrip | src/app/infrastructure/persistence/settings_repo_json.py:138-143 | reading the written run-mode dict gives the same run mode |
| SettingsRepo.EndpointFrom | src/app/infrastructure/persistence/settings_repo_json.py:145-156 | an endpoint dict holding the values reads back as that endpoint |
| SettingsRepo.EndpointRoundTrip | src/app/infrastructure/persistence/settings_repo_json.py:145-156 | reading the written endpoint dict gives the same endpoint |
| SettingsRepo.ChannelsFrom | src/app/infrastructure/persistence/settings_repo_json.py:157-170 | a channels dict holding the values reads back as that selection |
| SettingsRepo.ChannelsRoundTrip | src/app/infrastructure/persistence/settings_repo_json.py:157-170 | reading the written channels dict gives the same selection, optional channels included |
| SettingsRepo.AwgSettingsFrom | src/app/infrastructure/persistence/settings_repo_json.py:171-174 | a generator-settings dict holding the values reads back as those settings |
| SettingsRepo.AwgSettingsRoundTrip | src/app/infrastructure/persistence/settings_repo_json.py:171-174 | reading the written generator settings gives the same settings |
| SettingsRepo.OscSettingsFrom | src/app/infrastructure/persistence/settings_repo_json.py:175-181 | an oscilloscope-settings dict holding the values reads back as those settings |
| SettingsRepo.OscSettingsRoundTrip | src/app/infrastructure/persistence/settings_repo_json.py:175-181 | reading the written oscilloscope settings gives the same settings |
| SettingsRepo.SettingsFrom | src/app/infrastructure/persistence/settings_repo_json.py:109-187 | a top-level dict whose fields and nested dicts read back as the parts reads back as the whole settings |
| SettingsRepo.TopLookups | src/app/infrastructure/persistence/settings_repo_json.py:97-107 | where the persisted form keeps each part of the settings |
| SettingsRepo.SetupLookups | src/app/infrastructure/persistence/settings_repo_json.py:112-118 | each nested setup dict is found under its own key |
| SettingsRepo.DictRoundTrip | src/app/infrastructure/persistence/settings_repo_json.py:97-187 | reading back what `_to_dict` wrote gives the same settings, `None` fields included |
| SettingsRepo.Save | src/app/infrastructure/persistence/settings_repo_json.py:47-51 | the settings are written iff they validate, as their persisted form; otherwise the validation error |
| SettingsRepo.Load | src/app/infrastructure/persistence/settings_repo_json.py:36-45 | whatever loads is valid; the stored file is left as it was; a payload that is not a dict raises `AttributeError` |
| SettingsRepo.LoadMissing | src/app/infrastructure/persistence/settings_repo_json.py:37-40 | with no file the defaults are returned and written |
| SettingsRepo.SaveThenLoad | src/app/infrastructure/persistence/settings_repo_json.py:36-51 | what `save` accepts, `load` returns unchanged |
| SettingsRepo.EmptyPartsRead | src/app/infrastructure/persistence/settings_repo_json.py:109-187 | each nested reader given `{}` returns its defaults, except that the optional fields come back as `None` |
| SettingsRepo.EmptyPayloadRejected | src/app/infrastructure/persistence/settings_repo_json.py:126-130 | a file holding `{}` does not load: `step_hz` reads as `None`, so the linear default sweep fails validation |
| Exporters.ResultToArrays | src/app/domain/exporters.py:10-29 | frequency and both gains are always exported; phase only when some point has one; real and imaginary parts only when some point has a complex gain; no other key |
| Exporters.ResultToArraysContents | src/app/domain/exporters.py:10-29 | the base arrays hold one entry per point in point order; the phase and complex arrays hold exactly the values present, in point order |
| Exporters.MetadataFields | src/app/domain/exporters.py:32-41 | the metadata holds every field of `asdict(settings)` unchanged, enum members included, except `auto_save_data` |
| EquipsFactory.ResolveVisaAddress | src/app/infrastructure/instruments/equips_factory.py:21-24 | a LAN endpoint with a non-blank IP becomes `TCPIP0::<ip>::INSTR`; any other endpoint uses its stripped VISA address; the result has no surrounding whitespace |
| EquipsFactory.LanAddressRecoverable | src/app/infrastructure/instruments/equips_factory.py:22-23 | the IP address can be read back out of the LAN resource string |
| EquipsFactory.ResolveIdempotent | src/app/infrastructure/instruments/equips_factory.py:21-24 | an endpoint naming the resolved address directly resolves to the same address |
| EquipsFactory.CreateInstrumentPorts | src/app/infrastructure/instruments/equips_factory.py:21-34 | each port drives its endpoint's model at the address reported beside it, which is `TCPIP0::<ip>::INSTR` for an endpoint reached by a non-blank IP and its stripped VISA address otherwise |
| EquipsFactory.PortsIndependent | src/app/infrastructure/instruments/equips_factory.py:28-34 | each port depends on its own endpoint only |
| Mapper.SafeInt | src/app/presentation/tk/mapper.py:27-32 | the parsed number truncated toward zero: same sign, less than one away, and exact for integral values |
| Mapper.SafeIntOfRendered | src/app/presentation/tk/mapper.py:27-32 | an integer written by `str` is read back unchanged |
| Mapper.AmplitudeOf | src/app/presentation/tk/mapper.py:85 | the amplitude text converts iff it holds a number that `float` accepts; otherwise `ValueError` |
| Mapper.VmToSettings | src/app/presentation/tk/mapper.py:36-98 | reading the form succeeds iff every enum text and the amplitude are valid; on success the active mode decides the step field, points are at least two, both optional channels are set and addresses are stripped |
| Mapper.SettingsToVm | src/app/presentation/tk/mapper.py:102-142 | the form shows the settings' unit and mode, keeps the step field when the plan has none, and leaves the fields the settings do not own alone |
| Mapper.MapperRoundTrip | src/app/presentation/tk/mapper.py:36-142 | writing settings into the form and reading them back gives the same settings, except for the documented defaults, the point floor of two and the float fields' text |
| StartSweep.Issue | src/app/application/use_cases/start_sweep.py:173-201 | commands are sent in order and the first one that raises ends the sequence, with that error, after the commands before it were answered |
| StartSweep.ConfigureCalls | src/app/application/use_cases/start_sweep.py:165-201 | configuration never sets a frequency or acquires |
| StartSweep.ConfigureCallsSpec | src/app/application/use_cases/start_sweep.py:173-201 | resets come first exactly when auto-reset is on; the command count follows the dual and triggered choices; the generator is set to the requested amplitude |
| StartSweep.ConfigureInstruments | src/app/application/use_cases/start_sweep.py:165-203 | all configuration commands in order and then one `READY` warning; a command that raises stops it with no event |
| StartSweep.TargetRange | src/app/application/use_cases/start_sweep.py:218-225 | a swing above 85% of the range grows it to fill 70%; a positive swing below 55% shrinks it, never below half; otherwise the range is kept |
| StartSweep.TargetOffset | src/app/application/use_cases/start_sweep.py:220-228 | the waveform midpoint when it is more than 20% of the range from the current offset, else the requested offset |
| StartSweep.AutoRangeDecision | src/app/application/use_cases/start_sweep.py:209-237 | a new setting is written iff the target range or offset is not within 1% (or 1 mV) of the current one, and it is exactly the targets |
| StartSweep.GrownRangeSettles | src/app/application/use_cases/start_sweep.py:222-223 | after growing, the same waveform keeps the new range |
| StartSweep.OffsetReturnsToRequested | src/app/application/use_cases/start_sweep.py:220-231 | the offset need not settle: a waveform centred on 1 V moves the offset to 1 V, and read again there it moves back to the requested 0 V |
| StartSweep.AdjustAutoRange | src/app/application/use_cases/start_sweep.py:205-237 | an empty waveform sends nothing; otherwise the vertical setting is queried first, and the range and offset `AutoRangeDecision` picks from the waveform's extremes and the setting read are written iff it picks some on a positive range; the result is true iff that write succeeded, and a failing query, an unexpected reply or a failing write is the error |
| StartSweep.ReadOne | src/app/application/use_cases/start_sweep.py:64-86 | one read-back query; a mismatch warning is emitted iff the value read is not close to the request |
| StartSweep.ReadBack | src/app/application/use_cases/start_sweep.py:62-86 | the generator is set to the target first; the point goes on iff that command and both read-backs answer with numbers, and those numbers are the values returned; each read-back not close to its request warns and never fails the point |
| StartSweep.ReadPair | src/app/application/use_cases/start_sweep.py:64-86 | the amplitude is queried only after the frequency answered a number; both values are the numbers the instrument reported, and there is no warning iff both are close to their requests |
| StartSweep.AcquireOnce | src/app/application/use_cases/start_sweep.py:88-100 | the sample rate is read, the time base set to the sampling window for the actual frequency, one acquisition made and the test channel read |
| StartSweep.Reacquire | src/app/application/use_cases/start_sweep.py:102-104 | without auto-range nothing happens; with it at most one more acquisition, and the adjuster is consulted once |
| StartSweep.Acquire | src/app/application/use_cases/start_sweep.py:88-104 | at least one and at most two acquisitions per point, at most one without auto-range, and no frequency change |
| StartSweep.Measure | src/app/application/use_cases/start_sweep.py:106-128 | dual mode measures against the reference channel (the test channel when none is set); otherwise against the drive computed from the amplitude read back, with phase only when triggered |
| StartSweep.Calibrate | src/app/application/use_cases/start_sweep.py:138-144 | the reference is applied only when calibration is on and an interpolator is present, with phase exactly in dual or triggered mode; the frequency is kept |
| StartSweep.RunPoint | src/app/application/use_cases/start_sweep.py:62-146 | one point sets the generator exactly once, first; acquires at most twice; records the frequency read back; and emits only mismatch warnings |
| StartSweep.MeasurePoint | src/app/application/use_cases/start_sweep.py:88-144 | after the read-back a point sends no frequency command, acquires at most twice, warns nothing, and sits at the frequency the generator reported |
| StartSweep.PassPoint | src/app/application/use_cases/start_sweep.py:62-146 | a pass yields a point iff read-back, acquisition, measurement and correction all succeed, and the point is then `Calibrate` of the measurement of the acquired waveform at the frequency and amplitude the generator reported |
| StartSweep.RunPointBookkept | src/app/application/use_cases/start_sweep.py:62-149 | every pass of a run, after any trace and for any target, only appends calls, sends one frequency command and at most two acquisitions, and warns only with the mismatch codes |
| StartSweep.RuntimeFailure | src/app/application/use_cases/start_sweep.py:161-163 | a runtime failure returns an empty result and appends one `SWEEP_RUNTIME` failure with the exception's message |
| StartSweep.AfterPoint | src/app/application/use_cases/start_sweep.py:146-149 | after each point exactly one progress event is added and no terminal event |
| StartSweep.FailureEnds | src/app/application/use_cases/start_sweep.py:161-163 | a runtime failure after `Started` ends the run with exactly one terminal event |
| StartSweep.SweepStep | src/app/application/use_cases/start_sweep.py:146-149 | a pass that yields a point appends it, adds its warnings and one progress event, and extends the chain of passes by the pass for the next planned frequency |
| StartSweep.StopEnds | src/app/application/use_cases/start_sweep.py:57-60 | a stop seen before point i ends the run well, with i points measured |
| StartSweep.CompletionEnds | src/app/application/use_cases/start_sweep.py:154-156 | finishing every point ends the run well, with all points measured and at most two acquisitions each |
| StartSweep.SweepLoop | src/app/application/use_cases/start_sweep.py:56-156 | for any pass keeping that bookkeeping: `Started` first and one terminal event last; a failure returns an empty result; a completion returns one point per planned frequency and a stop the points so far, seen before any command of the next point; every returned point `k` is what the pass for `plan[k]` yielded, the passes following one another in the trace |
| StartSweep.Run | src/app/application/use_cases/start_sweep.py:35-163 | invalid settings end with one `VALIDATION` failure before any port call; any other run ends as the sweep loop states, with `RunPoint` as the pass and the passes starting right after the configuration commands, over the frequencies the plan holds |
| StartSweep.ConfigureAndSweep | src/app/application/use_cases/start_sweep.py:51-156 | a configuration command that raises ends the run with one `SWEEP_RUNTIME` failure and no point; otherwise the sweep over the plan ends as the sweep loop states with `RunPoint` as the pass |
| Equips.BlankRunSpec | src/equips.py:194 | the ` *` run is all blanks and cannot be extended |
| Equips.WaitMillis | src/equips.py:194-195 | a recognised delay directive starts with `$WAIT` |
| Equips.WaitShapeMatches | src/equips.py:194-195 | every line of the directive's shape is recognised and waits for the milliseconds its digits spell |
| Equips.WaitMatchShape | src/equips.py:194-195 | every recognised line has the directive's shape |
| Equips.LineAction | src/equips.py:188-201 | a line is skipped iff it is blank once stripped; a query holds `?`; a write holds no `?` and is not a delay |
| Equips.Plan | src/equips.py:184-201 | a batch yields at most one action per line |
| Equips.XWrite | src/equips.py:184-202 | the batch's actions run in order until the transport raises; query replies are collected in order; without a failure every action ran |
| Equips.Perform | src/equips.py:187-201 | planned actions run in order, each one that ran went through, and the replies are those of the queries that ran |
| Equips.PlanAppend | src/equips.py:184-201 | planning two batches one after the other is planning their concatenation |
| Equips.StripInside | src/equips.py:189 | the stripped line is a slice of the original and everything cut is whitespace |
| Equips.StripKeepsVisible | src/equips.py:189 | a visible character is in a line iff it survives `strip` |
| Equips.PlainLine | src/equips.py:189-201 | a line with no `$` is sent stripped, as a query when it holds `?` and as a write otherwise |
| Equips.DecodeAscii | src/equips.py:178 | the ASCII part of `bytes.decode()`: bytes below 128 decode to the characters with those codes, and any other byte is refused |
| Equips.DecodeAsciiOfAscii | src/equips.py:168-178 | encoding an ASCII text and decoding it gives the text back |
| Equips.ReadBytes | src/equips.py:163-166 | `n` bytes are taken from the front of the stream (none when `n` is not positive); a stream shorter than `n` fails |
| Equips.LengthField | src/equips.py:178 | an ASCII length field converts iff it spells an int, to that int; otherwise `ValueError` (non-ASCII fields are refused, see Left out) |
| Equips.ReadBlock | src/equips.py:171-179 | a block starts with `#`; a shorter stream or another first byte is an instrument error; what is read and what remains are the stream's tail |
| Equips.ReadSized | src/equips.py:177-179 | the length digits and payload are taken from the front of the stream |
| Equips.ParseDigits | src/equips.py:178 | `int` of a run of decimal digits is the number they spell |
| Equips.ReadBlockSteps | src/equips.py:171-179 | once the `#`, the digit count and the length digits are read, the block is the next `n` bytes |
| Equips.FrameLayout | src/equips.py:168-169 | the frame opens with `#8` and eight length digits |
| Equips.BlockRoundTrip | src/equips.py:168-179 | reading a framed payload gives it back, and leaves what follows, exactly when the payload is shorter than 10^8 bytes |
| Equips.NormalizeImpStr | src/equips.py:305-317 | `None` stays `None`; the high-impedance spellings become `INF`; any other text is returned stripped |
| Equips.HighZCanonical | src/equips.py:305-317 | `INF` is already normal |
| Equips.NormalizeIdempotent | src/equips.py:305-317 | normalising twice is normalising once |
| Equips.Ch2Chs | src/equips.py:1412-1418 | never empty; one channel gives that channel; a non-empty list is kept; an empty list means both channels; a `None` that survives stays in the list |
| Equips.Ch2ChsIdempotent | src/equips.py:1412-1418 | a channel list `ch2chs` produced is kept as it is |
| Equips.ModeCommands | src/equips.py:1434-1435 | formatting a channel that is `None` with `%d` raises `TypeError`, and nothing else fails |
| Equips.SetMode | src/equips.py:1431-1435 | fails with `TypeError` iff no channel is given and the generator has none; otherwise, for a plain mode word, an apply command and a completion query per channel in turn |
| Equips.ApplyLineVisible | src/equips.py:1435 | an apply command holds no `$` or `?` and needs no stripping |
| Equips.ChannelLines | src/equips.py:1435 | one channel's two lines are sent as they stand, a write and then the completion query |
| Equips.ModeCommandsShape | src/equips.py:1434-1435 | the commands for each listed channel come in order, an apply line and then `*OPC?` |
| Channel.Pick | src/channel.py:109-113 | an argument given wins over the channel's field |
| Channel.ClampedHz | src/channel.py:116-117 | the parsed frequency floored at 1e-12, unchanged above the floor |
| Channel.LogSteps | src/channel.py:121-124 | at least one step, and the rounded count whenever that is at least one |
| Channel.LogPoints | src/channel.py:125-131 | n log-spaced points from the start; a start at the floor generates n + 1 and drops the first |
| Channel.LinearLoop | src/channel.py:140-144 | the loop never ends iff the step is not positive and the start is within the stop; otherwise the points are `start + k·step` while within 1e-6 of the stop, and the next one is past it |
| Channel.GetSweepFreqPoints | src/channel.py:101-146 | arguments fall back to fields; a log sweep is `LogPoints` of the clamped edges with `LogSteps` points; a clamped linear start is replaced by the step; equal start and stop give one point; otherwise the linear loop: every `first + k·step` within the slack of the stop, and the next one past it, or no end |
| Channel.SetFreqCall | src/channel.py:80-89 | a zero frequency sends nothing; any other is sent as given to the channel |
| Channel.SetAmpCall | src/channel.py:150-160 | a text without a number, or one `float` rejects, raises `ValueError`; an amplitude of zero sends nothing; any other is sent as the parsed peak-to-peak volts |
| Channel.SetAmpOfVpp | src/channel.py:150-160 | a whole number of volts written as `<n>Vpp` reaches the driver as that amplitude |
| Channel.WaveformPoints | src/channel.py:524-540 | a point count is asked for iff the parsed text is positive, and is then within one half of it; otherwise the instrument's default |
| Channel.WaveformPointsOfCount | src/channel.py:524-540 | a positive count written as an integer is asked for as it is |
| Channel.EdgesOf | src/channel.py:296-303 | the edges have the given centre and span, in the requested orientation |
| Channel.Read | src/channel.py:214-216 | the display factor of the unit is positive |
| Channel.StartStopEdit | src/channel.py:212-264 | the centre field shows the mean of start and stop and the span field their distance, in the field's unit rounded to two places |
| Channel.CentreBetween | src/channel.py:212-237 | the shown centre lies between the shown start and stop |
| Channel.CappedSpan | src/channel.py:276-279 | a centre edit keeps a span of at most twice the centre |
| Channel.LiftedCentre | src/channel.py:322-325 | a span edit keeps a centre of at least half the span |
| Channel.ShownEdges | src/channel.py:284-291 | start and stop are shown rounded, keeping the orientation of the current pair |
| Channel.CentreEdit | src/channel.py:266-310 | a zero centre blanks start and stop; a span above twice the centre is cut to it and written back; start and stop are the centre ∓ half the kept span, in their old orientation |
| Channel.SpanEdit | src/channel.py:312-354 | a zero centre blanks start and stop; a centre below half the span is raised to it and written back; start and stop are the kept centre ∓ half the span |
| Channel.EdgesKeepCentreSpan | src/channel.py:284-291 | before rounding, the edges of a centre/span pair have exactly that centre and the span's magnitude |
| Channel.StartStopRoundTrip | src/channel.py:212-354 | for non-negative start and stop, the centre and span computed from them lead the centre and span handlers back to the same start and stop, with nothing capped or lifted |
| Channel.EdgeEditsStayNonNegative | src/channel.py:266-354 | after a centre edit with a positive centre, or a span edit with a non-negative span, no shown edge is negative and the orientation is kept |
| Channel.EdgeBounds | src/channel.py:284-291 | the shown edges of a pair whose lower edge is non-negative are non-negative and ordered as the pair is |
| Channel.UnitChange | src/channel.py:383-396 | start, stop, step, centre and span are shown in the new unit, rounded to two places |
| Channel.OnUnitChange | src/channel.py:356-422 | the new unit is remembered for the next change |
| Channel.OnImpChange | src/channel.py:450-453 | after an impedance change 50 Ω with AC never remains; the coupling falls back to DC, and nothing changes without a conflict |
| Channel.OnCouplingChange | src/channel.py:455-458 | after a coupling change 50 Ω with AC never remains; the impedance falls back to high-Z, and nothing changes without a conflict |
| Channel.GuardsSettle | src/channel.py:450-458 | each guard's own write leaves the other guard nothing to do, and either guard twice is the guard once |
| Channel.SetY | src/channel.py:484-495 | the range is sent per division, one eighth of the parsed full scale, with the parsed offset |
| Channel.GetY | src/channel.py:497-505 | the full scale read back is eight divisions |
| Channel.VerticalRoundTrip | src/channel.py:484-505 | on an instrument that stores what it is sent, reading back gives the parsed range and offset |
| Channel.SetX | src/channel.py:473-482 | the window is sent per division (a tenth), falling back to the channel's own; with neither window Python raises `TypeError` |
| Channel.CopyFrom | src/channel.py:20-25 | any channel's occupancy is copied and a non-channel raises `TypeError`; an oscilloscope channel also takes the other's oscilloscope settings and raises when the other is not one |
| Channel.CopyIdempotent | src/channel.py:460-471 | copying the same source again changes nothing |
| DeviceMng.Lookup | src/deviceMng.py:79-83 | a tag is found iff it is a key of the channel dictionary, and then gives the channel stored under it |
| DeviceMng.CreateDevices | src/deviceMng.py:121-126 | growing appends devices numbered after the current length and keeps the existing ones; shrinking keeps the first `n`; a negative `n` empties the list and raises `IndexError` |
| DeviceMng.FindDevice | src/deviceMng.py:128-132 | the first device with the index, or `None` iff no device has it |
| DeviceMng.CreateDevicesFinds | src/deviceMng.py:121-132 | resizing keeps the list numbered, so index `i` finds the `i`-th device for every `i` from 1 to `n`, and no other index finds anything |
| DeviceMng.AddMissing | src/deviceMng.py:62-64 | existing entries are kept in place; afterwards the keys are the old keys plus every tag in range; each added entry is a fresh channel; keys stay unique |
| DeviceMng.CreateChan | src/deviceMng.py:59-69 | only the channel dictionary changes; a device of another type is untouched; for a generator or oscilloscope every tag from 1 to the channel count is present and existing entries are kept |
| DeviceMng.CreateChanIdempotent | src/deviceMng.py:59-69 | a second `create_chan` adds nothing |
| DeviceMng.NothingMissing | src/deviceMng.py:62-69 | when every tag is present nothing is added |
| DeviceMng.FindChannel | src/deviceMng.py:71-83 | by index, the first channel with that index, and `ValueError` iff there is none; otherwise by tag, the entry, and `KeyError` iff it is missing; with neither, `None` |
| DeviceMng.FirstWithIndex | src/deviceMng.py:74-76 | the first channel in insertion order with the index, or none iff no channel has it |
| DeviceMng.CreateChanIndexed | src/deviceMng.py:62-69 | `create_chan` keeps every channel's index equal to its tag |
| DeviceMng.IndexLookupIsTagLookup | src/deviceMng.py:71-83 | with unique tags that equal the indices, looking up by index and by tag agree |
| DeviceMng.CreatedChannelsFound | src/deviceMng.py:59-83 | channels fresh from `create_chan` are found by their tag both as index and as key, and the two lookups agree |
| DeviceMng.RStripNewlines | src/deviceMng.py:90-93 | `rstrip('\n')` removes exactly the trailing newlines |
| DeviceMng.Propagate | src/deviceMng.py:55-57 | every channel gets the address and instrument and nothing else changes |
| DeviceMng.Rebind | src/deviceMng.py:112-115 | a model missing from the catalog raises `KeyError` with nothing rebuilt; otherwise the instrument is built for the model and address and every channel is handed both |
| DeviceMng.TrackDeviceName | src/deviceMng.py:48-57 | a known model sets the channel limit to its channel count and rebinds every channel; an unknown model raises `KeyError` and changes nothing |
| DeviceMng.TraceVisaAddress | src/deviceMng.py:85-115 | LAN mode with all four octets typed gives `TCPIP0::a.b.c.d::INSTR`; Auto mode with an address gives it without spaces; otherwise the address is kept; the instrument is rebuilt either way |
| DeviceMng.TraceIdempotent | src/deviceMng.py:85-115 | rebuilding the address from unchanged fields changes nothing more |
| DeviceMng.LanAddressRecoverable | src/deviceMng.py:89-109 | the LAN address starts with `TCPIP0::`, ends with `::INSTR`, and holds the dotted octets between them |
| UiConfig.FreqUnitOf | src/ui.py:187-202 | blanks are dropped and case ignored; the unit is GHz iff the text has a `g`, MHz iff it has an `m` but no `g`, KHz iff it has a `k` but neither `g` nor `m`, and Hz otherwise |
| UiConfig.FreqUnitIdempotent | src/ui.py:187-202 | every unit label the backfill writes is read back as the same unit |
| UiConfig.TrigModeOf | src/ui.py:258-269 | the mode is triggered exactly when the text, without blanks and lower-cased, is `triggered`; every other text, `free run` included, gives free run |
| UiConfig.TrigModeIdempotent | src/ui.py:258-269 | a trigger-mode label normalises to itself |
| UiConfig.Letters | src/ui.py:305 | keeps only letters, keeps every letter of the input, and leaves an all-letter text unchanged |
| UiConfig.ConnectModeOf | src/ui.py:302-312 | the mode is LAN exactly when the letters of the text, lower-cased, spell `lan`; everything else, `auto` included, gives Auto |
| UiConfig.ConnectModeIdempotent | src/ui.py:302-312 | a connection-mode label normalises to itself |
| UiConfig.Groups | src/ui.py:322 | a successful match of `\d{1,3}` groups yields the requested number of groups, each one to three digits |
| UiConfig.AfterGroup | src/ui.py:322 | the optional dot between groups: a match again yields that many one-to-three-digit groups |
| UiConfig.Search | src/ui.py:322 | `re.search` of the four-group address pattern returns four groups of one to three digits |
| UiConfig.SearchIsLeftmost | src/ui.py:322 | the search fails iff the pattern matches at no position, and otherwise returns the match at the leftmost position where it matches |
| UiConfig.GroupFirst | src/ui.py:322 | a digit group followed by a non-digit is matched whole, whichever longer length the matcher tries first |
| UiConfig.IpOctets | src/ui.py:318-332 | the octet fields are the four groups of the first match in the text without blanks, or `0` four times when nothing matches; every field is one to three digits |
| UiConfig.DottedRoundTrip | src/ui.py:322 | the search reads a dotted address `a.b.c.d` back as exactly its four octets |
| UiConfig.ConfiguredOctets | src/ui.py:318-332 | a configured address `a.b.c.d` fills the octet fields with `a`, `b`, `c` and `d` |
| UiConfig.OctetsSpellAddress | src/ui.py:318-332 | octet fields filled from a configured `a.b.c.d` count as typed and spell `a.b.c.d` again |
| UiConfig.ConfiguredAddressReachesDevice | src/ui.py:302-332 | a LAN-mode device whose address was configured as `a.b.c.d` opens `TCPIP0::a.b.c.d::INSTR` |
| UiConfig.ExportColumns | src/ui.py:1900-1977 | the exported columns are the frequency, then the corrected dB gain iff calibration is on (raw otherwise), then, only in dual-channel or triggered mode, the corrected phase iff calibration is on (raw otherwise) |
| UiConfig.ExportHeader | src/ui.py:1921-1977 | one header name per column: the result key, except that the `.csv` names the frequency `freq(Hz)` |
| UiConfig.ExportColumnsDistinct | src/ui.py:1900-1977 | the header names are pairwise distinct, and a column is a corrected one exactly when calibration is on and it is not the frequency |
| LegacyTest.CalSamplingTime | src/test.py:669-678 | a zero sample rate and only that raises `ZeroDivisionError`; otherwise the window is one of the sample-count window, ten periods, 1 µs or the ten-million-sample cap, never above the cap, and at least the sample-count window unless capped |
| LegacyTest.LegacyWindowMatchesEngine | src/test.py:669-678 | for a rate of at least one sample per second the legacy window equals the sweep engine's sampling window |
| LegacyTest.RetryOnce | src/test.py:178-194 | a matching readback clears the retry flag and reports an adjustment; the first mismatch sets the flag and reports one; a repeated mismatch reports none and warns iff the warning has not been shown, after which it has been |
| LegacyTest.Adjust | src/test.py:174-194 | the request is sent, the readback of the adjusted quantity is kept in the field, only this knob's flags change, and a warning is appended exactly on a repeated mismatch not yet warned about |
| LegacyTest.RecentreStep | src/test.py:171-194 | only a found, off-centre waveform on a DC-coupled channel is recentred, to its midpoint; warnings stay once-only |
| LegacyTest.LocateStep | src/test.py:196-220 | only a waveform found nowhere on screen is handled, by asking for three times the range; warnings stay once-only |
| LegacyTest.ResolveStep | src/test.py:222-244 | only a span outside 60–80% of the range is handled, by asking for the span over 0.7; warnings stay once-only |
| LegacyTest.RangeModifier | src/test.py:134-246 | disabled or given an empty record it does nothing; a zero current range and only that raises `ZeroDivisionError`; at most three requests are sent; it reports an adjustment iff some request was sent and the last one matched its readback or was its knob's first try, every earlier request having been a repeated mismatch |
| LegacyTest.Modify | src/test.py:144-246 | the three steps stop at the first that adjusts: whether the call adjusted is decided by its last request, earlier requests were repeated mismatches, and knobs are used in order, each at most once |
| LegacyTest.DecidedStep | src/test.py:144-246 | a step for a later knob, taken because nothing adjusted yet, keeps the adjustment decided by the last request |
| LegacyTest.RecentreRequest | src/test.py:144-194 | the first request is a recentre to the midpoint exactly for a found, off-centre, DC-coupled waveform, and no recentre is sent otherwise |
| LegacyTest.LocateRequest | src/test.py:165-220 | a waveform found nowhere on screen gets three times the current range as its first request |
| LegacyTest.ResolveRequest | src/test.py:153-244 | a resolution request is sent only for a span outside 60–80% of the range, and asks for the span over 0.7 |
| LegacyTest.CountAppend | src/test.py:189-195 | counting warnings distributes over concatenation |
| LegacyTest.AdjustWarnsOnce | src/test.py:174-194 | one adjustment warns only for a knob whose warning was not yet shown, and marks it shown |
| LegacyTest.RangeModifierWarnings | src/test.py:134-246 | within one call a knob warns only when its warning has not been shown, afterwards it has been, and nothing clears a shown warning |
| LegacyTest.WarnsAtMostOnce | src/test.py:134-246 | over any sequence of calls each of the three warnings is shown at most once, and never if it was already shown before |
| LegacyTest.SweepLoop | src/test.py:347-638 | an empty point list raises `IndexError`; otherwise each recorded point `k` is the frequency the generator reported for `points[k]` at an earlier pass than point `k + 1`, with the value measured there; the queue holds the recorded frequencies in order and ends with `None` unless an instrument exception ended the loop, which was raised at the last pass; the loop stopped on the stop event only if it was set at that pass; with ideal instruments and enough fuel every point is recorded as requested |
| LegacyTest.IdealRecords | src/test.py:347-638 | with instruments that report the frequency they were set to, every recorded frequency is its point's own |
| LegacyTest.Broadcast | src/test.py:767-775 | two arrays combine entrywise iff their lengths are equal or one of them is one, with the longer length |
| LegacyTest.ComplexCorrection | src/test.py:765-771 | complex gains are divided by the reference entry by entry; the corrected gain is the magnitude of the quotient and, like its dB and phase, is absent exactly where the reference is zero; dB and degrees are those of the quotient rounded to six places; the raw arrays are untouched; mismatched lengths fail |
| LegacyTest.MagnitudeCorrection | src/test.py:772-776 | the corrected gain is the raw gain over the reference magnitude floored at 1e-12, rounded to six places; its dB is that of the gain floored at 1e-12; the corrected phase is unchanged |
| LegacyTest.GainCorrection | src/test.py:755-776 | without calibration or without a reference the corrected arrays are the raw ones; the raw arrays are never changed; magnitude correction fails only on mismatched lengths |
| LegacyTest.CorrectionOrder | src/test.py:772-776 | dividing by a positive reference and rounding to six places keeps sign and order |
| LegacyTest.UnitReferenceKeepsGain | src/test.py:765-769 | a reference of exactly one leaves the corrected gain equal to the raw gain's magnitude |
| LegacyTest.MagnitudeCorrectionOrder | src/test.py:772-776 | against a common reference, magnitude correction keeps a non-negative gain non-negative and keeps the order of raw gains |

## Left out

- Instrument transport: pyvisa sessions, the SCPI drivers other than `x_write` and the helpers modelled beside it (block framing, `normalize_imp_str`, `ch2chs`, `set_mode`), the AWG/OSC adapters and the resource scanner: the ports are oracles.
- FFT, Hann window, `logspace`, `log10`, `ln`, `exp`, `angle`, square roots and spline fitting: parameters of the model, so numerical accuracy is not stated.
- Concurrency: the controller's worker thread and queue polling, the connection monitor, the stop event (an oracle here) and the legacy background threads.
- `time.sleep` and the instrument settle delays, including the `$WAIT=n$` lines of `x_write`: the model plans a delay action with its length and does not wait.
- Widgets, plots, dialogs and every `messagebox` call: a legacy warning is recorded as an entry in a warning list.
- File I/O: `.mat`, `.csv`, `.txt` and `.png` writers, the reference file reader, `configMgr` and JSON text encoding; the settings repository works on a JSON value datatype and the file is an input.
- Timestamps from `datetime.now` in result metadata and file names.
- `str` on a float, used to write numbers back into Tk fields: a parameter of the model, so statements about the fields it fills are made in terms of it.
- Python's `float(text)` is modelled for a stripped integer spelling (underscores allowed) and for a decimal literal: sign, digits with an optional fraction, optional exponent. `inf`, `nan`, a dot with no digits after it (`1.`, `1.e5`), underscores in a fraction and Unicode digits are not modelled and raise `ValueError` here.
- Equips.DecodeAscii: `bytes.decode()` is UTF-8, but the model decodes ASCII only and refuses every byte of 128 or more. So Equips.LengthField raises `ValueError` on a length field holding non-ASCII UTF-8, such as `b"\xc2\xa012"` (a no-break space, which `int` strips), where the source reads 12.
- Python's `\d`, `isalpha`, `lower` and `isdigit` are modelled for ASCII only; Unicode digits and letters outside ASCII, apart from `µ` and `μ`, are not.
- `calc_vin_peak` of `src/test.py:248-265` is the same computation as `SignalProcessing.CalcVinPeak` (the 50 Ω label is the string `50`) and is not modelled separately.
- `_parabolic_interp_delta` and `_complex_tone_at` of `src/cvtTools.py` repeat the computations of `SignalProcessing` and are not modelled separately.
- `check_user_input` and `initialize_devices` of `src/test.py`: instrument programming with warnings; the sweep loop takes their effect as its starting state.
- The amplitude-limit warnings of the legacy sweep loop: they only show a message and copy the readback into the panel field.
- `errors.py`, `configMgr.py`, the UI window, the controller, and `mapping.py` beyond the constants the model uses.
- The `channel.py` calls `get_freq`, `get_amp`, `rst`, `set_is_occupied` and `set_is_free`: they forward to the driver or set the occupancy flag. The argument handling of `set_freq`, `set_amp` and `read_raw_waveform` is modelled; the driver calls themselves are oracles.
- Tk trace cascades: the model applies one handler at a time; the handlers a variable change would trigger in turn are applied by the caller.
- LegacyTest.SweepLoop: runs for at most `fuel` passes, because the source repeats a point for as long as auto-ranging keeps reporting adjustments and need not terminate; the result says whether fuel ran out.
- LegacyTest.SweepLoop: an exception escaping the loop is the `Raised` end of an `Ok` result rather than an error result, so that the points recorded and queued before it can be stated; as in the source, no `None` is queued then.
- Calibration.ApplyReferenceToPoint: the non-finite quotient numpy gives for a gain rebuilt from phase over a zero reference is an uninterpreted field of `Numerics` (`zeroQuotient`); which inf/nan values it holds is not stated.
- SignalProcessing.ToneMetrics: a zero sample spacing is an error here, whereas `np.fft.rfftfreq` gives infinite bin frequencies and the measurement goes on with non-finite values that reals cannot hold.
- LegacyTest.MagnitudeCorrection: states the six-place rounding as a bound of 5e-7 on the error rather than the exact half-even result of `np.round`.
- Channel.LinearLoop: the linear loop of `src/channel.py:141-145` does not terminate for a step of zero or less; the model returns a `Hangs` outcome there instead of looping.
- Equips.BlockRoundTrip: holds only for payloads below 10^8 bytes, because the eight-digit length header of `write_block` overflows beyond that.
- DeviceMng.TraceVisaAddress: an octet of blanks counts as typed, as in the source, and then contributes an empty octet to the address.
- Mapper.SafeInt: the text is turned into an integer through the modelled `parse_general_val`; Python's `int(float)` failing on infinity or NaN cannot occur over reals.
- StartSweep.Run: the event sink is a list the method returns; the shared queue, callbacks and aliasing of the event objects are not modelled.
