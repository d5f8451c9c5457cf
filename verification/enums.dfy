/** The string-valued enumerations of the settings model. Each member has
    the string value the settings file and the view model carry, and
    constructing a member from any other string fails, as Python's
    `Enum(value)` raises `ValueError`. */
module Enums {
  import opened Wrappers

  datatype CorrectionMode = NoCorrection | Single | Dual {
    function Value(): string {
      match this
      case NoCorrection => "none"
      case Single => "single"
      case Dual => "dual"
    }
  }

  /** `CorrectionMode(s)`. */
  function CorrectionModeOf(s: string): (r: Result<CorrectionMode>)
    ensures r.Ok? <==> s in {"none", "single", "dual"}
    ensures r.Ok? ==> r.value.Value() == s
  {
    if s == "none" then Ok(NoCorrection)
    else if s == "single" then Ok(Single)
    else if s == "dual" then Ok(Dual)
    else Raise(ValueError, "not a valid CorrectionMode")
  }

  datatype TriggerMode = FreeRun | Triggered {
    function Value(): string {
      match this
      case FreeRun => "free_run"
      case Triggered => "triggered"
    }
  }

  function TriggerModeOf(s: string): (r: Result<TriggerMode>)
    ensures r.Ok? <==> s in {"free_run", "triggered"}
    ensures r.Ok? ==> r.value.Value() == s
  {
    if s == "free_run" then Ok(FreeRun)
    else if s == "triggered" then Ok(Triggered)
    else Raise(ValueError, "not a valid TriggerMode")
  }

  datatype ConnectionMode = Auto | Lan {
    function Value(): string {
      match this
      case Auto => "auto"
      case Lan => "lan"
    }
  }

  function ConnectionModeOf(s: string): (r: Result<ConnectionMode>)
    ensures r.Ok? <==> s in {"auto", "lan"}
    ensures r.Ok? ==> r.value.Value() == s
  {
    if s == "auto" then Ok(Auto)
    else if s == "lan" then Ok(Lan)
    else Raise(ValueError, "not a valid ConnectionMode")
  }

  datatype ImpedanceMode = R50 | HighZ {
    function Value(): string {
      match this
      case R50 => "50"
      case HighZ => "INF"
    }
  }

  function ImpedanceModeOf(s: string): (r: Result<ImpedanceMode>)
    ensures r.Ok? <==> s in {"50", "INF"}
    ensures r.Ok? ==> r.value.Value() == s
  {
    if s == "50" then Ok(R50)
    else if s == "INF" then Ok(HighZ)
    else Raise(ValueError, "not a valid ImpedanceMode")
  }

  datatype CouplingMode = AC | DC {
    function Value(): string {
      match this
      case AC => "AC"
      case DC => "DC"
    }
  }

  function CouplingModeOf(s: string): (r: Result<CouplingMode>)
    ensures r.Ok? <==> s in {"AC", "DC"}
    ensures r.Ok? ==> r.value.Value() == s
  {
    if s == "AC" then Ok(AC)
    else if s == "DC" then Ok(DC)
    else Raise(ValueError, "not a valid CouplingMode")
  }

  datatype MagnitudePhaseMode = Mag | Phase | MagAndPhase {
    function Value(): string {
      match this
      case Mag => "magnitude"
      case Phase => "phase"
      case MagAndPhase => "magnitude_phase"
    }
  }

  function MagnitudePhaseModeOf(s: string): (r: Result<MagnitudePhaseMode>)
    ensures r.Ok? <==> s in {"magnitude", "phase", "magnitude_phase"}
    ensures r.Ok? ==> r.value.Value() == s
  {
    if s == "magnitude" then Ok(Mag)
    else if s == "phase" then Ok(Phase)
    else if s == "magnitude_phase" then Ok(MagAndPhase)
    else Raise(ValueError, "not a valid MagnitudePhaseMode")
  }

  /** Every member is recovered from its own value. */
  lemma EnumValuesRoundTrip(c: CorrectionMode, t: TriggerMode, n: ConnectionMode,
                            i: ImpedanceMode, k: CouplingMode, m: MagnitudePhaseMode)
    ensures CorrectionModeOf(c.Value()) == Ok(c)
    ensures TriggerModeOf(t.Value()) == Ok(t)
    ensures ConnectionModeOf(n.Value()) == Ok(n)
    ensures ImpedanceModeOf(i.Value()) == Ok(i)
    ensures CouplingModeOf(k.Value()) == Ok(k)
    ensures MagnitudePhaseModeOf(m.Value()) == Ok(m)
  {
  }
}
