/** Export helpers: the named arrays a sweep result is saved as, and the
    settings metadata stored next to them. */
module Exporters {
  import opened Wrappers
  import opened Numerics
  import opened Models
  import opened PyJson
  import opened SettingsDict

  /** The real and imaginary parts of a sequence of complex values. */
  function Reals(zs: seq<Complex>): (a: seq<real>)
    ensures |a| == |zs| && forall i :: 0 <= i < |zs| ==> a[i] == zs[i].re
  {
    seq(|zs|, (i: int) requires 0 <= i < |zs| => zs[i].re)
  }

  function Imags(zs: seq<Complex>): (a: seq<real>)
    ensures |a| == |zs| && forall i :: 0 <= i < |zs| ==> a[i] == zs[i].im
  {
    seq(|zs|, (i: int) requires 0 <= i < |zs| => zs[i].im)
  }

  /** `result_to_arrays`: frequency, linear gain and gain in dB always; the
      phase array only when some point has a phase; the complex gain as
      real and imaginary arrays only when some point has one. */
  function ResultToArrays(r: SweepResult): (arrays: map<string, seq<real>>)
    ensures "freq_hz" in arrays && "gain_linear" in arrays && "gain_db" in arrays
    ensures "phase_deg" in arrays <==> PhaseArray(r) != []
    ensures "gain_complex_real" in arrays <==> ComplexArray(r) != []
    ensures "gain_complex_imag" in arrays <==> ComplexArray(r) != []
    ensures arrays.Keys <= {"freq_hz", "gain_linear", "gain_db", "phase_deg", "gain_complex_real", "gain_complex_imag"}
  {
    var base := map["freq_hz" := FreqArray(r), "gain_linear" := GainArray(r), "gain_db" := GainDbArray(r)];
    var phase := PhaseArray(r);
    var zs := ComplexArray(r);
    var withPhase := if phase != [] then base["phase_deg" := phase] else base;
    if zs != [] then withPhase["gain_complex_real" := Reals(zs)]["gain_complex_imag" := Imags(zs)]
    else withPhase
  }

  /** The exported arrays hold what the result holds: one entry per point
      in the three base arrays; exactly the present phases, in point order;
      and real and imaginary parts of equal length that pair up into the
      present complex gains. */
  lemma ResultToArraysContents(r: SweepResult)
    ensures var a := ResultToArrays(r);
      && |a["freq_hz"]| == |r.points| && |a["gain_linear"]| == |r.points| && |a["gain_db"]| == |r.points|
      && (forall i :: 0 <= i < |r.points| ==>
            a["freq_hz"][i] == r.points[i].freqHz && a["gain_linear"][i] == r.points[i].gainLinear
            && a["gain_db"][i] == r.points[i].gainDb)
      && ("phase_deg" in a ==> a["phase_deg"] == PhaseArray(r))
      && ("phase_deg" in a <==> exists i :: 0 <= i < |r.points| && r.points[i].phaseDeg.Some?)
      && ("gain_complex_real" in a ==>
            && |a["gain_complex_real"]| == |a["gain_complex_imag"]| == |ComplexArray(r)|
            && forall j :: 0 <= j < |ComplexArray(r)| ==>
                 Complex(a["gain_complex_real"][j], a["gain_complex_imag"][j]) == ComplexArray(r)[j])
      && ("gain_complex_real" in a <==> exists i :: 0 <= i < |r.points| && r.points[i].gainComplex.Some?)
  {
    PhaseArrayMembers(r);
    ComplexArrayMembers(r);
  }

  /** `settings_to_metadata`: the `asdict` members except `auto_save_data`,
      which is the last field. */
  function SettingsToMetadata(s: AppSettings): Json {
    JObj(SettingsMembers(s, false)[..6])
  }

  /** The metadata holds every field of `asdict(settings)` with the same
      value, enum members included, and nothing under `auto_save_data`. */
  lemma MetadataFields(s: AppSettings, key: string)
    ensures key != "auto_save_data" ==> Lookup(SettingsToMetadata(s).members, key) == Lookup(AsDict(s).members, key)
    ensures Lookup(SettingsToMetadata(s).members, "auto_save_data").None?
    ensures Lookup(AsDict(s).members, "auto_save_data") == Some(JBool(s.autoSaveData))
  {
    var ms := SettingsMembers(s, false);
    var last := "auto_save_data";
    assert ms[6] == Member(last, JBool(s.autoSaveData));
    forall i | 0 <= i < 6 ensures ms[..6][i].key != last {
      if |ms[i].key| == |last| {
        assert ms[i].key[0] != last[0];
      }
    }
    if key != last {
      LookupSkipLast(ms, key);
    }
  }

  /** A key the last member does not hold is looked up in the others. */
  lemma LookupSkipLast(ms: seq<Member>, key: string)
    requires ms != [] && ms[|ms| - 1].key != key
    ensures Lookup(ms, key) == Lookup(ms[..|ms| - 1], key)
  {
  }
}
