/** Focus-out normalisers of the input fields (src/traceVal.py). Each one
    maps the field's text to the text it writes back; a normaliser that
    leaves the field alone returns its input. */
module TraceVal {
  import opened Text
  import opened Wrappers
  import opened PyNumbers
  import opened CvtTools

  /** The canonical spelling of an SI prefix letter, if it is one. */
  function PrefixLabel(c: char): (l: Option<string>)
    ensures l.Some? ==> |l.value| == 1 && IsUnitChar(l.value[0])
  {
    if c == 'G' || c == 'g' then Some("G")
    else if c == 'M' then Some("M")
    else if c == 'k' || c == 'K' then Some("k")
    else if c == 'm' then Some("m")
    else if c == 'u' || c == Micro || c == GreekMu then Some([Micro])
    else if c == 'n' || c == 'N' then Some("N")
    else if c == 'p' || c == 'P' then Some("P")
    else None
  }

  /** The prefix suffix of a unit run: that of its first letter, or "". */
  function LeadLabel(unit: string): (l: string)
    ensures |l| <= 1 && NoSpace(l)
    ensures forall j :: 0 <= j < |l| ==> IsUnitChar(l[j]) && l[j] != 'e' && l[j] != 'E'
  {
    if unit == [] then "" else PrefixLabel(unit[0]).GetOr("")
  }

  /** The unit a frequency field ends with: a known prefix plus "Hz", bare
      "Hz" for an `h`, and nothing for any other letter. */
  function FreqSuffix(c: char): (u: string)
    ensures forall j :: 0 <= j < |u| ==> IsUnitChar(u[j])
  {
    if PrefixLabel(c).Some? then PrefixLabel(c).value + "Hz"
    else if c == 'h' || c == 'H' then "Hz"
    else ""
  }

  /** `freq_out_focus`: unchanged when no unit letter follows the number,
      otherwise "<number> <prefix>Hz". */
  function FreqOutFocus(text: string): (r: string)
    ensures UnitWord(RemoveSpaces(text)) == [] ==> r == text
    ensures UnitWord(RemoveSpaces(text)) != [] ==>
      r == NumberText(RemoveSpaces(text)) + " " + FreqSuffix(UnitWord(RemoveSpaces(text))[0])
  {
    var s := RemoveSpaces(text);
    var unit := UnitWord(s);
    if unit == [] then text else NumberText(s) + " " + FreqSuffix(unit[0])
  }

  /** `volts_out_focus`: always "<number> <prefix>V". */
  function VoltsOutFocus(text: string): (r: string)
    ensures var s := RemoveSpaces(text); r == NumberText(s) + " " + (LeadLabel(UnitWord(s)) + "V")
  {
    var s := RemoveSpaces(text);
    NumberText(s) + " " + (LeadLabel(UnitWord(s)) + "V")
  }

  /** The amplitude kind written by `vpp_out_focus`, by ordered
      case-insensitive substring tests. */
  function VppKindLabel(unit: string): (k: string)
    ensures k in {"Vpp", "Vpk", "Vrms", ""}
  {
    var low := Lower(unit);
    if Contains(low, "vpp") then "Vpp"
    else if Contains(low, "vpk") then "Vpk"
    else if Contains(low, "vrms") || Contains(low, "vr") then "Vrms"
    else if Contains(low, "v") then "Vpp"
    else ""
  }

  /** `vpp_out_focus`: "<number> <prefix><kind>". */
  function VppOutFocus(text: string): (r: string)
    ensures var s := RemoveSpaces(text);
      r == NumberText(s) + " " + (LeadLabel(UnitWord(s)) + VppKindLabel(UnitWord(s)))
  {
    var s := RemoveSpaces(text);
    var unit := UnitWord(s);
    NumberText(s) + " " + (LeadLabel(unit) + VppKindLabel(unit))
  }

  /** `general_out_focus`: "<number> <prefix>". */
  function GeneralOutFocus(text: string): (r: string)
    ensures var s := RemoveSpaces(text); r == NumberText(s) + " " + LeadLabel(UnitWord(s))
  {
    var s := RemoveSpaces(text);
    NumberText(s) + " " + LeadLabel(UnitWord(s))
  }

  /** `force_positive_out_focus`: the text survives iff its leading number
      parses and is positive. */
  function ForcePositiveOutFocus(text: string): (r: string)
    ensures r == text || r == ""
    ensures r == text <==> text == [] || (NumberValue(RemoveSpaces(text)).Some? && NumberValue(RemoveSpaces(text)).value > 0.0)
  {
    match NumberValue(RemoveSpaces(text))
    case Some(v) => if v > 0.0 then text else ""
    case None => ""
  }

  /** `force_int_out_focus`. Without a unit the number is truncated to an
      int; with one it is truncated in base units and scaled back, and the
      float is rendered by `formatFloat` (Python's `str` of a float). A
      number `float` rejects clears the field. */
  function ForceIntOutFocus(text: string, formatFloat: real -> string): (r: string)
    ensures NumberValue(RemoveSpaces(text)).None? ==> r == ""
    ensures NumberValue(RemoveSpaces(text)).Some? && UnitWord(RemoveSpaces(text)) == [] ==>
      ParsePyInt(r) == Some(Trunc(NumberValue(RemoveSpaces(text)).value))
  {
    var s := RemoveSpaces(text);
    var unit := UnitWord(s);
    match NumberValue(s)
    case None => ""
    case Some(v) =>
      if unit == [] then
        ParsePyIntRoundTrip(Trunc(v));
        IntToString(Trunc(v))
      else
        var k := ConvertGeneralUnit(Some(unit));
        formatFloat(Trunc(Times(v, k)) as real / k) + " " + unit
  }

  /** `ip_out_focus`: the octet text survives iff `int()` accepts it and the
      value lies in 0..255. */
  function IpOutFocus(text: string): (r: string)
    ensures r == text || r == ""
    ensures text != [] ==> (r == text <==> ParsePyInt(text).Some? && 0 <= ParsePyInt(text).value <= 255)
  {
    match ParsePyInt(text)
    case Some(v) => if 0 <= v <= 255 then text else ""
    case None => ""
  }

  // ---------------------------------------------------------------------
  // Partner properties.

  /** Rendering an octet and normalising it keeps exactly the octets 0..255. */
  lemma IpOutFocusOfRendered(i: int)
    ensures IpOutFocus(IntToString(i)) == (if 0 <= i <= 255 then IntToString(i) else "")
  {
    ParsePyIntRoundTrip(i);
  }

  /** Clearing or keeping is stable: a second focus-out changes nothing. */
  lemma ForcePositiveIdempotent(text: string)
    ensures ForcePositiveOutFocus(ForcePositiveOutFocus(text)) == ForcePositiveOutFocus(text)
  {
    if ForcePositiveOutFocus(text) == [] {
      assert RemoveSpaces([]) == [];
      assert ScanNumber([]) == Scan(0, 0, 0, 0);
    }
  }

  /** The amplitude kind shown by `vpp_out_focus` is "Vpk" exactly when
      `parse_to_Vpp` doubles the value, and "Vpp" whenever it keeps it for
      a unit naming "vpp"; a unit with "vrms" reads √8 and shows "Vrms". */
  lemma VppKindAgreesWithParse(unit: string)
    requires unit != []
    ensures VppKindLabel(unit) == "Vpk" <==> VppKindScale(unit) == 2.0
    ensures Contains(Lower(unit), "vpp") ==> VppKindLabel(unit) == "Vpp" && VppKindScale(unit) == 1.0
    ensures VppKindScale(unit) == Sqrt8 ==> VppKindLabel(unit) == "Vrms"
  {
  }

  /** `u` continues `s` up to index `k`, after which it may differ. */
  predicate AgreeBelow(s: string, u: string, k: nat) {
    k <= |s| && k <= |u| && forall j :: 0 <= j < k ==> u[j] == s[j]
  }

  /** A digit run of `s` that ends before `k`, or at `k` where `u` stops
      being a digit, is also a digit run of `u`. */
  lemma {:induction false} DigitRunAgrees(s: string, u: string, k: nat, i: nat)
    requires AgreeBelow(s, u, k) && i <= k
    requires i + DigitRun(s, i) <= k
    requires i + DigitRun(s, i) == k ==> k == |u| || !IsDigit(u[k])
    ensures DigitRun(u, i) == DigitRun(s, i)
    decreases |s| - i
  {
    if i < |s| && IsDigit(s[i]) {
      assert u[i] == s[i];
      DigitRunAgrees(s, u, k, i + 1);
    } else if i < k {
      assert u[i] == s[i];
    }
  }

  /** Scanning is unaffected by what follows the number text, as long as
      that cannot extend it. */
  lemma ScanStable(s: string, rest: string)
    requires rest == [] || (EndsNumber(rest[0]) && rest[0] != '+' && rest[0] != '-')
    ensures ScanNumber(NumberText(s) + rest) == ScanNumber(s)
  {
    var k := ScanNumber(s).End();
    PrefixThenRest(s, k, rest);
    ScanAgrees(s, NumberText(s) + rest, k);
  }

  /** `s[..k] + rest` agrees with `s` below `k` and holds `rest` from `k` on. */
  lemma PrefixThenRest(s: string, k: nat, rest: string)
    requires k <= |s|
    requires rest == [] || (EndsNumber(rest[0]) && rest[0] != '+' && rest[0] != '-')
    ensures AgreeBelow(s, s[..k] + rest, k) && StopsAt(s[..k] + rest, k)
  {
    var u := s[..k] + rest;
    if rest != [] {
      assert u[k] == rest[0];
    }
  }

  /** Two texts that agree up to the end of the number of the first, the
      second stopping there, scan alike. */
  lemma ScanAgrees(s: string, u: string, k: nat)
    requires k == ScanNumber(s).End() && AgreeBelow(s, u, k) && StopsAt(u, k)
    ensures ScanNumber(u) == ScanNumber(s)
  {
    var m := ScanNumber(s);
    SignStable(s, u, k);
    DigitRunAgrees(s, u, k, m.sign);
    FractionStable(s, u, k);
    ExponentStable(s, u, k);
  }

  /** What `u` holds at index `k`, the end of the number of `s`: nothing
      that could extend that number. */
  predicate StopsAt(u: string, k: nat) {
    k == |u| || (k < |u| && EndsNumber(u[k]) && u[k] != '+' && u[k] != '-')
  }

  lemma SignStable(s: string, u: string, k: nat)
    requires k == ScanNumber(s).End() && AgreeBelow(s, u, k) && StopsAt(u, k)
    ensures SignLen(u, 0) == SignLen(s, 0)
  {
    var m := ScanNumber(s);
    assert m.sign == SignLen(s, 0) && m.sign <= m.End();
    SignAgrees(s, u, k, m.sign);
  }

  /** The sign of `s`, which ends at or before `k`, is also the sign of `u`. */
  lemma SignAgrees(s: string, u: string, k: nat, sg: nat)
    requires AgreeBelow(s, u, k) && StopsAt(u, k) && sg == SignLen(s, 0) && sg <= k
    ensures SignLen(u, 0) == sg
  {
    if k > 0 {
      assert u[0] == s[0];
    }
  }

  lemma FractionStable(s: string, u: string, k: nat)
    requires k == ScanNumber(s).End() && AgreeBelow(s, u, k) && StopsAt(u, k)
    requires DigitRun(u, ScanNumber(s).sign) == ScanNumber(s).whole
    ensures FractionLen(u, ScanNumber(s).sign + ScanNumber(s).whole) == ScanNumber(s).frac
  {
    var m := ScanNumber(s);
    var i := m.sign + m.whole;
    if m.frac > 0 {
      DigitRunAgrees(s, u, k, i + 1);
    }
  }

  lemma ExponentStable(s: string, u: string, k: nat)
    requires k == ScanNumber(s).End() && AgreeBelow(s, u, k) && StopsAt(u, k)
    ensures var m := ScanNumber(s); ExponentLen(u, m.sign + m.whole + m.frac) == m.exp
  {
    var m := ScanNumber(s);
    var e := m.sign + m.whole + m.frac;
    if m.exp > 0 {
      var sg := SignLen(s, e + 1);
      assert SignLen(u, e + 1) == sg;
      DigitRunAgrees(s, u, k, e + 1 + sg);
    }
  }

  /** The unit run of a normalised text is the suffix it was given. */
  lemma {:induction false} UnitWordAfterNumber(s: string, suffix: string)
    requires NoSpace(s)
    requires forall j :: 0 <= j < |suffix| ==> IsUnitChar(suffix[j])
    requires suffix == [] || (suffix[0] != 'e' && suffix[0] != 'E')
    ensures ScanNumber(NumberText(s) + suffix) == ScanNumber(s)
    ensures NumberText(NumberText(s) + suffix) == NumberText(s)
    ensures UnitWord(NumberText(s) + suffix) == suffix
  {
    var t := NumberText(s) + suffix;
    ScanStable(s, suffix);
    var k := ScanNumber(s).End();
    assert t[..k] == NumberText(s);
    assert t[k..] == suffix;
    UnitRunOver(t, k, |suffix|);
  }

  lemma RemoveSpacesOfNormalised(number: string, suffix: string)
    requires NoSpace(number) && NoSpace(suffix)
    ensures RemoveSpaces(number + " " + suffix) == number + suffix
  {
    assert number + " " + suffix == number + ([' '] + suffix);
    RemoveSpacesAppend(number, [' '] + suffix);
    RemoveSpacesLeadingBlank(suffix);
  }

  /** Reading back a normalised text "<number> <suffix>" yields the same
      number text and the suffix as unit run. */
  lemma NormalisedParts(s: string, suffix: string)
    requires NoSpace(s) && NoSpace(suffix)
    requires forall j :: 0 <= j < |suffix| ==> IsUnitChar(suffix[j])
    requires suffix == [] || (suffix[0] != 'e' && suffix[0] != 'E')
    ensures var t := RemoveSpaces(NumberText(s) + " " + suffix);
      NumberText(t) == NumberText(s) && UnitWord(t) == suffix
  {
    var number := NumberText(s);
    assert NoSpace(number);
    RemoveSpacesOfNormalised(number, suffix);
    UnitWordAfterNumber(s, suffix);
  }

  /** A canonical prefix label is its own label. */
  lemma PrefixLabelStable(c: char)
    requires PrefixLabel(c).Some?
    ensures PrefixLabel(PrefixLabel(c).value[0]) == PrefixLabel(c)
  {
  }

  /** A normalised frequency text is already normal: `freq_out_focus` is
      idempotent. */
  lemma FreqOutFocusIdempotent(text: string)
    ensures FreqOutFocus(FreqOutFocus(text)) == FreqOutFocus(text)
  {
    var s := RemoveSpaces(text);
    var unit := UnitWord(s);
    if unit != [] {
      var suffix := FreqSuffix(unit[0]);
      FreqSuffixStable(unit[0]);
      NormalisedParts(s, suffix);
      var t := RemoveSpaces(NumberText(s) + " " + suffix);
      assert UnitWord(t) == suffix && NumberText(t) == NumberText(s);
    }
  }

  /** A written frequency suffix has no blank, does not start an
      exponent, and reads back as itself. */
  lemma FreqSuffixStable(c: char)
    ensures var u := FreqSuffix(c);
      && NoSpace(u) && (u == [] || (u[0] != 'e' && u[0] != 'E'))
      && (u != [] ==> FreqSuffix(u[0]) == u)
  {
    if PrefixLabel(c).Some? {
      PrefixLabelStable(c);
    }
  }

  /** The prefix label survives as the head of a normalised unit. */
  lemma LeadLabelStable(unit: string, tail: string)
    requires tail == [] || PrefixLabel(tail[0]).None?
    ensures LeadLabel(LeadLabel(unit) + tail) == (if LeadLabel(unit) == [] then LeadLabel(tail) else LeadLabel(unit))
  {
    if unit != [] && PrefixLabel(unit[0]).Some? {
      PrefixLabelStable(unit[0]);
      assert (LeadLabel(unit) + tail)[0] == LeadLabel(unit)[0];
    } else {
      assert LeadLabel(unit) + tail == tail;
    }
  }

  /** `volts_out_focus` is idempotent. */
  lemma VoltsOutFocusIdempotent(text: string)
    ensures VoltsOutFocus(VoltsOutFocus(text)) == VoltsOutFocus(text)
  {
    var s := RemoveSpaces(text);
    var suffix := LeadLabel(UnitWord(s)) + "V";
    LeadLabelStable(UnitWord(s), "V");
    assert LeadLabel(suffix) == LeadLabel(UnitWord(s));
    NormalisedParts(s, suffix);
  }

  /** `general_out_focus` is idempotent. */
  lemma GeneralOutFocusIdempotent(text: string)
    ensures GeneralOutFocus(GeneralOutFocus(text)) == GeneralOutFocus(text)
  {
    var s := RemoveSpaces(text);
    var suffix := LeadLabel(UnitWord(s));
    LeadLabelStable(UnitWord(s), "");
    assert suffix + "" == suffix;
    NormalisedParts(s, suffix);
  }
}
