/** Text-to-number conversion with SI prefixes (src/cvtTools.py).

    Every parser applies the same pattern
      `([+-]?\d*(?:\.\d+)?(?:[eE][+-]?\d+)?)([A-Za-zµ]?)`
    (or the `*` variant for the unit run) with `re.search`. All parts of the
    pattern are optional, so the search always succeeds at position 0, and
    each greedy part either takes its longest match or nothing without any
    backtracking. `ScanNumber` is that match, written as a scanner. */
module CvtTools {
  import opened Text
  import opened Wrappers
  import opened PyNumbers

  /** Lengths of the four parts of the number group: sign, integer digits,
      `.digits` fraction and `e±digits` exponent. */
  datatype Scan = Scan(sign: nat, whole: nat, frac: nat, exp: nat) {
    function End(): nat {
      sign + whole + frac + exp
    }
  }

  function SignLen(s: string, i: nat): (n: nat)
    ensures n <= 1
    ensures n == 1 <==> i < |s| && (s[i] == '+' || s[i] == '-')
  {
    if i < |s| && (s[i] == '+' || s[i] == '-') then 1 else 0
  }

  /** Length of the longest run of digits starting at `i`. */
  function DigitRun(s: string, i: nat): (n: nat)
    requires i <= |s|
    ensures i + n <= |s|
    decreases |s| - i
  {
    if i < |s| && IsDigit(s[i]) then 1 + DigitRun(s, i + 1) else 0
  }

  /** The run found by `DigitRun` is all digits and cannot be extended. */
  lemma {:induction false} DigitRunSpec(s: string, i: nat)
    requires i <= |s|
    ensures AllDigits(s[i..i + DigitRun(s, i)])
    ensures i + DigitRun(s, i) == |s| || !IsDigit(s[i + DigitRun(s, i)])
    decreases |s| - i
  {
    if i < |s| && IsDigit(s[i]) {
      DigitRunSpec(s, i + 1);
      var n := DigitRun(s, i);
      assert n == 1 + DigitRun(s, i + 1);
      assert s[i..i + n] == [s[i]] + s[i + 1..i + n];
    }
  }

  /** `(?:\.\d+)?` at `i`: the dot counts only when a digit follows it. */
  function FractionLen(s: string, i: nat): (n: nat)
    requires i <= |s|
    ensures i + n <= |s|
    ensures n != 1
    ensures n > 0 ==> s[i] == '.'
  {
    if i < |s| && s[i] == '.' && DigitRun(s, i + 1) > 0 then 1 + DigitRun(s, i + 1) else 0
  }

  /** `(?:[eE][+-]?\d+)?` at `i`: the mark counts only when digits follow it. */
  function ExponentLen(s: string, i: nat): (n: nat)
    requires i <= |s|
    ensures i + n <= |s|
    ensures n != 1
    ensures n > 0 ==> s[i] == 'e' || s[i] == 'E'
  {
    if i < |s| && (s[i] == 'e' || s[i] == 'E') then
      var sg := SignLen(s, i + 1);
      var d := DigitRun(s, i + 1 + sg);
      if d > 0 then 1 + sg + d else 0
    else 0
  }

  /** The number group of the pattern, matched at the start of `s`. */
  function ScanNumber(s: string): (m: Scan)
    ensures m.End() <= |s|
    ensures m.sign == SignLen(s, 0)
  {
    var sg := SignLen(s, 0);
    var w := DigitRun(s, sg);
    var f := FractionLen(s, sg + w);
    var e := ExponentLen(s, sg + w + f);
    Scan(sg, w, f, e)
  }

  /** Group 1: the matched number text. */
  function NumberText(s: string): (t: string)
    ensures |t| == ScanNumber(s).End()
  {
    s[..ScanNumber(s).End()]
  }

  /** Group 2 of the `?` pattern: at most one unit character. */
  function UnitLetter(s: string): (u: string)
    ensures |u| <= 1
    ensures u != [] ==> IsUnitChar(u[0])
    ensures u == [] <==> ScanNumber(s).End() == |s| || !IsUnitChar(s[ScanNumber(s).End()])
  {
    var k := ScanNumber(s).End();
    if k < |s| && IsUnitChar(s[k]) then [s[k]] else []
  }

  /** Length of the longest run of unit characters starting at `i`. */
  function UnitRun(s: string, i: nat): (n: nat)
    requires i <= |s|
    ensures i + n <= |s|
    ensures forall j :: i <= j < i + n ==> IsUnitChar(s[j])
    ensures i + n == |s| || !IsUnitChar(s[i + n])
    decreases |s| - i
  {
    if i < |s| && IsUnitChar(s[i]) then 1 + UnitRun(s, i + 1) else 0
  }

  /** Group 2 of the `*` pattern: every unit character after the number. */
  function UnitWord(s: string): (u: string)
    ensures forall j :: 0 <= j < |u| ==> IsUnitChar(u[j])
  {
    var k := ScanNumber(s).End();
    var n := UnitRun(s, k);
    var u := s[k..k + n];
    assert forall j :: 0 <= j < n ==> u[j] == s[k + j];
    u
  }

  /** `float(group1)`: defined exactly when the mantissa holds a digit,
      so "", "+", "-" and an exponent alone ("e5") fail. */
  function NumberValue(s: string): (v: Option<real>)
    ensures v.None? <==> ScanNumber(s).whole == 0 && ScanNumber(s).frac == 0
  {
    var m := ScanNumber(s);
    if m.whole == 0 && m.frac == 0 then None
    else
      ScanDigits(s);
      var wholeText := s[m.sign..m.sign + m.whole];
      var fracText := if m.frac == 0 then "" else s[m.sign + m.whole + 1..m.sign + m.whole + m.frac];
      var mantissa := DigitsValue(wholeText) as real + DigitsValue(fracText) as real / Pow10(|fracText|);
      var exponent := ExponentValue(s, m.sign + m.whole + m.frac, m.exp);
      var magnitude := mantissa * Pow10(exponent);
      Some(if m.sign == 1 && s[0] == '-' then -magnitude else magnitude)
  }

  /** The integer and fraction digits of the scan are digits. */
  lemma ScanDigits(s: string)
    ensures var m := ScanNumber(s);
      && AllDigits(s[m.sign..m.sign + m.whole])
      && (m.frac > 0 ==> AllDigits(s[m.sign + m.whole + 1..m.sign + m.whole + m.frac]))
  {
    var m := ScanNumber(s);
    DigitRunSpec(s, m.sign);
    if m.frac > 0 {
      DigitRunSpec(s, m.sign + m.whole + 1);
    }
  }

  /** The signed integer written by the exponent part of length `n` at `i`. */
  function ExponentValue(s: string, i: nat, n: nat): int
    requires i + n <= |s|
    requires n > 0 ==> n >= 2
  {
    if n == 0 then 0
    else
      var sg := SignLen(s, i + 1);
      if 1 + sg > n then 0
      else
        var digits := s[i + 1 + sg..i + n];
        if !AllDigits(digits) then 0
        else if sg == 1 && s[i + 1] == '-' then -(DigitsValue(digits) as int)
        else DigitsValue(digits) as int
  }

  /** The multiplier of an SI prefix letter (the first unit character). */
  function PrefixScale(c: char): (k: real)
    ensures k > 0.0
  {
    if c == 'G' || c == 'g' then 1000000000.0
    else if c == 'M' then 1000000.0
    else if c == 'k' || c == 'K' then 1000.0
    else if c == 'm' then 0.001
    else if c == 'u' || c == Micro || c == GreekMu then 0.000001
    else if c == 'n' || c == 'N' then 0.000000001
    else if c == 'p' || c == 'P' then 0.000000000001
    else 1.0
  }

  /** `convert_general_unit`: the prefix multiplier of a unit text; a missing
      or empty unit, or one without a leading unit letter, scales by 1. */
  function ConvertGeneralUnit(unit: Option<string>): (k: real)
    ensures k > 0.0
    ensures unit.None? || unit.value == [] ==> k == 1.0
  {
    match unit
    case None => 1.0
    case Some(u) =>
      if u == [] then 1.0
      else
        var letter := UnitLetter(u);
        if letter == [] then 1.0 else PrefixScale(letter[0])
  }

  /** The multiplier `parse_general_val` applies to the number in `s`: its
      unit letter's prefix scale, or the default unit's when it has none. */
  function UnitScale(s: string, defaultUnit: Option<string>): (k: real)
    ensures k > 0.0
    ensures UnitLetter(s) == [] ==> k == ConvertGeneralUnit(defaultUnit)
  {
    var u := UnitLetter(s);
    if u == [] then ConvertGeneralUnit(defaultUnit) else PrefixScale(u[0])
  }

  /** A product kept as one term, so that the solver does not mix it into
      the decimal arithmetic of `NumberValue`. */
  function Times(x: real, k: real): real {
    x * k
  }

  /** The number of `s` times its unit scale, before the int/float choice. */
  function ScaledValue(s: string, defaultUnit: Option<string>): (v: Option<real>)
    ensures v.None? <==> NumberValue(s).None?
  {
    match NumberValue(s)
    case None => None
    case Some(x) => Some(Times(x, UnitScale(s, defaultUnit)))
  }

  /** `parse_general_val`: spaces removed; an unparseable number gives 0.0;
      the value is scaled by its unit letter, or by the default unit when
      there is none; integral results become ints. */
  function ParseGeneralVal(input: string, defaultUnit: Option<string>): (r: PyNum)
    ensures var v := ScaledValue(RemoveSpaces(input), defaultUnit);
      && (v.None? ==> r == PyFloat(0.0))
      && (v.Some? ==> r.Value() == v.value && (r.PyInt? <==> IsIntegral(v.value)))
  {
    match ScaledValue(RemoveSpaces(input), defaultUnit)
    case None => PyFloat(0.0)
    case Some(x) => Normalize(x)
  }

  /** `parse_to_hz`: the parsed value, or int 0 when it is falsy. */
  function ParseToHz(freq: string, defaultUnit: string): (r: PyNum)
    ensures r.Value() == ParseGeneralVal(freq, Some(defaultUnit)).Value()
    ensures !r.Truthy() ==> r == PyInt(0)
  {
    var v := ParseGeneralVal(freq, Some(defaultUnit));
    if v.Truthy() then v else PyInt(0)
  }

  /** `parse_to_V`: no default unit. */
  function ParseToV(volts: string): (r: PyNum)
    ensures r == ParseGeneralVal(volts, None)
    ensures ConvertGeneralUnit(None) == 1.0
  {
    ParseGeneralVal(volts, None)
  }

  /** `math.sqrt(8)` as the nearest double. */
  const Sqrt8: real := 2.8284271247461903

  /** Outcome of `parse_to_Vpp`: the empty string for a text without a number. */
  datatype VppParse = NoNumber | Vpp(volts: real)

  /** The amplitude-kind multiplier of `parse_to_Vpp`, by ordered case-insensitive
      substring tests on the unit run. */
  function VppKindScale(unit: string): (k: real)
    ensures k == 1.0 || k == 2.0 || k == Sqrt8
  {
    var low := Lower(unit);
    if unit == [] then 1.0
    else if Contains(low, "vpp") then 1.0
    else if Contains(low, "vpk") then 2.0
    else if Contains(low, "vrms") then Sqrt8
    else 1.0
  }

  /** `parse_to_Vpp`: no number text gives "", a number text that `float`
      rejects ("+", "e5") raises `ValueError`. */
  function ParseToVpp(vpp: string): (r: Result<VppParse>)
    ensures NumberText(RemoveSpaces(vpp)) == [] <==> r == Ok(NoNumber)
    ensures r.Err? <==> NumberText(RemoveSpaces(vpp)) != [] && NumberValue(RemoveSpaces(vpp)).None?
    ensures r.Err? ==> r.error.kind == ValueError
  {
    var s := RemoveSpaces(vpp);
    if NumberText(s) == [] then Ok(NoNumber)
    else match NumberValue(s)
      case None => Raise(ValueError, "could not convert string to float")
      case Some(v) =>
        var unit := UnitWord(s);
        var milli := if unit != [] && unit[0] == 'm' then 0.001 else 1.0;
        Ok(Vpp(Times(Times(v, VppKindScale(unit)), milli)))
  }

  // ---------------------------------------------------------------------
  // Partner properties: rendering a number and reading it back.

  lemma {:induction false} DigitRunOver(s: string, i: nat, n: nat)
    requires i + n <= |s|
    requires forall j :: i <= j < i + n ==> IsDigit(s[j])
    requires i + n == |s| || !IsDigit(s[i + n])
    ensures DigitRun(s, i) == n
    decreases n
  {
    if n > 0 {
      DigitRunOver(s, i + 1, n - 1);
    }
  }

  /** A character that cannot continue a number after its integer digits. */
  predicate EndsNumber(c: char) {
    !IsDigit(c) && c != '.' && c != 'e' && c != 'E'
  }

  /** `str(i)` followed by a terminator scans as exactly that integer. */
  lemma {:induction false} ScanRenderedInt(i: int, rest: string)
    requires rest == [] || EndsNumber(rest[0])
    ensures var s := IntToString(i) + rest;
      && ScanNumber(s).End() == |IntToString(i)|
      && NumberText(s) == IntToString(i)
      && NumberValue(s) == Some(i as real)
  {
    var s := IntToString(i) + rest;
    var d := if i >= 0 then i else -i;
    var digits := NatToString(d);
    var sg := if i >= 0 then 0 else 1;
    assert s[sg..sg + |digits|] == digits;
    assert SignLen(s, 0) == sg;
    DigitRunOver(s, sg, |digits|);
    assert FractionLen(s, sg + |digits|) == 0;
    assert ExponentLen(s, sg + |digits|) == 0;
    var m := ScanNumber(s);
    assert m == Scan(sg, |digits|, 0, 0);
    assert s[..m.End()] == IntToString(i);
    assert Pow10(0) == 1.0;
  }

  lemma RenderedHasNoSpace(i: int, unit: string)
    requires NoSpace(unit)
    ensures RemoveSpaces(IntToString(i) + unit) == IntToString(i) + unit
  {
    var t := IntToString(i);
    assert NoSpace(t) by {
      assert forall j :: 0 <= j < |t| ==> t[j] == '-' || IsDigit(t[j]);
    }
    assert NoSpace(t + unit);
  }

  /** An integer followed by a unit letter parses to the integer times the
      letter's prefix scale; without a letter the default unit applies. */
  lemma ParseRenderedInt(i: int, unit: string, defaultUnit: Option<string>)
    requires unit == [] || (IsUnitChar(unit[0]) && unit[0] != 'e' && unit[0] != 'E')
    requires NoSpace(unit)
    ensures ParseGeneralVal(IntToString(i) + unit, defaultUnit).Value()
      == Times(i as real, if unit == [] then ConvertGeneralUnit(defaultUnit) else PrefixScale(unit[0]))
  {
    var s := IntToString(i) + unit;
    RenderedHasNoSpace(i, unit);
    ScanRenderedInt(i, unit);
    var n := |IntToString(i)|;
    assert ScanNumber(s).End() == n;
    assert unit != [] ==> s[n] == unit[0];
    assert UnitLetter(s) == if unit == [] then [] else [unit[0]];
    var k := if unit == [] then ConvertGeneralUnit(defaultUnit) else PrefixScale(unit[0]);
    assert UnitScale(s, defaultUnit) == k;
    assert ScaledValue(s, defaultUnit) == Some(Times(i as real, k));
  }

  /** The milli multiplier of `parse_to_Vpp`: a unit run led by 'm'. */
  function MilliScale(unit: string): (k: real)
    ensures k == 0.001 || k == 1.0
  {
    if unit != [] && unit[0] == 'm' then 0.001 else 1.0
  }

  /** A count followed by a word of letters parses to the count times the
      word's amplitude-kind scale and milli scale. */
  lemma ParseRenderedVpp(n: nat, unit: string)
    requires forall j :: 0 <= j < |unit| ==> IsLetter(unit[j])
    requires unit != [] && EndsNumber(unit[0])
    ensures ParseToVpp(NatToString(n) + unit)
      == Ok(Vpp(Times(Times(n as real, VppKindScale(unit)), MilliScale(unit))))
  {
    var s := NatToString(n) + unit;
    assert NoSpace(s) by {
      assert forall j :: 0 <= j < |s| ==> s[j] != ' ';
    }
    assert RemoveSpaces(s) == s;
    ScanRenderedInt(n, unit);
    var k := |NatToString(n)|;
    assert s[k..] == unit;
    assert UnitRun(s, k) == |unit| by {
      UnitRunOver(s, k, |unit|);
    }
    assert UnitWord(s) == unit;
  }

  /** The amplitude words recognised by `parse_to_Vpp` and their multipliers. */
  lemma VppWordScale()
    ensures VppKindScale("Vpp") == 1.0 && MilliScale("Vpp") == 1.0
  {
    assert Lower("Vpp") == "vpp";
  }

  lemma VpkWordScale()
    ensures VppKindScale("Vpk") == 2.0 && MilliScale("Vpk") == 1.0
  {
    assert Lower("Vpk") == "vpk";
    assert !Contains("vpk", "vpp");
  }

  lemma VrmsWordScale()
    ensures VppKindScale("Vrms") == Sqrt8 && MilliScale("Vrms") == 1.0
  {
    assert Lower("Vrms") == "vrms";
    assert !Contains("vrms", "vpp") && !Contains("vrms", "vpk");
  }

  lemma MilliVpkWordScale()
    ensures VppKindScale("mVpk") == 2.0 && MilliScale("mVpk") == 0.001
  {
    assert Lower("mVpk") == "mvpk";
    ContainsWitness("mvpk", "vpk", 1);
    assert !Contains("mvpk", "vpp");
  }

  lemma {:induction false} UnitRunOver(s: string, i: nat, n: nat)
    requires i + n == |s|
    requires forall j :: i <= j < i + n ==> IsUnitChar(s[j])
    ensures UnitRun(s, i) == n
    decreases n
  {
    if n > 0 {
      UnitRunOver(s, i + 1, n - 1);
    }
  }

  /** Text without any digit never yields a number: it parses to 0.0. */
  lemma NoDigitsParsesToZero(input: string, defaultUnit: Option<string>)
    requires forall j :: 0 <= j < |input| ==> !IsDigit(input[j])
    ensures ParseGeneralVal(input, defaultUnit) == PyFloat(0.0)
  {
    var s := RemoveSpaces(input);
    RemoveSpacesKeeps(input);
    assert forall j :: 0 <= j < |s| ==> !IsDigit(s[j]) by {
      forall j | 0 <= j < |s| ensures !IsDigit(s[j]) {
        assert s[j] in s;
      }
    }
  }
}
