/** Decoded JSON values as Python holds them after `json.loads`, plus the
    str-valued enum members that `dataclasses.asdict` leaves in place, and
    the built-in conversions `int`, `float`, `str` and `bool` applied to
    them. Objects keep their members in insertion order; lists keep their
    items in order. */
module PyJson {
  import opened Wrappers
  import opened Text
  import opened PyNumbers
  import opened CvtTools

  datatype Json =
    | JNull
    | JBool(b: bool)
    | JInt(i: int)
    | JFloat(r: real)
    | JStr(s: string)
    | JEnum(value: string)
    | JObj(members: seq<Member>)
    | JArr(items: seq<Json>)

  datatype Member = Member(key: string, value: Json)

  /** The value stored under `key`; a later member overrides an earlier
      one, as when `json.loads` meets a repeated key. */
  function Lookup(ms: seq<Member>, key: string): (r: Option<Json>)
    ensures r.None? <==> forall i :: 0 <= i < |ms| ==> ms[i].key != key
    ensures r.Some? ==> exists i :: 0 <= i < |ms| && ms[i].key == key && ms[i].value == r.value
  {
    if ms == [] then None
    else if ms[|ms| - 1].key == key then Some(ms[|ms| - 1].value)
    else Lookup(ms[..|ms| - 1], key)
  }

  /** No key is held by two members, as in any dict Python builds. */
  predicate DistinctKeys(ms: seq<Member>) {
    forall i, j :: 0 <= i < j < |ms| ==> ms[i].key != ms[j].key
  }

  /** With distinct keys every member is found under its own key. */
  lemma {:induction false} LookupDistinct(ms: seq<Member>)
    requires DistinctKeys(ms)
    ensures forall p :: 0 <= p < |ms| ==> Lookup(ms, ms[p].key) == Some(ms[p].value)
  {
    if ms != [] {
      LookupDistinct(ms[..|ms| - 1]);
    }
  }

  /** `obj.get(key, default)`: an `AttributeError` when `obj` is not a dict. */
  function Get(obj: Json, key: string, default: Json): (r: Result<Json>)
    ensures r.Err? <==> !obj.JObj?
    ensures r.Ok? ==> r.value == Lookup(obj.members, key).GetOr(default)
  {
    if obj.JObj? then Ok(Lookup(obj.members, key).GetOr(default))
    else Raise(AttributeError, "object has no attribute 'get'")
  }

  /** `obj.get(key) is None`. */
  predicate Absent(obj: Json, key: string)
    requires obj.JObj?
  {
    Lookup(obj.members, key).GetOr(JNull) == JNull
  }

  /** `int(x)`: floats truncate toward zero, booleans count as 0 and 1,
      strings must spell an integer. */
  function ToInt(x: Json): (r: Result<int>)
    ensures x.JInt? ==> r == Ok(x.i)
    ensures x.JFloat? ==> r == Ok(Trunc(x.r))
    ensures r.Err? <==> (x.JNull? || x.JObj? || x.JArr? || x.JEnum? || (x.JStr? && ParsePyInt(x.s).None?))
  {
    match x
    case JInt(i) => Ok(i)
    case JFloat(v) => Ok(Trunc(v))
    case JBool(b) => Ok(if b then 1 else 0)
    case JStr(s) =>
      (match ParsePyInt(s)
       case Some(i) => Ok(i)
       case None => Raise(ValueError, "invalid literal for int()"))
    case JNull => Raise(TypeError, "int() argument must be a string or a number, not 'NoneType'")
    case JEnum(_) => Raise(ValueError, "invalid literal for int()")
    case JObj(_) => Raise(TypeError, "int() argument must be a string or a number, not 'dict'")
    case JArr(_) => Raise(TypeError, "int() argument must be a string or a number, not 'list'")
  }

  /** A stripped string `float()` reads as a decimal literal: an optional
      sign, digits with an optional fraction, an optional exponent, and
      nothing after them. */
  predicate IsFloatLiteral(t: string) {
    ScanNumber(t).End() == |t| && NumberValue(t).Some?
  }

  /** `float(x)`: a string is read after stripping its whitespace, as an
      integer spelling (underscores allowed) or as a decimal literal. */
  function ToFloat(x: Json): (r: Result<real>)
    ensures x.JFloat? ==> r == Ok(x.r)
    ensures x.JInt? ==> r == Ok(x.i as real)
    ensures x.JStr? && ParsePyInt(x.s).Some? ==> r == Ok(ParsePyInt(x.s).value as real)
    ensures x.JStr? && ParsePyInt(x.s).None? && IsFloatLiteral(Strip(x.s))
      ==> r == Ok(NumberValue(Strip(x.s)).value)
    ensures r.Err? <==> (x.JNull? || x.JObj? || x.JArr? || x.JEnum?
                         || (x.JStr? && ParsePyInt(x.s).None? && !IsFloatLiteral(Strip(x.s))))
  {
    match x
    case JInt(i) => Ok(i as real)
    case JFloat(v) => Ok(v)
    case JBool(b) => Ok(if b then 1.0 else 0.0)
    case JStr(s) =>
      (match ParsePyInt(s)
       case Some(i) => Ok(i as real)
       case None =>
         var t := Strip(s);
         if IsFloatLiteral(t) then Ok(NumberValue(t).value)
         else Raise(ValueError, "could not convert string to float"))
    case JNull => Raise(TypeError, "float() argument must be a string or a real number, not 'NoneType'")
    case JEnum(_) => Raise(ValueError, "could not convert string to float")
    case JObj(_) => Raise(TypeError, "float() argument must be a string or a real number, not 'dict'")
    case JArr(_) => Raise(TypeError, "float() argument must be a string or a real number, not 'list'")
  }

  /** `float("1.5e6")` reads the exponent form a settings file may hold. */
  lemma ExponentStringToFloat()
    ensures ToFloat(JStr("1.5e6")) == Ok(1500000.0)
  {
    SampleNotInt();
    SampleScan();
    SampleValue();
  }

  /** The sample is already stripped and is no integer spelling. */
  lemma SampleNotInt()
    ensures Strip("1.5e6") == "1.5e6"
    ensures ParsePyInt("1.5e6") == None
  {
    var t := "1.5e6";
    assert TrimLeft(t) == t;
    assert TrimRight(t) == t;
    assert !IsIntBody(t) by { assert !IsDigit(t[1]); }
  }

  /** The sample scans as one digit, a one-digit fraction and an exponent. */
  lemma SampleScan()
    ensures ScanNumber("1.5e6") == Scan(0, 1, 2, 2)
  {
    var t := "1.5e6";
    assert DigitRun(t, 0) == 1 by { assert DigitRun(t, 1) == 0; }
    assert DigitRun(t, 2) == 1 by { assert DigitRun(t, 3) == 0; }
    assert DigitRun(t, 4) == 1 by { assert DigitRun(t, 5) == 0; }
  }

  /** The sample's value is 1.5 times ten to the sixth. */
  lemma SampleValue()
    ensures NumberValue("1.5e6") == Some(1500000.0)
  {
    var t := "1.5e6";
    SampleScan();
    SampleExponent();
    assert t[0..1] == "1" && t[2..3] == "5";
    assert DigitsValue("1") == 1 && DigitsValue("5") == 5;
  }

  /** The sample's exponent part denotes a million. */
  lemma SampleExponent()
    ensures ExponentValue("1.5e6", 3, 2) == 6
    ensures Pow10(1) == 10.0 && Pow10(6) == 1000000.0
  {
    var t := "1.5e6";
    assert t[4..5] == "6";
    assert DigitsValue("6") == 6;
  }

  /** `str(x)`. The text of a float, an enum member or a dict is the
      `repr` parameter: only its text, never its value, matters here. */
  function ToStr(x: Json, repr: Json -> string): (s: string)
    ensures x.JStr? ==> s == x.s
    ensures x.JInt? ==> s == IntToString(x.i)
    ensures x.JNull? ==> s == "None"
  {
    match x
    case JStr(t) => t
    case JInt(i) => IntToString(i)
    case JBool(b) => if b then "True" else "False"
    case JNull => "None"
    case _ => repr(x)
  }

  /** `bool(x)`: Python truthiness. */
  predicate Truthy(x: Json) {
    match x
    case JNull => false
    case JBool(b) => b
    case JInt(i) => i != 0
    case JFloat(v) => v != 0.0
    case JStr(s) => s != []
    case JEnum(v) => v != []
    case JObj(ms) => ms != []
    case JArr(xs) => xs != []
  }

  /** Whether an enum member is left anywhere inside. */
  predicate HasEnum(j: Json) {
    match j
    case JEnum(_) => true
    case JObj(ms) => exists i :: 0 <= i < |ms| && HasEnum(ms[i].value)
    case JArr(xs) => exists i :: 0 <= i < |xs| && HasEnum(xs[i])
    case _ => false
  }
}
