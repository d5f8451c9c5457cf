/** Python and numpy number semantics over exact reals: the int/float
    distinction, truncating and rounding conversions, powers of ten and
    the `isclose` tolerance test. */
module PyNumbers {
  import opened Text
  import opened Wrappers

  /** A Python number that is either an `int` or a `float`. */
  datatype PyNum = PyInt(i: int) | PyFloat(x: real) {
    function Value(): real {
      match this
      case PyInt(i) => i as real
      case PyFloat(x) => x
    }

    /** Python truthiness: zero of either kind is falsy. */
    predicate Truthy() {
      Value() != 0.0
    }
  }

  function Abs(x: real): (r: real)
    ensures r >= 0.0 && (r == x || r == -x)
  {
    if x < 0.0 then -x else x
  }

  function Max(a: real, b: real): (r: real)
    ensures r >= a && r >= b && (r == a || r == b)
  {
    if a >= b then a else b
  }

  function Min(a: real, b: real): (r: real)
    ensures r <= a && r <= b && (r == a || r == b)
  {
    if a <= b then a else b
  }

  /** `np.max` of a non-empty array. */
  function SeqMax(xs: seq<real>): (m: real)
    requires |xs| > 0
    ensures m in xs && forall k :: 0 <= k < |xs| ==> xs[k] <= m
  {
    if |xs| == 1 then xs[0] else Max(SeqMax(xs[..|xs| - 1]), xs[|xs| - 1])
  }

  /** `np.min` of a non-empty array. */
  function SeqMin(xs: seq<real>): (m: real)
    requires |xs| > 0
    ensures m in xs && forall k :: 0 <= k < |xs| ==> m <= xs[k]
  {
    if |xs| == 1 then xs[0] else Min(SeqMin(xs[..|xs| - 1]), xs[|xs| - 1])
  }

  predicate IsIntegral(x: real) {
    x == x.Floor as real
  }

  /** `int(x) if float(x).is_integer() else x`: integral values become ints. */
  function Normalize(x: real): (n: PyNum)
    ensures n.Value() == x
    ensures n.PyInt? <==> IsIntegral(x)
  {
    if IsIntegral(x) then PyInt(x.Floor) else PyFloat(x)
  }

  /** `x or d` for an optional integer: `None` and 0 are both falsy. */
  function OrDefault(x: Option<int>, d: int): (n: int)
    ensures x.Some? && x.value != 0 ==> n == x.value
    ensures x.None? || x.value == 0 ==> n == d
  {
    match x
    case Some(v) => if v != 0 then v else d
    case None => d
  }

  /** `int(x)` for a float: truncation toward zero. */
  function Trunc(x: real): (i: int)
    ensures Abs(i as real) <= Abs(x)
    ensures Abs(x) - Abs(i as real) < 1.0
    ensures x >= 0.0 ==> i >= 0
    ensures x <= 0.0 ==> i <= 0
  {
    if x >= 0.0 then x.Floor else -((-x).Floor)
  }

  /** Python's `round(x)`: nearest integer, ties to the even one. */
  function RoundHalfEven(x: real): (i: int)
    ensures Abs(i as real - x) <= 0.5
    ensures Abs(i as real - x) == 0.5 ==> i % 2 == 0
  {
    var f := x.Floor;
    var d := x - f as real;
    if d < 0.5 then f
    else if d > 0.5 then f + 1
    else if f % 2 == 0 then f else f + 1
  }

  /** Rounding to the nearest integer never reverses an order. */
  lemma RoundMono(x: real, y: real)
    requires x <= y
    ensures RoundHalfEven(x) <= RoundHalfEven(y)
  {
  }

  /** `round(x, 2)`: the nearest multiple of 0.01, ties to even. */
  function Round2(x: real): (y: real)
    ensures Abs(y - x) <= 0.005
  {
    (RoundHalfEven(x * 100.0) as real) / 100.0
  }

  /** `round(x, 6)`: the nearest multiple of 10^-6, ties to even. */
  function Round6(x: real): (y: real)
    ensures Abs(y - x) <= 0.0000005
  {
    (RoundHalfEven(x * 1000000.0) as real) / 1000000.0
  }

  /** Rounding to two places keeps order and sign. */
  lemma Round2Order(x: real, y: real)
    ensures x <= y ==> Round2(x) <= Round2(y)
    ensures x >= 0.0 ==> Round2(x) >= 0.0
  {
    if x <= y {
      RoundMono(x * 100.0, y * 100.0);
    }
    if x >= 0.0 {
      RoundMono(0.0, x * 100.0);
      assert RoundHalfEven(0.0) == 0;
    }
  }

  /** Rounding to six places keeps order and sign. */
  lemma Round6Order(x: real, y: real)
    ensures x <= y ==> Round6(x) <= Round6(y)
    ensures x >= 0.0 ==> Round6(x) >= 0.0
  {
    if x <= y {
      RoundMono(x * 1000000.0, y * 1000000.0);
    }
    if x >= 0.0 {
      RoundMono(0.0, x * 1000000.0);
      assert RoundHalfEven(0.0) == 0;
    }
  }

  function Pow10Nat(k: nat): (p: real)
    ensures p >= 1.0
  {
    if k == 0 then 1.0 else 10.0 * Pow10Nat(k - 1)
  }

  /** 10 to an integer power, as a decimal exponent `e±k` denotes. */
  function Pow10(e: int): (p: real)
    ensures p > 0.0
    ensures e >= 0 ==> p >= 1.0
  {
    if e >= 0 then Pow10Nat(e) else 1.0 / Pow10Nat(-e)
  }

  /** `numpy.isclose(a, b, rtol, atol)`: |a − b| ≤ atol + rtol·|b|. */
  predicate IsClose(a: real, b: real, rtol: real, atol: real) {
    Abs(a - b) <= atol + rtol * Abs(b)
  }

  /** `numpy.isclose` with its default tolerances (rtol 1e-5, atol 1e-8). */
  predicate IsCloseDefault(a: real, b: real) {
    IsClose(a, b, 0.00001, 0.00000001)
  }

  lemma IsCloseReflexive(a: real, rtol: real, atol: real)
    requires rtol >= 0.0 && atol >= 0.0
    ensures IsClose(a, a, rtol, atol)
  {
  }

  /** The body of a Python integer literal: digits, with single underscores
      allowed between two digits. */
  predicate IsIntBody(b: string) {
    && b != []
    && IsDigit(b[0])
    && DigitsOrUnderscores(b)
    && (forall i :: 0 <= i < |b| - 1 && b[i] == '_' ==> IsDigit(b[i + 1]))
    && b[|b| - 1] != '_'
  }

  predicate DigitsOrUnderscores(b: string) {
    forall i :: 0 <= i < |b| ==> IsDigit(b[i]) || b[i] == '_'
  }

  function DropUnderscores(b: string): (r: string)
    requires DigitsOrUnderscores(b)
    ensures AllDigits(r)
    ensures AllDigits(b) ==> r == b
  {
    if b == [] then []
    else if b[0] == '_' then DropUnderscores(b[1..])
    else [b[0]] + DropUnderscores(b[1..])
  }

  /** `int(text)` on a string: surrounding whitespace stripped, an optional
      sign, then an integer body; anything else raises `ValueError`. */
  function ParsePyInt(text: string): (r: Option<int>)
    ensures r.Some? ==> Strip(text) != []
  {
    var s := Strip(text);
    var sg := if s != [] && (s[0] == '+' || s[0] == '-') then 1 else 0;
    var body := s[sg..];
    if !IsIntBody(body) then None
    else
      var v := DigitsValue(DropUnderscores(body)) as int;
      Some(if sg == 1 && s[0] == '-' then -v else v)
  }

  /** `int(str(i)) == i`. */
  lemma ParsePyIntRoundTrip(i: int)
    ensures ParsePyInt(IntToString(i)) == Some(i)
  {
    var s := IntToString(i);
    StripOfStripped(s);
    var sg := if i >= 0 then 0 else 1;
    var body := s[sg..];
    assert body == NatToString(if i >= 0 then i else -i);
  }
}
