/** Floating-point numerics, taken as exact real arithmetic. The
    transcendental functions (`sqrt`, logarithms, powers, trigonometry)
    and the spectral routines are not computed here: they are fields of a
    `Numerics` record that every operation using them receives, so each
    property proved holds whatever those functions return. Complex values
    are pairs of reals. */
module Numerics {
  import opened PyNumbers

  datatype Complex = Complex(re: real, im: real) {
    function Scale(k: real): Complex {
      Complex(re * k, im * k)
    }

    /** The squared magnitude, which needs no square root. */
    function Norm(): (n: real)
      ensures n >= 0.0
    {
      assert re * re >= 0.0 && im * im >= 0.0;
      re * re + im * im
    }
  }

  /** The transcendental and spectral functions numpy provides. */
  datatype Numerics = Numerics(
    sqrt: real -> real,
    ln: real -> real,
    log10: real -> real,
    pow10: real -> real,
    cos: real -> real,
    sin: real -> real,
    atan2: (real, real) -> real,
    /** Bin k of `rfft(hanning(n) * (volts - mean(volts)))`. */
    fftBin: (seq<real>, int) -> Complex,
    /** `sum(window * volts_ac * exp(-2πi f t))` for a record and a frequency. */
    toneAt: (seq<real>, seq<real>, real) -> Complex,
    /** `2 / sqrt(sum(hanning(n)²) · n)` for a record of n samples. */
    ampScale: nat -> real,
    /** `make_interp_spline(knots, values, k=degree)(x)`. */
    splineAt: (seq<real>, seq<real>, nat, real) -> real,
    /** `a / 0` in numpy's complex128 arithmetic, which warns and gives a
        value with infinite or NaN parts instead of raising; reals hold no
        such value, so the model names it without computing it. */
    zeroQuotient: Complex -> Complex)
  {
    /** `abs(z)` for a complex number. */
    function Abs(z: Complex): real {
      sqrt(z.Norm())
    }

    /** `np.angle(z)` in radians. */
    function Angle(z: Complex): real {
      atan2(z.im, z.re)
    }

    /** `np.degrees(x)`. */
    function Degrees(x: real): real {
      x * 180.0 / Pi
    }

    /** `np.deg2rad(x)`. */
    function Radians(x: real): real {
      x * Pi / 180.0
    }

    /** `mag * exp(1j * angle)`. */
    function Polar(mag: real, angle: real): Complex {
      Complex(mag * cos(angle), mag * sin(angle))
    }

    /** `20 * log10(x)`. */
    function Db(x: real): real {
      20.0 * log10(x)
    }
  }

  /** `abs(z) < t`, decided without a square root. */
  predicate AbsBelow(z: Complex, t: real)
    requires t >= 0.0
  {
    z.Norm() < t * t
  }

  function Add(a: Complex, b: Complex): Complex {
    Complex(a.re + b.re, a.im + b.im)
  }

  /** `np.sum` of complex values. */
  function Sum(zs: seq<Complex>): Complex {
    if zs == [] then Complex(0.0, 0.0) else Add(Sum(zs[..|zs| - 1]), zs[|zs| - 1])
  }

  /** `np.sum(np.abs(zs) ** 2)`. */
  function Energy(zs: seq<Complex>): (e: real)
    ensures e >= 0.0
  {
    if zs == [] then 0.0 else Energy(zs[..|zs| - 1]) + zs[|zs| - 1].Norm()
  }

  /** Double-precision pi. */
  const Pi: real := 3.141592653589793

  /** Complex division `a / b`; Python raises `ZeroDivisionError` when
      `b` is zero, which callers check first. */
  function Div(a: Complex, b: Complex): (q: Complex)
    requires b.Norm() != 0.0
    ensures q.re * b.re - q.im * b.im == a.re
    ensures q.re * b.im + q.im * b.re == a.im
  {
    var n := b.Norm();
    var q := Complex((a.re * b.re + a.im * b.im) / n, (a.im * b.re - a.re * b.im) / n);
    DivCheck(a, b, q);
    q
  }

  lemma DivCheck(a: Complex, b: Complex, q: Complex)
    requires b.Norm() != 0.0
    requires q == Complex((a.re * b.re + a.im * b.im) / b.Norm(), (a.im * b.re - a.re * b.im) / b.Norm())
    ensures q.re * b.re - q.im * b.im == a.re
    ensures q.re * b.im + q.im * b.re == a.im
  {
    var n := b.Norm();
    assert q.re * n == a.re * b.re + a.im * b.im;
    assert q.im * n == a.im * b.re - a.re * b.im;
    assert (q.re * b.re - q.im * b.im) * n == a.re * n;
    assert (q.re * b.im + q.im * b.re) * n == a.im * n;
  }

  /** `max(x, floor)` as numpy and Python compute it. */
  function AtLeast(x: real, floor: real): (r: real)
    ensures r >= floor && r >= x && (r == x || r == floor)
  {
    Max(x, floor)
  }
}
