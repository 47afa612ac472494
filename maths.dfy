/** Exact-arithmetic stand-ins for the numerics the beam-optics core relies on:
    complex numbers (amrex::GpuComplex without rounding), the physical constants
    of ablastr/constant.H, and the transcendental functions of the C maths
    library, which are passed around as a value of type Libm together with the
    few laws the proofs need. */
module Maths {

  /** Elementary charge (C), speed of light (m/s) and the MeV/c^2 mass unit (kg),
      as the SI constants of ablastr/constant.H (CODATA 2018, exact in SI 2019). */
  const Qe: real := 0.0000000000000000001602176634
  const C: real := 299792458.0
  const MeVInvc2: real := 1000000.0 * Qe / (C * C)

  /** ablastr::constant::math::pi, to the digits a double can hold. */
  const Pi: real := 3.14159265358979323846

  function Abs(a: real): (r: real)
    ensures r >= 0.0 && (r == a || r == -a)
  {
    if a < 0.0 then -a else a
  }

  /** A complex number with exact real and imaginary parts. */
  datatype Complex = Complex(re: real, im: real)

  const One: Complex := Complex(1.0, 0.0)
  const I: Complex := Complex(0.0, 1.0)

  function Add(a: Complex, b: Complex): Complex
  {
    Complex(a.re + b.re, a.im + b.im)
  }

  function Sub(a: Complex, b: Complex): Complex
  {
    Complex(a.re - b.re, a.im - b.im)
  }

  function Mul(a: Complex, b: Complex): Complex
  {
    Complex(a.re * b.re - a.im * b.im, a.re * b.im + a.im * b.re)
  }

  /** |a|^2 */
  function NormSq(a: Complex): real
  {
    a.re * a.re + a.im * a.im
  }

  /** Complex division a / b, defined only for b != 0. */
  function Div(a: Complex, b: Complex): Complex
    requires NormSq(b) != 0.0
  {
    Complex((a.re * b.re + a.im * b.im) / NormSq(b), (a.im * b.re - a.re * b.im) / NormSq(b))
  }

  /** Division of a complex number by a real scalar. */
  function DivReal(a: Complex, k: real): Complex
    requires k != 0.0
  {
    Complex(a.re / k, a.im / k)
  }

  /** amrex::pow(z, n) for a non-negative integer exponent. */
  function Pow(z: Complex, n: nat): Complex
  {
    if n == 0 then One else Mul(Pow(z, n - 1), z)
  }

  lemma NormSqNonNegative(a: Complex)
    ensures NormSq(a) >= 0.0
  {
    assert a.re * a.re >= 0.0 && a.im * a.im >= 0.0;
  }

  /** |a b|^2 = |a|^2 |b|^2 */
  lemma NormSqMul(a: Complex, b: Complex)
    ensures NormSq(Mul(a, b)) == NormSq(a) * NormSq(b)
  {
    var p, q, r, s := a.re, a.im, b.re, b.im;
    calc {
      NormSq(Mul(a, b));
      (p * r - q * s) * (p * r - q * s) + (p * s + q * r) * (p * s + q * r);
      p * p * r * r + q * q * s * s + p * p * s * s + q * q * r * r;
      (p * p + q * q) * (r * r + s * s);
    }
  }

  /** A power of a non-zero complex number is non-zero. */
  lemma {:induction false} PowNonZero(z: Complex, n: nat)
    requires NormSq(z) > 0.0
    ensures NormSq(Pow(z, n)) > 0.0
  {
    if n > 0 {
      PowNonZero(z, n - 1);
      NormSqMul(Pow(z, n - 1), z);
      assert NormSq(Pow(z, n - 1)) * NormSq(z) > 0.0;
    }
  }

  /** The C maths library as seen by the core: real square root, circular and
      hyperbolic functions, the natural logarithm, the real power function, and
      the principal complex square root and logarithm.  Nothing is known about
      them beyond the laws below, each required only where a proof uses it. */
  datatype Libm = Libm(
    sqrt: real -> real,
    sin: real -> real,
    cos: real -> real,
    sinh: real -> real,
    cosh: real -> real,
    log: real -> real,
    pow: (real, real) -> real,
    csqrt: Complex -> Complex,
    clog: Complex -> Complex)
  {
    /** sqrt(a) is the non-negative square root of every a >= 0. */
    ghost predicate SqrtLaw()
    {
      forall a :: a >= 0.0 ==> sqrt(a) >= 0.0 && sqrt(a) * sqrt(a) == a
    }

    /** Values of the circular and hyperbolic functions at zero. */
    ghost predicate AtZero()
    {
      sin(0.0) == 0.0 && cos(0.0) == 1.0 && sinh(0.0) == 0.0 && cosh(0.0) == 1.0
    }

    /** sin^2 + cos^2 = 1 */
    ghost predicate Pythagoras()
    {
      forall a :: sin(a) * sin(a) + cos(a) * cos(a) == 1.0
    }

    /** cosh^2 - sinh^2 = 1 */
    ghost predicate HyperbolicPythagoras()
    {
      forall a :: cosh(a) * cosh(a) - sinh(a) * sinh(a) == 1.0
    }

    /** cos and cosh are even, sin and sinh are odd. */
    ghost predicate Parity()
    {
      forall a, b :: a + b == 0.0 ==>
        cos(a) == cos(b) && sin(a) == -sin(b) && cosh(a) == cosh(b) && sinh(a) == -sinh(b)
    }

    /** The angle-addition formulas for sin and cos. */
    ghost predicate AngleAddition()
    {
      forall a, b, c :: c == a + b ==>
        sin(c) == sin(a) * cos(b) + cos(a) * sin(b) && cos(c) == cos(a) * cos(b) - sin(a) * sin(b)
    }

    /** The double-angle formulas for sin and cos. */
    ghost predicate DoubleAngle()
    {
      forall a, u :: u == a + a ==>
        sin(u) == 2.0 * sin(a) * cos(a) && cos(u) == cos(a) * cos(a) - sin(a) * sin(a)
    }

    /** The double-angle formulas for sinh and cosh. */
    ghost predicate HyperbolicDoubleAngle()
    {
      forall a, u :: u == a + a ==>
        sinh(u) == 2.0 * sinh(a) * cosh(a) && cosh(u) == cosh(a) * cosh(a) + sinh(a) * sinh(a)
    }

    /** log is negative on (0, 1). */
    ghost predicate LogBelowOne()
    {
      forall u :: 0.0 < u < 1.0 ==> log(u) < 0.0
    }

    /** pow(a, 2) is a times a. */
    ghost predicate PowSquare()
    {
      forall a :: pow(a, 2.0) == a * a
    }

    /** pow(2, 1/3) is the positive cube root of 2. */
    ghost predicate CubeRootOfTwo()
    {
      var c := pow(2.0, 1.0 / 3.0);
      c > 0.0 && c * c * c == 2.0
    }

    /** The principal complex square root squares back to its argument. */
    ghost predicate ComplexSqrtLaw()
    {
      forall z :: Mul(csqrt(z), csqrt(z)) == z
    }
  }

  /** Two non-negative numbers with the same square are equal. */
  lemma SquareInjective(a: real, b: real)
    requires a >= 0.0 && b >= 0.0 && a * a == b * b
    ensures a == b
  {
    assert (a - b) * (a + b) == 0.0;
    if a + b == 0.0 {
    } else {
      assert a - b == 0.0;
    }
  }

  /** sqrt(a) is THE non-negative root: any r >= 0 with r^2 == a equals it. */
  lemma SqrtUnique(lib: Libm, a: real, r: real)
    requires lib.SqrtLaw()
    requires r >= 0.0 && r * r == a
    ensures lib.sqrt(a) == r
  {
    assert a >= 0.0;
    SquareInjective(lib.sqrt(a), r);
  }

  lemma SqrtPositive(lib: Libm, a: real)
    requires lib.SqrtLaw() && a > 0.0
    ensures lib.sqrt(a) > 0.0
  {
    assert lib.sqrt(a) * lib.sqrt(a) == a;
  }

  /** sqrt maps [0, 1) into [0, 1). */
  lemma SqrtBelowOne(lib: Libm, a: real)
    requires lib.SqrtLaw() && 0.0 <= a < 1.0
    ensures 0.0 <= lib.sqrt(a) < 1.0
  {
    var s := lib.sqrt(a);
    if s >= 1.0 {
      assert s * s >= s;
    }
  }

  lemma SqrtAtMostOne(lib: Libm, a: real)
    requires lib.SqrtLaw() && 0.0 <= a <= 1.0
    ensures 0.0 <= lib.sqrt(a) <= 1.0
  {
    var s := lib.sqrt(a);
    if s > 1.0 {
      assert s * s > s;
    }
  }

  /** With the law, sqrt(a) is non-zero exactly when a is non-zero (a >= 0). */
  lemma SqrtZero(lib: Libm, a: real)
    requires lib.SqrtLaw() && a >= 0.0
    ensures lib.sqrt(a) == 0.0 <==> a == 0.0
  {
    var s := lib.sqrt(a);
    assert s * s == a;
    if s > 0.0 {
      calc {
        a;
        == s * s;
        > { MulPositive(s, s); } 0.0;
      }
    }
  }

  /** Equal arguments give equal roots; stated as a lemma so that an equality
      the arithmetic solver proves can be carried under sqrt. */
  lemma SqrtCongruence(lib: Libm, a: real, b: real)
    requires a == b
    ensures lib.sqrt(a) == lib.sqrt(b)
  {
  }

  lemma MulNonZero(a: real, b: real)
    requires a != 0.0 && b != 0.0
    ensures a * b != 0.0
  {
  }

  /** A product vanishes only when a factor does. */
  lemma MulZero(a: real, b: real)
    requires a * b == 0.0
    ensures a == 0.0 || b == 0.0
  {
    if a != 0.0 {
      assert b == (a * b) / a;
    }
  }

  lemma SquarePositive(a: real)
    requires a != 0.0
    ensures a * a > 0.0
  {
    if a > 0.0 {
      MulPositive(a, a);
    } else {
      MulPositive(-a, -a);
    }
  }

  lemma SquareNonNegative(a: real)
    ensures a * a >= 0.0
  {
    if a != 0.0 {
      SquarePositive(a);
    }
  }

  /** Two non-negative numbers summing to zero are both zero. */
  lemma NonNegativeSumZero(p: real, q: real)
    requires p >= 0.0 && q >= 0.0 && p + q == 0.0
    ensures p == 0.0 && q == 0.0
  {
  }

  /** Zero norm forces both squared components to vanish. */
  lemma NormSqZeroSquares(z: Complex)
    requires NormSq(z) == 0.0
    ensures z.re * z.re == 0.0 && z.im * z.im == 0.0
  {
    SquareNonNegative(z.re);
    SquareNonNegative(z.im);
    NonNegativeSumZero(z.re * z.re, z.im * z.im);
  }

  lemma SquaresZero(a: real, b: real)
    requires a * a == 0.0 && b * b == 0.0
    ensures a == 0.0 && b == 0.0
  {
    MulZero(a, a);
    MulZero(b, b);
  }

  /** A complex number has zero norm exactly when it is zero. */
  lemma NormSqZero(z: Complex)
    ensures NormSq(z) == 0.0 <==> z == Complex(0.0, 0.0)
  {
    if NormSq(z) == 0.0 {
      NormSqZeroSquares(z);
      SquaresZero(z.re, z.im);
    }
  }

  /** A point of the unit circle scaled by r lies on the circle of radius r. */
  lemma ScaledCircle(r: real, c: real, s: real)
    requires s * s + c * c == 1.0
    ensures (r * c) * (r * c) + (r * s) * (r * s) == r * r
  {
    assert (r * c) * (r * c) + (r * s) * (r * s) == r * r * (c * c + s * s);
  }

  lemma MulPositive(a: real, b: real)
    requires a > 0.0 && b > 0.0
    ensures a * b > 0.0
  {
  }
}
