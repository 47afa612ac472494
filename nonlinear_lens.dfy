/** The thin nonlinear lens of src/particles/elements/NonlinearLens.H: one
    short segment of the Danilov-Nagaitsev nonlinear magnetic insert (V.
    Danilov and S. Nagaitsev, Phys. Rev. ST Accel. Beams 13, 084002 (2010),
    section V.A), applied as a complex-valued momentum kick. */
module NonlinearLensElement {
  import opened Maths
  import opened Particles
  import opened ReferenceParticle

  /** A lens of integrated strength knll (m) whose singularities sit at
      distance cnll (m) from the axis. */
  datatype NonlinearLens = NonlinearLens(knll: real, cnll: real)
  {
    /** zeta = (x + i y) / cnll */
    function Zeta(ph: Phase): Complex
      requires cnll != 0.0
    {
      DivReal(Complex(ph.x, ph.y), cnll)
    }

    /** croot = sqrt(1 - zeta^2), the principal complex square root. */
    function Croot(lib: Libm, ph: Phase): Complex
      requires cnll != 0.0
    {
      lib.csqrt(Sub(One, Pow(Zeta(ph), 2)))
    }

    /** The argument i zeta + croot whose logarithm gives arcsin(zeta). */
    function ArcsinArgument(lib: Libm, ph: Phase): Complex
      requires cnll != 0.0
    {
      Add(Mul(I, Zeta(ph)), Croot(lib, ph))
    }

    /** Where the kick is defined: cnll is non-zero and croot, a divisor, is
        non-zero. */
    predicate InDomain(lib: Libm, ph: Phase)
    {
      cnll != 0.0 && NormSq(Croot(lib, ph)) != 0.0
    }

    /** F'(zeta) = zeta / croot^2 + arcsin(zeta) / croot^3, with
        arcsin(zeta) = -i log(i zeta + croot). */
    function DF(lib: Libm, ph: Phase): Complex
      requires InDomain(lib, ph)
    {
      var zeta := Zeta(ph);
      var croot := Croot(lib, ph);
      var carcsin := Mul(Complex(0.0, -1.0), lib.clog(ArcsinArgument(lib, ph)));
      NormSqNonNegative(croot);
      PowNonZero(croot, 2);
      PowNonZero(croot, 3);
      Add(Div(zeta, Pow(croot, 2)), Div(carcsin, Pow(croot, 3)))
    }

    /** The particle map: positions and pt are kept; with kick = -knll / cnll,
        px gains kick Re F' and py gains -kick Im F'.  The reference particle
        plays no part. */
    function Map(lib: Libm, ph: Phase): (r: Phase)
      requires InDomain(lib, ph)
      ensures r.x == ph.x && r.y == ph.y && r.t == ph.t && r.pt == ph.pt
    {
      var dF := DF(lib, ph);
      var kick := -knll / cnll;
      Phase(ph.x, ph.y, ph.t, ph.px + kick * dF.re, ph.py + -kick * dF.im, ph.pt)
    }

    /** Pushes one particle through the lens, in place; the reference particle
        is neither read nor written. */
    method Push(lib: Libm, p: Particle, refpart: RefPart)
      requires InDomain(lib, p.State())
      modifies p
      ensures p.State() == Map(lib, old(p.State()))
    {
      ghost var ph := p.State();
      var x, y, t := p.x, p.y, p.t;
      var pxout, pyout, ptout := p.px, p.py, p.pt;
      var dF := DF(lib, Phase(x, y, t, pxout, pyout, ptout));
      var kick := -knll / cnll;
      var dpx := kick * dF.re;
      var dpy := -kick * dF.im;
      p.x := x;
      pxout := pxout + dpx;
      p.y := y;
      pyout := pyout + dpy;
      p.t := t;
      p.px, p.py, p.pt := pxout, pyout, ptout;
      assert p.State() == Phase(ph.x, ph.y, ph.t, ph.px + kick * dF.re, ph.py + -kick * dF.im, ph.pt);
    }
  }

  /** A lens of zero strength is the identity. */
  lemma ZeroStrengthIsIdentity(lib: Libm, e: NonlinearLens, ph: Phase)
    requires e.InDomain(lib, ph) && e.knll == 0.0
    ensures e.Map(lib, ph) == ph
  {
    assert -e.knll / e.cnll == 0.0;
  }

  /** Two lenses with the same cnll add their strengths: the kick depends on
      x and y only, which neither lens changes. */
  lemma Superposition(lib: Libm, a: NonlinearLens, b: NonlinearLens, ph: Phase)
    requires a.InDomain(lib, ph) && b.cnll == a.cnll
    ensures b.InDomain(lib, a.Map(lib, ph))
    ensures NonlinearLens(a.knll + b.knll, a.cnll).Map(lib, ph) == b.Map(lib, a.Map(lib, ph))
  {
    var r := a.Map(lib, ph);
    var sum := NonlinearLens(a.knll + b.knll, a.cnll);
    assert b.Zeta(r) == a.Zeta(ph) == sum.Zeta(ph);
    var d := a.DF(lib, ph);
    assert b.DF(lib, r) == d == sum.DF(lib, ph);
    var ka, kb := -a.knll / a.cnll, -b.knll / a.cnll;
    assert -(a.knll + b.knll) / a.cnll == ka + kb;
    KicksAdd(ph.px, ph.py, ka, kb, d.re, d.im);
  }

  /** Kicks of two strengths applied in turn add up. */
  lemma KicksAdd(px: real, py: real, ka: real, kb: real, fx: real, fy: real)
    ensures px + (ka + kb) * fx == (px + ka * fx) + kb * fx
    ensures py + -(ka + kb) * fy == (py + -ka * fy) + -kb * fy
  {
  }

  /** The lens with the opposite strength undoes the kick. */
  lemma Reversible(lib: Libm, e: NonlinearLens, ph: Phase)
    requires e.InDomain(lib, ph)
    ensures NonlinearLens(-e.knll, e.cnll).InDomain(lib, e.Map(lib, ph))
    ensures NonlinearLens(-e.knll, e.cnll).Map(lib, e.Map(lib, ph)) == ph
  {
    Superposition(lib, e, NonlinearLens(-e.knll, e.cnll), ph);
    ZeroStrengthIsIdentity(lib, NonlinearLens(e.knll + -e.knll, e.cnll), ph);
  }

  /** z^2 is z times z. */
  lemma PowTwo(z: Complex)
    ensures Pow(z, 2) == Mul(z, z)
  {
    assert Pow(z, 1) == Mul(One, z) == z;
  }

  /** a^2 - b^2 = 1 and 2 a b = 0 hold exactly for a = 1 or a = -1 with b = 0. */
  lemma RealSquareIsOne(a: real, b: real)
    ensures (a * a - b * b == 1.0 && a * b + b * a == 0.0) <==> ((a == 1.0 || a == -1.0) && b == 0.0)
  {
    if a * a - b * b == 1.0 && a * b + b * a == 0.0 {
      MulZero(a, b);
      SquareNonNegative(b);
      assert a != 0.0;
      assert b == 0.0;
      assert (a - 1.0) * (a + 1.0) == 0.0;
      MulZero(a - 1.0, a + 1.0);
    }
  }

  /** z^2 = 1 exactly for z = 1 and z = -1. */
  lemma SquareIsOne(z: Complex)
    ensures Pow(z, 2) == One <==> (z.re == 1.0 || z.re == -1.0) && z.im == 0.0
  {
    PowTwo(z);
    var a, b := z.re, z.im;
    assert Mul(z, z) == Complex(a * a - b * b, a * b + b * a);
    assert Mul(z, z) == One <==> (a * a - b * b == 1.0 && a * b + b * a == 0.0);
    RealSquareIsOne(a, b);
  }

  /** a^2 - b^2 = 0 and 2 a b = 0 only at a = b = 0. */
  lemma RealSquareIsZero(a: real, b: real)
    requires a * a - b * b == 0.0 && a * b + b * a == 0.0
    ensures a == 0.0 && b == 0.0
  {
    MulZero(a, b);
    if a == 0.0 {
      MulZero(b, b);
    } else {
      MulZero(a, a);
    }
  }

  /** A complex number whose square is zero is zero. */
  lemma SquareZero(z: Complex)
    requires Mul(z, z) == Complex(0.0, 0.0)
    ensures z == Complex(0.0, 0.0)
  {
    var a, b := z.re, z.im;
    assert Mul(z, z).re == a * a - b * b && Mul(z, z).im == a * b + b * a;
    RealSquareIsZero(a, b);
  }

  /** zeta = 1 or zeta = -1 exactly at x = cnll or x = -cnll on y = 0. */
  lemma ZetaIsUnit(e: NonlinearLens, ph: Phase)
    requires e.cnll != 0.0
    ensures ((e.Zeta(ph).re == 1.0 || e.Zeta(ph).re == -1.0) && e.Zeta(ph).im == 0.0)
            <==> ((ph.x == e.cnll || ph.x == -e.cnll) && ph.y == 0.0)
  {
    assert e.Zeta(ph).re == ph.x / e.cnll && e.Zeta(ph).im == ph.y / e.cnll;
  }

  /** A square root vanishes exactly where its square does. */
  lemma RootZero(c: Complex, w: Complex)
    requires Mul(c, c) == w
    ensures c == Complex(0.0, 0.0) <==> w == Complex(0.0, 0.0)
  {
    if w == Complex(0.0, 0.0) {
      SquareZero(c);
    }
  }

  /** 1 - z^2 vanishes exactly where z^2 = 1. */
  lemma OneMinusZero(p: Complex)
    ensures Sub(One, p) == Complex(0.0, 0.0) <==> p == One
  {
  }

  /** The singularities of the lens: with the principal square root squaring
      back to its argument, croot vanishes exactly at x = cnll or x = -cnll on
      the line y = 0. */
  lemma Singularities(lib: Libm, e: NonlinearLens, ph: Phase)
    requires lib.ComplexSqrtLaw() && e.cnll != 0.0
    ensures NormSq(e.Croot(lib, ph)) == 0.0 <==> (ph.x == e.cnll || ph.x == -e.cnll) && ph.y == 0.0
  {
    var zeta := e.Zeta(ph);
    var w := Sub(One, Pow(zeta, 2));
    var croot := e.Croot(lib, ph);
    assert Mul(croot, croot) == w;
    NormSqZero(croot);
    RootZero(croot, w);
    OneMinusZero(Pow(zeta, 2));
    SquareIsOne(zeta);
    ZetaIsUnit(e, ph);
  }

  /** With croot = (p, q) and zeta = (a, b), croot^2 = 1 - zeta^2 makes
      (croot + i zeta)(croot - i zeta) = 1. */
  lemma ConjugateProduct(p: real, q: real, a: real, b: real)
    requires p * p - q * q == 1.0 - (a * a - b * b)
    requires p * q + q * p == -(a * b + b * a)
    ensures Mul(Complex(p - b, q + a), Complex(p + b, q - a)) == One
  {
    assert (p - b) * (p + b) - (q + a) * (q - a) == 1.0;
    assert (p - b) * (q - a) + (q + a) * (p + b) == 0.0;
  }

  /** For any w with w^2 = 1 - z^2, i z + w is non-zero: times w - i z it
      gives w^2 + z^2 = 1. */
  lemma ArgumentNonZero(w: Complex, z: Complex)
    requires Mul(w, w) == Sub(One, Mul(z, z))
    ensures Add(Mul(I, z), w) != Complex(0.0, 0.0)
  {
    var p, q, a, b := w.re, w.im, z.re, z.im;
    assert p * p - q * q == 1.0 - (a * a - b * b);
    assert p * q + q * p == -(a * b + b * a);
    assert Add(Mul(I, z), w) == Complex(p - b, q + a);
    ConjugateProduct(p, q, a, b);
  }

  /** The logarithm in the arcsine is never taken at zero: i zeta + croot
      times croot - i zeta is croot^2 + zeta^2 = 1. */
  lemma ArcsinArgumentNonZero(lib: Libm, e: NonlinearLens, ph: Phase)
    requires lib.ComplexSqrtLaw() && e.cnll != 0.0
    ensures e.ArcsinArgument(lib, ph) != Complex(0.0, 0.0)
  {
    var zeta := e.Zeta(ph);
    var croot := e.Croot(lib, ph);
    assert Mul(croot, croot) == Sub(One, Mul(zeta, zeta)) by {
      assert Mul(croot, croot) == Sub(One, Pow(zeta, 2));
      PowTwo(zeta);
    }
    ArgumentNonZero(croot, zeta);
  }
}
