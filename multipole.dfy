/** The general thin multipole of src/particles/elements/Multipole.H: a
    position-dependent kick (Kn + i Ks) (x + i y)^(m-1) / (m-1)! applied to the
    transverse momenta, with the factorial computed once by the constructor. */
module MultipoleElement {
  import opened Maths
  import opened Particles
  import opened ReferenceParticle

  /** The C++ `int` of the factorial field: a signed 32-bit integer. */
  newtype Int32 = n: int | -0x8000_0000 <= n < 0x8000_0000

  /** n! for n >= 0; 1 for every n <= 0, as the constructor's loop then runs no times. */
  function Factorial(n: int): (r: int)
    ensures r >= 1
  {
    if n <= 0 then 1 else n * Factorial(n - 1)
  }

  lemma {:induction false} FactorialMonotone(a: int, b: int)
    requires a <= b
    ensures Factorial(a) <= Factorial(b)
    decreases b - a
  {
    if a < b {
      FactorialMonotone(a, b - 1);
      if b > 0 {
        assert Factorial(b) == b * Factorial(b - 1) >= Factorial(b - 1);
      }
    }
  }

  lemma FactorialOfTwelve()
    ensures Factorial(12) == 479001600
  {
    assert Factorial(4) == 24;
    assert Factorial(8) == 40320;
  }

  /** (m - 1)! fits the 32-bit factorial field for every multipole index up to 13. */
  lemma FactorialFitsInt32(n: int)
    requires n <= 12
    ensures Factorial(n) < 0x8000_0000
  {
    FactorialMonotone(n, 12);
    FactorialOfTwelve();
  }

  /** ... and no further: 13! overflows a 32-bit int, so index 14 is out of range. */
  lemma FactorialOverflowsAtThirteen()
    ensures Factorial(13) >= 0x8000_0000
  {
    FactorialOfTwelve();
  }

  /** A thin multipole: the index m (1 dipole, 2 quadrupole, 3 sextupole, ...),
      (m - 1)! and the integrated normal and skew coefficients (1/m^m). */
  datatype Multipole = Multipole(multipole: int, mfactorial: Int32, kn: real, ks: real)
  {
    /** What the constructor establishes, for an index the kick is defined for. */
    predicate Valid()
    {
      1 <= multipole && mfactorial as int == Factorial(multipole - 1)
    }

    /** The complex kick (Kn + i Ks) (x + i y)^(m-1), before the factorial. */
    function Kick(x: real, y: real): Complex
      requires multipole >= 1
    {
      Mul(Pow(Complex(x, y), (multipole - 1) as nat), Complex(kn, ks))
    }

    /** The particle map: positions and pt are kept, px takes -Re(kick)/(m-1)!
        and py takes Im(kick)/(m-1)!. */
    function Map(ph: Phase): (r: Phase)
      requires Valid()
      ensures r.x == ph.x && r.y == ph.y && r.t == ph.t && r.pt == ph.pt
    {
      var kick := Kick(ph.x, ph.y);
      var f := mfactorial as real;
      Phase(ph.x, ph.y, ph.t, ph.px + -1.0 * kick.re / f, ph.py + kick.im / f, ph.pt)
    }

    /** Pushes one particle through the multipole, in place; the reference
        particle is neither read nor written. */
    method Push(p: Particle, refpart: RefPart)
      requires Valid()
      modifies p
      ensures p.State() == Map(old(p.State()))
    {
      var x, y, t := p.x, p.y, p.t;
      var pxout, pyout, ptout := p.px, p.py, p.pt;
      var zeta := Complex(x, y);
      var alpha := Complex(kn, ks);
      var m: nat := multipole - 1;
      var kick := Pow(zeta, m);
      kick := Mul(kick, alpha);
      assert kick == Kick(x, y);
      var dpx := -1.0 * kick.re / (mfactorial as real);
      var dpy := kick.im / (mfactorial as real);
      p.x := x;
      pxout := pxout + dpx;
      p.y := y;
      pyout := pyout + dpy;
      p.t := t;
      p.px, p.py, p.pt := pxout, pyout, ptout;
    }
  }

  /** The constructor: stores the index and coefficients and accumulates
      (multipole - 1)! in a 32-bit int, which cannot overflow for index <= 13. */
  method NewMultipole(multipole: int, kn: real, ks: real) returns (e: Multipole)
    requires multipole <= 13
    ensures e.multipole == multipole && e.kn == kn && e.ks == ks
    ensures e.mfactorial as int == Factorial(multipole - 1)
    ensures multipole >= 1 ==> e.Valid()
  {
    var m := multipole - 1;
    var mfactorial: Int32 := 1;
    var n := 1;
    while n < m + 1
      invariant 1 <= n && (m >= 0 ==> n <= m + 1) && (m < 0 ==> n == 1)
      invariant mfactorial as int == Factorial(n - 1)
      decreases m + 1 - n
    {
      FactorialFitsInt32(n);
      mfactorial := mfactorial * (n as Int32);
      n := n + 1;
    }
    e := Multipole(multipole, mfactorial, kn, ks);
  }

  /** A dipole kicks every particle by the same amount: px by -Kn, py by +Ks. */
  lemma DipoleKick(e: Multipole, ph: Phase)
    requires e.Valid() && e.multipole == 1
    ensures e.Map(ph).px == ph.px - e.kn && e.Map(ph).py == ph.py + e.ks
  {
    assert Factorial(0) == 1;
    assert Pow(Complex(ph.x, ph.y), 0) == One;
  }

  /** A quadrupole kicks linearly: px by -(Kn x - Ks y), py by Kn y + Ks x. */
  lemma QuadrupoleKick(e: Multipole, ph: Phase)
    requires e.Valid() && e.multipole == 2
    ensures e.Map(ph).px == ph.px - (e.kn * ph.x - e.ks * ph.y)
    ensures e.Map(ph).py == ph.py + (e.kn * ph.y + e.ks * ph.x)
  {
    assert Factorial(1) == 1;
    var zeta := Complex(ph.x, ph.y);
    assert Pow(zeta, 1) == Mul(One, zeta);
  }

  /** Kicks of two multipoles of the same order add: applying one after the
      other equals the single multipole with summed coefficients (the kick
      depends only on x and y, which neither changes). */
  lemma Superposition(a: Multipole, b: Multipole, ph: Phase)
    requires a.Valid() && b.multipole == a.multipole && b.mfactorial == a.mfactorial
    ensures b.Valid()
    ensures Multipole(a.multipole, a.mfactorial, a.kn + b.kn, a.ks + b.ks).Map(ph) == b.Map(a.Map(ph))
  {
    var sum := Multipole(a.multipole, a.mfactorial, a.kn + b.kn, a.ks + b.ks);
    var z := Pow(Complex(ph.x, ph.y), (a.multipole - 1) as nat);
    var mid := a.Map(ph);
    assert mid.x == ph.x && mid.y == ph.y;
    var ka, kb := a.Kick(ph.x, ph.y), b.Kick(ph.x, ph.y);
    assert b.Kick(mid.x, mid.y) == kb;
    MulDistributes(z, a.kn, a.ks, b.kn, b.ks);
    assert sum.Kick(ph.x, ph.y) == Complex(ka.re + kb.re, ka.im + kb.im);
    var f := a.mfactorial as real;
    assert f >= 1.0;
    QuotientsAdd(ph.px, -1.0 * ka.re, -1.0 * kb.re, f);
    assert -1.0 * (ka.re + kb.re) == -1.0 * ka.re + -1.0 * kb.re;
    QuotientsAdd(ph.py, ka.im, kb.im, f);
  }

  /** Complex multiplication distributes over a sum in its second factor. */
  lemma MulDistributes(z: Complex, p: real, q: real, r: real, s: real)
    ensures Mul(z, Complex(p + r, q + s)) == Add(Mul(z, Complex(p, q)), Mul(z, Complex(r, s)))
  {
    assert z.re * (p + r) == z.re * p + z.re * r;
    assert z.im * (q + s) == z.im * q + z.im * s;
    assert z.re * (q + s) == z.re * q + z.re * s;
    assert z.im * (p + r) == z.im * p + z.im * r;
  }

  /** Two kicks divided by the same factor add up to the summed kick. */
  lemma QuotientsAdd(p: real, u: real, v: real, f: real)
    requires f != 0.0
    ensures p + (u + v) / f == (p + u / f) + v / f
  {
  }

  /** Zero coefficients make the multipole the identity. */
  lemma ZeroStrengthIsIdentity(e: Multipole, ph: Phase)
    requires e.Valid() && e.kn == 0.0 && e.ks == 0.0
    ensures e.Map(ph) == ph
  {
    assert e.Kick(ph.x, ph.y) == Complex(0.0, 0.0);
  }

  /** The multipole with negated coefficients undoes the kick. */
  lemma Reversible(e: Multipole, ph: Phase)
    requires e.Valid()
    ensures Multipole(e.multipole, e.mfactorial, -e.kn, -e.ks).Map(e.Map(ph)) == ph
  {
    var back := Multipole(e.multipole, e.mfactorial, -e.kn, -e.ks);
    Superposition(e, back, ph);
    ZeroStrengthIsIdentity(Multipole(e.multipole, e.mfactorial, e.kn + -e.kn, e.ks + -e.ks), ph);
  }

  /** A power of a real number is real. */
  lemma {:induction false} PowOfReal(x: real, n: nat)
    ensures Pow(Complex(x, 0.0), n).im == 0.0
  {
    if n > 0 {
      PowOfReal(x, n - 1);
    }
  }

  /** Midplane symmetry: a normal multipole (Ks = 0) gives no vertical kick to
      a particle in the plane y = 0. */
  lemma NormalMultipoleMidplane(e: Multipole, ph: Phase)
    requires e.Valid() && e.ks == 0.0 && ph.y == 0.0
    ensures e.Map(ph).py == ph.py
  {
    PowOfReal(ph.x, (e.multipole - 1) as nat);
  }
}
