/** The chromatic quadrupole (ChrQuad.H): a thick quadrupole whose transverse
    map keeps the exact dependence of the focusing on the particle's energy
    deviation pt, together with the matching time-of-flight update and the
    straight-line push of the reference particle. */
module ChrQuadElement {
  import opened Maths
  import opened Particles
  import opened ReferenceParticle

  /** A 2x2 real matrix [[a, b], [c, d]] acting on one plane's (q, p). */
  datatype Mat2 = Mat2(a: real, b: real, c: real, d: real)

  /** Position and momentum in one transverse plane. */
  datatype Pair = Pair(q: real, p: real)

  const Identity: Mat2 := Mat2(1.0, 0.0, 0.0, 1.0)

  function Apply(m: Mat2, v: Pair): Pair
  {
    Pair(m.a * v.q + m.b * v.p, m.c * v.q + m.d * v.p)
  }

  /** The product m2 * m1 (first m1, then m2). */
  function Compose(m2: Mat2, m1: Mat2): Mat2
  {
    Mat2(m2.a * m1.a + m2.b * m1.c, m2.a * m1.b + m2.b * m1.d,
         m2.c * m1.a + m2.d * m1.c, m2.c * m1.b + m2.d * m1.d)
  }

  function Det(m: Mat2): real
  {
    m.a * m.d - m.b * m.c
  }

  /** Applying two matrices in turn is applying their product. */
  lemma ApplyCompose(m2: Mat2, m1: Mat2, v: Pair)
    ensures Apply(m2, Apply(m1, v)) == Apply(Compose(m2, m1), v)
  {
    var u := Apply(m1, v);
    calc {
      m2.a * u.q + m2.b * u.p;
      == m2.a * (m1.a * v.q + m1.b * v.p) + m2.b * (m1.c * v.q + m1.d * v.p);
      == (m2.a * m1.a + m2.b * m1.c) * v.q + (m2.a * m1.b + m2.b * m1.d) * v.p;
    }
    calc {
      m2.c * u.q + m2.d * u.p;
      == m2.c * (m1.a * v.q + m1.b * v.p) + m2.d * (m1.c * v.q + m1.d * v.p);
      == (m2.c * m1.a + m2.d * m1.c) * v.q + (m2.c * m1.b + m2.d * m1.d) * v.p;
    }
  }

  /** Transfer matrix of the focusing plane over phase advance theta, where w is
      omega * (delta + 1): q' = cos(theta) q + sin(theta)/w p,
      p' = -w sin(theta) q + cos(theta) p. */
  function FocusMatrix(lib: Libm, theta: real, w: real): Mat2
    requires w != 0.0
  {
    Mat2(lib.cos(theta), lib.sin(theta) / w, -w * lib.sin(theta), lib.cos(theta))
  }

  /** Transfer matrix of the defocusing plane: the same with cosh and sinh and
      the sign of the momentum kick reversed. */
  function DefocusMatrix(lib: Libm, theta: real, w: real): Mat2
    requires w != 0.0
  {
    Mat2(lib.cosh(theta), lib.sinh(theta) / w, w * lib.sinh(theta), lib.cosh(theta))
  }

  /** Both plane matrices have determinant one: each preserves phase-space area. */
  lemma PlaneMatricesAreAreaPreserving(lib: Libm, theta: real, w: real)
    requires w != 0.0
    requires lib.Pythagoras() && lib.HyperbolicPythagoras()
    ensures Det(FocusMatrix(lib, theta, w)) == 1.0
    ensures Det(DefocusMatrix(lib, theta, w)) == 1.0
  {
    var c, s := lib.cos(theta), lib.sin(theta);
    var ch, sh := lib.cosh(theta), lib.sinh(theta);
    assert (s / w) * (-w * s) == -(s * s);
    assert (sh / w) * (w * sh) == sh * sh;
  }

  /** The Pythagorean identities at theta, and the values at back = -theta:
      cos and cosh even, sin and sinh odd. */
  ghost predicate ReflectedValues(lib: Libm, theta: real, back: real)
  {
    lib.sin(theta) * lib.sin(theta) + lib.cos(theta) * lib.cos(theta) == 1.0 &&
    lib.cosh(theta) * lib.cosh(theta) - lib.sinh(theta) * lib.sinh(theta) == 1.0 &&
    lib.cos(back) == lib.cos(theta) && lib.sin(back) == -lib.sin(theta) &&
    lib.cosh(back) == lib.cosh(theta) && lib.sinh(back) == -lib.sinh(theta)
  }

  /** The laws of the maths library give those values for every theta. */
  lemma Reflected(lib: Libm, theta: real, back: real)
    requires theta + back == 0.0
    requires lib.Pythagoras() && lib.HyperbolicPythagoras() && lib.Parity()
    ensures ReflectedValues(lib, theta, back)
  {
  }

  /** The focusing-plane matrix for -theta undoes the one for theta. */
  lemma FocusMatrixInverts(lib: Libm, theta: real, back: real, w: real)
    requires w != 0.0 && ReflectedValues(lib, theta, back)
    ensures Compose(FocusMatrix(lib, back, w), FocusMatrix(lib, theta, w)) == Identity
  {
    var c, s := lib.cos(theta), lib.sin(theta);
    assert FocusMatrix(lib, back, w) == Mat2(c, -s / w, -w * -s, c);
    assert FocusMatrix(lib, theta, w) == Mat2(c, s / w, -w * s, c);
    RotationEntries(c, s, w);
  }

  /** The defocusing-plane matrix for -theta undoes the one for theta. */
  lemma DefocusMatrixInverts(lib: Libm, theta: real, back: real, w: real)
    requires w != 0.0 && ReflectedValues(lib, theta, back)
    ensures Compose(DefocusMatrix(lib, back, w), DefocusMatrix(lib, theta, w)) == Identity
  {
    var ch, sh := lib.cosh(theta), lib.sinh(theta);
    assert DefocusMatrix(lib, back, w) == Mat2(ch, -sh / w, w * -sh, ch);
    assert DefocusMatrix(lib, theta, w) == Mat2(ch, sh / w, w * sh, ch);
    BoostEntries(ch, sh, w);
  }

  lemma RotationEntries(c: real, s: real, w: real)
    requires w != 0.0 && s * s + c * c == 1.0
    ensures Compose(Mat2(c, -s / w, -w * -s, c), Mat2(c, s / w, -w * s, c)) == Identity
  {
    QuotientProduct(-s, -w * s, w, s * s);
    QuotientProduct(s, -w * -s, w, s * s);
    assert c * (s / w) + (-s / w) * c == 0.0;
  }

  lemma BoostEntries(ch: real, sh: real, w: real)
    requires w != 0.0 && ch * ch - sh * sh == 1.0
    ensures Compose(Mat2(ch, -sh / w, w * -sh, ch), Mat2(ch, sh / w, w * sh, ch)) == Identity
  {
    QuotientProduct(-sh, w * sh, w, -(sh * sh));
    QuotientProduct(sh, w * -sh, w, -(sh * sh));
    assert ch * (sh / w) + (-sh / w) * ch == 0.0;
  }

  /** (u / w) * v == r whenever u * v == r * w. */
  lemma QuotientProduct(u: real, v: real, w: real, r: real)
    requires w != 0.0 && u * v == r * w
    ensures (u / w) * v == r
  {
  }

  /** 1 - 2 pt / beta + pt^2, the square of delta + 1. */
  function Radicand(beta: real, pt: real): real
    requires beta != 0.0
  {
    1.0 - 2.0 * pt / beta + pt * pt
  }

  /** delta + 1, the particle's momentum relative to the reference momentum:
      the positive root of the radicand. */
  function Delta1(lib: Libm, beta: real, pt: real): (d1: real)
    requires lib.SqrtLaw() && beta != 0.0 && Radicand(beta, pt) > 0.0
    ensures d1 > 0.0 && d1 * d1 == Radicand(beta, pt)
  {
    SqrtPositive(lib, Radicand(beta, pt));
    lib.sqrt(Radicand(beta, pt))
  }

  /** omega = sqrt(|g| / (delta + 1)), the phase advance per unit length. */
  function Omega(lib: Libm, g: real, d1: real): (omega: real)
    requires lib.SqrtLaw() && g != 0.0 && d1 > 0.0
    ensures omega > 0.0 && omega * omega * d1 == Abs(g)
  {
    var a := Abs(g) / d1;
    assert a > 0.0;
    SqrtPositive(lib, a);
    lib.sqrt(a)
  }

  /** The new t: a chromatic drift t0 plus the chromatic factor times the
      quadrature of the transverse action, written with the focusing-plane
      coordinates (q1, p1) and the defocusing-plane coordinates (q2, p2) on
      entry. */
  function TimeOfFlight(lib: Libm, bet: real, pt: real, d1: real, omega: real, len: real,
                        t: real, q1: real, p1: real, q2: real, p2: real): real
    requires bet != 0.0 && d1 > 0.0 && omega > 0.0
  {
    var delta := d1 - 1.0;
    var term := pt + delta / bet;
    var t0 := t - term * len / d1;
    t0 + ChromaticFactor(bet, pt, d1, omega) * Quadrature(lib, d1, omega, len, q1, p1, q2, p2)
  }

  /** (-1 + beta pt) / (8 beta (delta + 1)^3 omega) */
  function ChromaticFactor(bet: real, pt: real, d1: real, omega: real): real
    requires bet != 0.0 && d1 > 0.0 && omega > 0.0
  {
    var cube := d1 * d1 * d1;
    assert cube > 0.0 by { MulPositive(d1, d1); MulPositive(d1 * d1, d1); }
    var den := 8.0 * bet * cube * omega;
    assert den != 0.0 by { MulNonZero(8.0 * bet, cube); MulNonZero(8.0 * bet * cube, omega); }
    (-1.0 + bet * pt) / den
  }

  /** The five terms of the transverse quadrature, with w = omega (delta + 1). */
  function Quadrature(lib: Libm, d1: real, omega: real, len: real,
                      q1: real, p1: real, q2: real, p2: real): real
  {
    var w := omega * d1;
    var term1 := -(p2 * p2 + q2 * q2 * (w * w)) * lib.sinh(2.0 * len * omega);
    var term2 := -(p1 * p1 - q1 * q1 * (w * w)) * lib.sin(2.0 * len * omega);
    var term3 := -2.0 * q2 * p2 * w * lib.cosh(2.0 * len * omega);
    var term4 := -2.0 * q1 * p1 * w * lib.cos(2.0 * len * omega);
    var term5 := 2.0 * omega * (q1 * p1 * d1 + q2 * p2 * d1
                 - (p1 * p1 + p2 * p2) * len - (q1 * q1 - q2 * q2) * (w * w) * len);
    term1 + term2 + term3 + term4 + term5
  }

  /** The particle map over a slice of length len for strength g != 0, given
      beta, delta + 1 and omega.  For g > 0 the x plane focuses and the y plane
      defocuses; otherwise the roles swap, and so do the coordinates handed to
      the time-of-flight quadrature.  pt is left unchanged. */
  function SliceMap(lib: Libm, g: real, bet: real, d1: real, omega: real, len: real, ph: Phase): (r: Phase)
    requires bet != 0.0 && d1 > 0.0 && omega > 0.0
    ensures r.pt == ph.pt
  {
    var w := omega * d1;
    assert w > 0.0 by { MulPositive(omega, d1); }
    if g > 0.0 then
      var xs := Apply(FocusMatrix(lib, omega * len, w), Pair(ph.x, ph.px));
      var ys := Apply(DefocusMatrix(lib, omega * len, w), Pair(ph.y, ph.py));
      Phase(xs.q, ys.q, TimeOfFlight(lib, bet, ph.pt, d1, omega, len, ph.t, ph.x, ph.px, ph.y, ph.py),
            xs.p, ys.p, ph.pt)
    else
      var xs := Apply(DefocusMatrix(lib, omega * len, w), Pair(ph.x, ph.px));
      var ys := Apply(FocusMatrix(lib, omega * len, w), Pair(ph.y, ph.py));
      Phase(xs.q, ys.q, TimeOfFlight(lib, bet, ph.pt, d1, omega, len, ph.t, ph.y, ph.py, ph.x, ph.px),
            xs.p, ys.p, ph.pt)
  }

  /** A chromatic quadrupole segment: length ds (m), strength k (1/m^2 when
      unit == 0, T/m when unit == 1) and the number of slices. */
  datatype ChrQuad = ChrQuad(ds: real, k: real, unit: int, nslice: int)
  {
    /** The length of one slice. */
    function SliceLength(): real
      requires nslice != 0
    {
      ds / (nslice as real)
    }

    /** The focusing strength in 1/m^2: k itself, or k divided by the
        reference particle's rigidity when given in T/m. */
    function Strength(rigidity: real): real
      requires unit == 1 ==> rigidity != 0.0
    {
      if unit == 1 then k / rigidity else k
    }

    /** Where the particle map is defined: a slice length exists, beta and (for
        unit 1) the rigidity are non-zero, the strength is non-zero (omega
        appears in denominators) and delta + 1 is real and positive. */
    predicate InDomain(beta: real, rigidity: real, pt: real)
    {
      nslice != 0 && beta != 0.0 && (unit == 1 ==> rigidity != 0.0) &&
      Strength(rigidity) != 0.0 && Radicand(beta, pt) > 0.0
    }

    /** The particle map over one slice, given the reference particle's beta
        and rigidity. */
    function Map(lib: Libm, beta: real, rigidity: real, ph: Phase): (r: Phase)
      requires lib.SqrtLaw() && InDomain(beta, rigidity, ph.pt)
      ensures r.pt == ph.pt
    {
      var g := Strength(rigidity);
      var d1 := Delta1(lib, beta, ph.pt);
      SliceMap(lib, g, beta, d1, Omega(lib, g, d1), SliceLength(), ph)
    }

    /** Pushes one particle through one slice, in place. */
    method Push(lib: Libm, p: Particle, refpart: RefPart)
      requires lib.SqrtLaw() && refpart.pt != 0.0
      requires InDomain(refpart.Beta(lib), refpart.RigidityTm(lib), p.pt)
      modifies p
      ensures p.State() == Map(lib, refpart.Beta(lib), refpart.RigidityTm(lib), old(p.State()))
    {
      var pt := p.pt;
      var sliceDs := SliceLength();
      var bet := refpart.Beta(lib);
      var g := k;
      if unit == 1 {
        g := k / refpart.RigidityTm(lib);
      }
      var delta1 := Delta1(lib, bet, pt);
      var omega := Omega(lib, g, delta1);
      var r := SliceMap(lib, g, bet, delta1, omega, sliceDs, p.State());
      p.x, p.y, p.t := r.x, r.y, r.t;
      p.px, p.py, p.pt := r.px, r.py, r.pt;
    }

    /** Pushes the reference particle through one slice along a straight line:
        positions advance by step times the momenta with
        step = slice / sqrt(pt^2 - 1), t falls by step * pt and s grows by the
        slice length; momenta, mass and charge are untouched. */
    method PushReference(lib: Libm, refpart: RefPart)
      requires nslice != 0
      requires lib.SqrtLaw() && Abs(refpart.pt) > 1.0
      modifies refpart
      ensures refpart.x == old(refpart.x) + RefStep(lib, SliceLength(), old(refpart.pt)) * old(refpart.px)
      ensures refpart.y == old(refpart.y) + RefStep(lib, SliceLength(), old(refpart.pt)) * old(refpart.py)
      ensures refpart.z == old(refpart.z) + RefStep(lib, SliceLength(), old(refpart.pt)) * old(refpart.pz)
      ensures refpart.t == old(refpart.t) - RefStep(lib, SliceLength(), old(refpart.pt)) * old(refpart.pt)
      ensures refpart.s == old(refpart.s) + SliceLength()
      ensures refpart.px == old(refpart.px) && refpart.py == old(refpart.py)
      ensures refpart.pz == old(refpart.pz) && refpart.pt == old(refpart.pt)
      ensures refpart.mass == old(refpart.mass) && refpart.charge == old(refpart.charge)
      ensures refpart.sedge == old(refpart.sedge)
    {
      var x, px, y, py := refpart.x, refpart.px, refpart.y, refpart.py;
      var z, pz, t, pt := refpart.z, refpart.pz, refpart.t, refpart.pt;
      var s := refpart.s;
      var sliceDs := SliceLength();
      var step := RefStep(lib, sliceDs, pt);
      refpart.x := x + step * px;
      refpart.y := y + step * py;
      refpart.z := z + step * pz;
      refpart.t := t - step * pt;
      refpart.s := s + sliceDs;
    }
  }

  /** The reference particle's step parameter len / sqrt(pt^2 - 1). */
  function RefStep(lib: Libm, len: real, pt: real): real
    requires lib.SqrtLaw() && Abs(pt) > 1.0
  {
    SquareAboveOne(pt);
    SqrtPositive(lib, pt * pt - 1.0);
    len / lib.sqrt(pt * pt - 1.0)
  }

  lemma SquareAboveOne(a: real)
    requires Abs(a) > 1.0
    ensures a * a > 1.0
  {
    if a > 1.0 {
      assert a * a > a;
    } else {
      assert a * a > -a;
    }
  }

  /** For a reference particle moving along the axis (pz = sqrt(pt^2 - 1),
      gamma > 1), one slice advances z by exactly the slice length and t by
      the slice length over beta. */
  lemma RefStepAdvancesBySlice(lib: Libm, len: real, pt: real)
    requires lib.SqrtLaw() && pt < -1.0
    ensures Abs(pt) > 1.0
    ensures RefStep(lib, len, pt) * OnAxisPz(lib, pt) == len
    ensures BetaOf(lib, -pt) > 0.0 && -RefStep(lib, len, pt) * pt == len / BetaOf(lib, -pt)
  {
    var g := -pt;
    assert RefStep(lib, len, pt) == len / lib.sqrt(pt * pt - 1.0);
    assert OnAxisPz(lib, pt) == lib.sqrt(pt * pt - 1.0);
    var root := OnAxisPz(lib, pt);
    SquareAboveOne(pt);
    SqrtPositive(lib, pt * pt - 1.0);
    OnAxisPzIsBetaGamma(lib, pt);
    BetaBelowOne(lib, g);
    RootIdentity(lib, g);
    QuotientTimes(len, BetaOf(lib, g), g, root);
  }

  /** (len / (b g)) g == len / b */
  lemma QuotientTimes(len: real, b: real, g: real, root: real)
    requires b > 0.0 && g > 0.0 && b * g == root
    ensures root > 0.0 && (len / root) * root == len && (len / root) * g == len / b
  {
    MulPositive(b, g);
  }

  lemma NegDiv(a: real, b: real)
    requires b != 0.0
    ensures (-a) / b == -(a / b)
  {
  }

  /** The two strength conventions agree: a unit-1 quadrupole of strength k
      acts exactly as a unit-0 quadrupole of strength k / rigidity. */
  lemma UnitConventionsAgree(lib: Libm, q: ChrQuad, beta: real, rigidity: real, ph: Phase)
    requires lib.SqrtLaw() && q.unit == 1 && q.InDomain(beta, rigidity, ph.pt)
    ensures ChrQuad(q.ds, q.k / rigidity, 0, q.nslice).InDomain(beta, rigidity, ph.pt)
    ensures q.Map(lib, beta, rigidity, ph) == ChrQuad(q.ds, q.k / rigidity, 0, q.nslice).Map(lib, beta, rigidity, ph)
  {
    var q0 := ChrQuad(q.ds, q.k / rigidity, 0, q.nslice);
    assert q0.Strength(rigidity) == q.Strength(rigidity);
    assert q0.SliceLength() == q.SliceLength();
  }

  /** Swaps the x and y planes. */
  function SwapPlanes(ph: Phase): Phase
  {
    Phase(ph.y, ph.x, ph.t, ph.py, ph.px, ph.pt)
  }

  /** omega depends on the strength only through its magnitude. */
  lemma OmegaEven(lib: Libm, g: real, d1: real)
    requires lib.SqrtLaw() && g != 0.0 && d1 > 0.0
    ensures Omega(lib, -g, d1) == Omega(lib, g, d1)
  {
    assert Abs(-g) == Abs(g);
  }

  lemma SliceMapMirror(lib: Libm, g: real, bet: real, d1: real, omega: real, len: real, ph: Phase)
    requires g != 0.0 && bet != 0.0 && d1 > 0.0 && omega > 0.0
    ensures SliceMap(lib, -g, bet, d1, omega, len, SwapPlanes(ph)) == SwapPlanes(SliceMap(lib, g, bet, d1, omega, len, ph))
  {
  }

  /** Reversing the sign of the strength is the same as exchanging the planes:
      the map with -k on the swapped particle is the swapped map with k. */
  lemma MirrorSymmetry(lib: Libm, q: ChrQuad, beta: real, rigidity: real, ph: Phase)
    requires lib.SqrtLaw() && q.InDomain(beta, rigidity, ph.pt)
    ensures ChrQuad(q.ds, -q.k, q.unit, q.nslice).InDomain(beta, rigidity, ph.pt)
    ensures ChrQuad(q.ds, -q.k, q.unit, q.nslice).Map(lib, beta, rigidity, SwapPlanes(ph))
            == SwapPlanes(q.Map(lib, beta, rigidity, ph))
  {
    var m := ChrQuad(q.ds, -q.k, q.unit, q.nslice);
    var g := q.Strength(rigidity);
    if q.unit == 1 {
      NegDiv(q.k, rigidity);
    }
    assert m.Strength(rigidity) == -g;
    var d1 := Delta1(lib, beta, ph.pt);
    OmegaEven(lib, g, d1);
    SliceMapMirror(lib, g, beta, d1, Omega(lib, g, d1), q.SliceLength(), ph);
  }

  /** The planes are decoupled: the new (x, px) depend only on the old (x, px)
      and pt, and the new (y, py) only on the old (y, py) and pt. */
  lemma PlanesDecoupled(lib: Libm, q: ChrQuad, beta: real, rigidity: real, a: Phase, b: Phase)
    requires lib.SqrtLaw() && q.InDomain(beta, rigidity, a.pt) && b.pt == a.pt
    ensures a.x == b.x && a.px == b.px ==>
      q.Map(lib, beta, rigidity, a).x == q.Map(lib, beta, rigidity, b).x &&
      q.Map(lib, beta, rigidity, a).px == q.Map(lib, beta, rigidity, b).px
    ensures a.y == b.y && a.py == b.py ==>
      q.Map(lib, beta, rigidity, a).y == q.Map(lib, beta, rigidity, b).y &&
      q.Map(lib, beta, rigidity, a).py == q.Map(lib, beta, rigidity, b).py
  {
  }

  /** A particle on the axis with no transverse momentum stays there; its t
      only takes the chromatic drift term. */
  lemma OnAxisStaysOnAxis(lib: Libm, q: ChrQuad, beta: real, rigidity: real, ph: Phase)
    requires lib.SqrtLaw() && q.InDomain(beta, rigidity, ph.pt)
    requires ph.x == 0.0 && ph.y == 0.0 && ph.px == 0.0 && ph.py == 0.0
    ensures var r := q.Map(lib, beta, rigidity, ph);
      var d1 := Delta1(lib, beta, ph.pt);
      r.x == 0.0 && r.y == 0.0 && r.px == 0.0 && r.py == 0.0 &&
      r.t == ph.t - (ph.pt + (d1 - 1.0) / beta) * q.SliceLength() / d1
  {
  }

  /** The oscillating part of the time-of-flight quadrature in the focusing
      plane, for a = w q, b = p, s2 = sin(2 theta) and c2 = cos(2 theta). */
  function FocusWave(a: real, b: real, s2: real, c2: real): real
  {
    (a * a - b * b) * s2 - 2.0 * a * b * c2 + 2.0 * a * b
  }

  /** The same for the defocusing plane, with sh2 = sinh(2 theta) and
      ch2 = cosh(2 theta). */
  function DefocusWave(a: real, b: real, sh2: real, ch2: real): real
  {
    -(a * a + b * b) * sh2 - 2.0 * a * b * ch2 + 2.0 * a * b
  }

  /** The quadrature regrouped by plane: an oscillating part per plane, over
      the doubled phase advance u = 2 len omega, minus a part linear in the
      length, 2 omega len times the focusing-plane energy p1^2 + (w q1)^2 plus
      the defocusing-plane p2^2 - (w q2)^2. */
  lemma QuadratureSplit(lib: Libm, d1: real, omega: real, len: real, u: real,
                        q1: real, p1: real, q2: real, p2: real)
    requires u == 2.0 * len * omega
    ensures Quadrature(lib, d1, omega, len, q1, p1, q2, p2) ==
      FocusWave(omega * d1 * q1, p1, lib.sin(u), lib.cos(u)) + DefocusWave(omega * d1 * q2, p2, lib.sinh(u), lib.cosh(u))
      - 2.0 * omega * len * (p1 * p1 + (omega * d1 * q1) * (omega * d1 * q1) + (p2 * p2 - (omega * d1 * q2) * (omega * d1 * q2)))
  {
    QuadratureRegrouped(q1, p1, q2, p2, omega, d1, len, lib.sin(u), lib.cos(u), lib.sinh(u), lib.cosh(u));
  }

  /** The polynomial identity behind QuadratureSplit, with the circular and
      hyperbolic values as plain reals. */
  lemma QuadratureRegrouped(q1: real, p1: real, q2: real, p2: real, omega: real, d1: real, len: real,
                            s2: real, c2: real, sh2: real, ch2: real)
    ensures var w := omega * d1;
      -(p2 * p2 + q2 * q2 * (w * w)) * sh2 + -(p1 * p1 - q1 * q1 * (w * w)) * s2
      + -2.0 * q2 * p2 * w * ch2 + -2.0 * q1 * p1 * w * c2
      + 2.0 * omega * (q1 * p1 * d1 + q2 * p2 * d1
                       - (p1 * p1 + p2 * p2) * len - (q1 * q1 - q2 * q2) * (w * w) * len)
      == FocusWave(w * q1, p1, s2, c2) + DefocusWave(w * q2, p2, sh2, ch2)
         - 2.0 * omega * len * (p1 * p1 + (w * q1) * (w * q1) + (p2 * p2 - (w * q2) * (w * q2)))
  {
  }

  /** Over a phase advance theta with c = cos theta and s = sin theta, the
      focusing-plane wave equals 2 a b minus its value 2 a' b' after the
      rotation (a, b) -> (a', b') = (c a + s b, -s a + c b). */
  lemma FocusWaveDrop(a: real, b: real, c: real, s: real, s2: real, c2: real, a': real, b': real)
    requires s2 == 2.0 * s * c && c2 == c * c - s * s
    requires a' == c * a + s * b && b' == -s * a + c * b
    ensures FocusWave(a, b, s2, c2) == 2.0 * a * b - 2.0 * a' * b'
  {
  }

  /** The hyperbolic counterpart: the wave is 2 a b minus 2 a' b' after the
      boost (a, b) -> (a', b') = (ch a + sh b, sh a + ch b). */
  lemma DefocusWaveDrop(a: real, b: real, ch: real, sh: real, sh2: real, ch2: real, a': real, b': real)
    requires sh2 == 2.0 * sh * ch && ch2 == ch * ch + sh * sh
    requires a' == ch * a + sh * b && b' == sh * a + ch * b
    ensures DefocusWave(a, b, sh2, ch2) == 2.0 * a * b - 2.0 * a' * b'
  {
  }

  /** Going forward over theta to (a', b') and back over -theta, the two
      focusing-plane waves cancel, and the energy a^2 + b^2 is kept. */
  lemma FocusWaveCancels(a: real, b: real, a': real, b': real, c: real, s: real,
                         s2: real, c2: real, s2': real, c2': real)
    requires c * c + s * s == 1.0
    requires a' == c * a + s * b && b' == -s * a + c * b
    requires s2 == 2.0 * s * c && c2 == c * c - s * s && s2' == -s2 && c2' == c2
    ensures FocusWave(a, b, s2, c2) + FocusWave(a', b', s2', c2') == 0.0
    ensures a' * a' + b' * b' == a * a + b * b
  {
    FocusWaveDrop(a, b, c, s, s2, c2, a', b');
    // going back is the rotation with s negated, which returns (a, b)
    assert c * a' + -s * b' == (c * c + s * s) * a == a;
    assert -(-s) * a' + c * b' == (c * c + s * s) * b == b;
    FocusWaveDrop(a', b', c, -s, s2', c2', a, b);
    assert a' * a' + b' * b' == (c * c + s * s) * (a * a + b * b);
  }

  /** Going forward over theta to (a', b') and back over -theta, the two
      defocusing-plane waves cancel, and b^2 - a^2 is kept. */
  lemma DefocusWaveCancels(a: real, b: real, a': real, b': real, ch: real, sh: real,
                           sh2: real, ch2: real, sh2': real, ch2': real)
    requires ch * ch - sh * sh == 1.0
    requires a' == ch * a + sh * b && b' == sh * a + ch * b
    requires sh2 == 2.0 * sh * ch && ch2 == ch * ch + sh * sh && sh2' == -sh2 && ch2' == ch2
    ensures DefocusWave(a, b, sh2, ch2) + DefocusWave(a', b', sh2', ch2') == 0.0
    ensures b' * b' - a' * a' == b * b - a * a
  {
    DefocusWaveDrop(a, b, ch, sh, sh2, ch2, a', b');
    // going back is the boost with sh negated, which returns (a, b)
    assert ch * a' + -sh * b' == (ch * ch - sh * sh) * a == a;
    assert -sh * a' + ch * b' == (ch * ch - sh * sh) * b == b;
    DefocusWaveDrop(a', b', ch, -sh, sh2', ch2', a, b);
    assert b' * b' - a' * a' == (ch * ch - sh * sh) * (b * b - a * a);
  }

  /** Scaling the new position of a plane by w gives the rotated or boosted
      (w q, p) pair. */
  lemma ScaledPosition(m: real, n: real, q: real, p: real, w: real)
    requires w != 0.0
    ensures w * (m * q + n / w * p) == m * (w * q) + n * p
  {
    assert w * (n / w) == n;
  }

  /** The values at u = 2 theta and v = -2 theta of sin and cos, in terms of
      those at theta. */
  ghost predicate DoubleAngleValues(lib: Libm, theta: real, u: real, v: real)
  {
    var c, s := lib.cos(theta), lib.sin(theta);
    s * s + c * c == 1.0 &&
    lib.sin(u) == 2.0 * s * c && lib.cos(u) == c * c - s * s &&
    lib.sin(v) == -(2.0 * s * c) && lib.cos(v) == c * c - s * s
  }

  /** The same for sinh and cosh. */
  ghost predicate HyperbolicDoubleAngleValues(lib: Libm, theta: real, u: real, v: real)
  {
    var ch, sh := lib.cosh(theta), lib.sinh(theta);
    ch * ch - sh * sh == 1.0 &&
    lib.sinh(u) == 2.0 * sh * ch && lib.cosh(u) == ch * ch + sh * sh &&
    lib.sinh(v) == -(2.0 * sh * ch) && lib.cosh(v) == ch * ch + sh * sh
  }

  /** The laws of the maths library give those values. */
  lemma DoubledAndReflected(lib: Libm, theta: real, u: real, v: real)
    requires u == theta + theta && u + v == 0.0
    requires lib.Pythagoras() && lib.HyperbolicPythagoras() && lib.Parity()
    requires lib.DoubleAngle() && lib.HyperbolicDoubleAngle()
    ensures DoubleAngleValues(lib, theta, u, v) && HyperbolicDoubleAngleValues(lib, theta, u, v)
  {
    assert lib.sin(v) == -lib.sin(u) && lib.cos(v) == lib.cos(u);
    assert lib.sinh(v) == -lib.sinh(u) && lib.cosh(v) == lib.cosh(u);
  }

  /** In the focusing plane, with c = cos theta and s = sin theta, the wave
      over 2 theta from (q, p) and the wave over -2 theta from the mapped
      (q', p') cancel, and p^2 + (w q)^2 is kept. */
  lemma FocusPlaneReturns(c: real, s: real, w: real, s2: real, c2: real, s2': real, c2': real, f: Pair, f': Pair)
    requires w != 0.0 && s * s + c * c == 1.0
    requires s2 == 2.0 * s * c && c2 == c * c - s * s && s2' == -s2 && c2' == c2
    requires f' == Apply(Mat2(c, s / w, -w * s, c), f)
    ensures FocusReturns(w, s2, c2, s2', c2', f, f')
  {
    ScaledPosition(c, s, f.q, f.p, w);
    FocusWaveCancels(w * f.q, f.p, w * f'.q, f'.p, c, s, s2, c2, s2', c2');
  }

  /** In the defocusing plane, with ch = cosh theta and sh = sinh theta, the
      two waves cancel and p^2 - (w q)^2 is kept. */
  lemma DefocusPlaneReturns(ch: real, sh: real, w: real, sh2: real, ch2: real, sh2': real, ch2': real, d: Pair, d': Pair)
    requires w != 0.0 && ch * ch - sh * sh == 1.0
    requires sh2 == 2.0 * sh * ch && ch2 == ch * ch + sh * sh && sh2' == -sh2 && ch2' == ch2
    requires d' == Apply(Mat2(ch, sh / w, w * sh, ch), d)
    ensures DefocusReturns(w, sh2, ch2, sh2', ch2', d, d')
  {
    ScaledPosition(ch, sh, d.q, d.p, w);
    DefocusWaveCancels(w * d.q, d.p, w * d'.q, d'.p, ch, sh, sh2, ch2, sh2', ch2');
  }

  /** What the focusing plane contributes to the return of the time of
      flight: the wave from (q, p) with doubled-angle values s2, c2 and the
      one from the mapped (q', p') with s2', c2' cancel, and p^2 + (w q)^2 is
      kept. */
  ghost predicate FocusReturns(w: real, s2: real, c2: real, s2': real, c2': real, f: Pair, f': Pair)
  {
    FocusWave(w * f.q, f.p, s2, c2) + FocusWave(w * f'.q, f'.p, s2', c2') == 0.0 &&
    f'.p * f'.p + (w * f'.q) * (w * f'.q) == f.p * f.p + (w * f.q) * (w * f.q)
  }

  /** The same for the defocusing plane, which keeps p^2 - (w q)^2. */
  ghost predicate DefocusReturns(w: real, sh2: real, ch2: real, sh2': real, ch2': real, d: Pair, d': Pair)
  {
    DefocusWave(w * d.q, d.p, sh2, ch2) + DefocusWave(w * d'.q, d'.p, sh2', ch2') == 0.0 &&
    d'.p * d'.p - (w * d'.q) * (w * d'.q) == d.p * d.p - (w * d.q) * (w * d.q)
  }

  /** The focusing matrix over theta returns its plane, the waves being taken
      over u = 2 theta and v = -2 theta. */
  lemma FocusMatrixReturns(lib: Libm, w: real, theta: real, u: real, v: real, f: Pair)
    requires w != 0.0 && DoubleAngleValues(lib, theta, u, v)
    ensures FocusReturns(w, lib.sin(u), lib.cos(u), lib.sin(v), lib.cos(v), f, Apply(FocusMatrix(lib, theta, w), f))
  {
    FocusPlaneReturns(lib.cos(theta), lib.sin(theta), w, lib.sin(u), lib.cos(u), lib.sin(v), lib.cos(v),
                      f, Apply(FocusMatrix(lib, theta, w), f));
  }

  /** The defocusing matrix over theta returns its plane. */
  lemma DefocusMatrixReturns(lib: Libm, w: real, theta: real, u: real, v: real, d: Pair)
    requires w != 0.0 && HyperbolicDoubleAngleValues(lib, theta, u, v)
    ensures DefocusReturns(w, lib.sinh(u), lib.cosh(u), lib.sinh(v), lib.cosh(v), d, Apply(DefocusMatrix(lib, theta, w), d))
  {
    DefocusPlaneReturns(lib.cosh(theta), lib.sinh(theta), w, lib.sinh(u), lib.cosh(u), lib.sinh(v), lib.cosh(v),
                        d, Apply(DefocusMatrix(lib, theta, w), d));
  }

  /** The time of flight over len, followed by the one over -len from
      coordinates whose planes return, gives back t. */
  lemma TimeOfFlightReturns(lib: Libm, bet: real, pt: real, d1: real, omega: real, len: real,
                            t: real, f: Pair, d: Pair, f': Pair, d': Pair)
    requires bet != 0.0 && d1 > 0.0 && omega > 0.0
    requires Quadrature(lib, d1, omega, len, f.q, f.p, d.q, d.p) + Quadrature(lib, d1, omega, -len, f'.q, f'.p, d'.q, d'.p) == 0.0
    ensures TimeOfFlight(lib, bet, pt, d1, omega, -len,
                         TimeOfFlight(lib, bet, pt, d1, omega, len, t, f.q, f.p, d.q, d.p),
                         f'.q, f'.p, d'.q, d'.p) == t
  {
    ReversedDrift(pt + (d1 - 1.0) / bet, len, d1);
    ScaledCancel(ChromaticFactor(bet, pt, d1, omega), Quadrature(lib, d1, omega, len, f.q, f.p, d.q, d.p),
                 Quadrature(lib, d1, omega, -len, f'.q, f'.p, d'.q, d'.p));
  }

  /** The two quadratures cancel when the planes return. */
  lemma QuadratureCancels(lib: Libm, d1: real, omega: real, len: real, u: real, v: real,
                          f: Pair, d: Pair, f': Pair, d': Pair)
    requires u == 2.0 * len * omega && v == 2.0 * -len * omega
    requires FocusReturns(omega * d1, lib.sin(u), lib.cos(u), lib.sin(v), lib.cos(v), f, f')
    requires DefocusReturns(omega * d1, lib.sinh(u), lib.cosh(u), lib.sinh(v), lib.cosh(v), d, d')
    ensures Quadrature(lib, d1, omega, len, f.q, f.p, d.q, d.p) + Quadrature(lib, d1, omega, -len, f'.q, f'.p, d'.q, d'.p) == 0.0
  {
    QuadratureSplit(lib, d1, omega, len, u, f.q, f.p, d.q, d.p);
    QuadratureSplit(lib, d1, omega, -len, v, f'.q, f'.p, d'.q, d'.p);
    assert 2.0 * omega * -len == -(2.0 * omega * len);
  }

  /** k a + k b vanishes with a + b. */
  lemma ScaledCancel(k: real, a: real, b: real)
    requires a + b == 0.0
    ensures k * a + k * b == 0.0
  {
    assert k * a + k * b == k * (a + b);
  }

  /** The chromatic drift changes sign with the length. */
  lemma ReversedDrift(x: real, len: real, d1: real)
    requires d1 != 0.0
    ensures x * -len / d1 == -(x * len / d1)
  {
  }

  /** The transverse coordinates of one slice are restored by the slice over
      -len, each plane matrix being undone by its reversal. */
  lemma SliceMapReversible(lib: Libm, g: real, bet: real, d1: real, omega: real, len: real, ph: Phase)
    requires bet != 0.0 && d1 > 0.0 && omega > 0.0
    requires ReflectedValues(lib, omega * len, omega * -len)
    ensures var r := SliceMap(lib, g, bet, d1, omega, -len, SliceMap(lib, g, bet, d1, omega, len, ph));
      r.x == ph.x && r.px == ph.px && r.y == ph.y && r.py == ph.py
  {
    MulPositive(omega, d1);
    FocusMatrixInverts(lib, omega * len, omega * -len, omega * d1);
    DefocusMatrixInverts(lib, omega * len, omega * -len, omega * d1);
    ApplyCompose(FocusMatrix(lib, omega * -len, omega * d1), FocusMatrix(lib, omega * len, omega * d1), Pair(ph.x, ph.px));
    ApplyCompose(DefocusMatrix(lib, omega * -len, omega * d1), DefocusMatrix(lib, omega * len, omega * d1), Pair(ph.y, ph.py));
    ApplyCompose(FocusMatrix(lib, omega * -len, omega * d1), FocusMatrix(lib, omega * len, omega * d1), Pair(ph.y, ph.py));
    ApplyCompose(DefocusMatrix(lib, omega * -len, omega * d1), DefocusMatrix(lib, omega * len, omega * d1), Pair(ph.x, ph.px));
  }

  /** The time of flight of one slice is undone by the slice over -len:
      whichever plane focuses, its wave and the other plane's cancel. */
  lemma SliceTimeReversible(lib: Libm, g: real, bet: real, d1: real, omega: real, len: real, ph: Phase)
    requires bet != 0.0 && d1 > 0.0 && omega > 0.0
    requires DoubleAngleValues(lib, omega * len, 2.0 * len * omega, 2.0 * -len * omega)
    requires HyperbolicDoubleAngleValues(lib, omega * len, 2.0 * len * omega, 2.0 * -len * omega)
    ensures SliceMap(lib, g, bet, d1, omega, -len, SliceMap(lib, g, bet, d1, omega, len, ph)).t == ph.t
  {
    MulPositive(omega, d1);
    if g > 0.0 {
      PlanesReturn(lib, bet, d1, omega, len, ph.pt, ph.t, Pair(ph.x, ph.px), Pair(ph.y, ph.py));
    } else {
      PlanesReturn(lib, bet, d1, omega, len, ph.pt, ph.t, Pair(ph.y, ph.py), Pair(ph.x, ph.px));
    }
  }

  /** The time of flight returns when f is carried by the focusing matrix and
      d by the defocusing one. */
  lemma PlanesReturn(lib: Libm, bet: real, d1: real, omega: real, len: real, pt: real, t: real, f: Pair, d: Pair)
    requires bet != 0.0 && d1 > 0.0 && omega > 0.0 && omega * d1 > 0.0
    requires DoubleAngleValues(lib, omega * len, 2.0 * len * omega, 2.0 * -len * omega)
    requires HyperbolicDoubleAngleValues(lib, omega * len, 2.0 * len * omega, 2.0 * -len * omega)
    ensures TimeOfFlight(lib, bet, pt, d1, omega, -len,
                         TimeOfFlight(lib, bet, pt, d1, omega, len, t, f.q, f.p, d.q, d.p),
                         Apply(FocusMatrix(lib, omega * len, omega * d1), f).q,
                         Apply(FocusMatrix(lib, omega * len, omega * d1), f).p,
                         Apply(DefocusMatrix(lib, omega * len, omega * d1), d).q,
                         Apply(DefocusMatrix(lib, omega * len, omega * d1), d).p) == t
  {
    FocusMatrixReturns(lib, omega * d1, omega * len, 2.0 * len * omega, 2.0 * -len * omega, f);
    DefocusMatrixReturns(lib, omega * d1, omega * len, 2.0 * len * omega, 2.0 * -len * omega, d);
    QuadratureCancels(lib, d1, omega, len, 2.0 * len * omega, 2.0 * -len * omega, f, d,
                      Apply(FocusMatrix(lib, omega * len, omega * d1), f),
                      Apply(DefocusMatrix(lib, omega * len, omega * d1), d));
    TimeOfFlightReturns(lib, bet, pt, d1, omega, len, t, f, d,
                        Apply(FocusMatrix(lib, omega * len, omega * d1), f),
                        Apply(DefocusMatrix(lib, omega * len, omega * d1), d));
  }

  /** The values of the circular and hyperbolic functions that a slice over
      len and its reversal use: at omega len, at -omega len and at plus and
      minus twice omega len. */
  ghost predicate SliceAngles(lib: Libm, omega: real, len: real)
  {
    ReflectedValues(lib, omega * len, omega * -len) &&
    DoubleAngleValues(lib, omega * len, 2.0 * len * omega, 2.0 * -len * omega) &&
    HyperbolicDoubleAngleValues(lib, omega * len, 2.0 * len * omega, 2.0 * -len * omega)
  }

  /** The laws of the maths library give them. */
  lemma SliceAnglesByLaws(lib: Libm, omega: real, len: real)
    requires lib.Pythagoras() && lib.HyperbolicPythagoras() && lib.Parity()
    requires lib.DoubleAngle() && lib.HyperbolicDoubleAngle()
    ensures SliceAngles(lib, omega, len)
  {
    Reflected(lib, omega * len, omega * -len);
    DoubledAndReflected(lib, omega * len, 2.0 * len * omega, 2.0 * -len * omega);
  }

  /** One slice over len followed by the slice over -len with the same pt
      (and so the same delta and omega) restores all six coordinates. */
  lemma SliceReversible(lib: Libm, g: real, bet: real, d1: real, omega: real, len: real, ph: Phase)
    requires bet != 0.0 && d1 > 0.0 && omega > 0.0
    requires SliceAngles(lib, omega, len)
    ensures SliceMap(lib, g, bet, d1, omega, -len, SliceMap(lib, g, bet, d1, omega, len, ph)) == ph
  {
    SliceMapReversible(lib, g, bet, d1, omega, len, ph);
    SliceTimeReversible(lib, g, bet, d1, omega, len, ph);
  }

  /** The quadrupole followed by its reversal is one slice over len followed
      by the slice over -len, with the delta and omega of the incoming pt. */
  lemma ReversedMap(lib: Libm, q: ChrQuad, beta: real, rigidity: real, ph: Phase)
    requires lib.SqrtLaw() && q.InDomain(beta, rigidity, ph.pt)
    ensures ChrQuad(-q.ds, q.k, q.unit, q.nslice).InDomain(beta, rigidity, ph.pt)
    ensures var g, d1 := q.Strength(rigidity), Delta1(lib, beta, ph.pt);
      ChrQuad(-q.ds, q.k, q.unit, q.nslice).Map(lib, beta, rigidity, q.Map(lib, beta, rigidity, ph)) ==
      SliceMap(lib, g, beta, d1, Omega(lib, g, d1), -q.SliceLength(),
               SliceMap(lib, g, beta, d1, Omega(lib, g, d1), q.SliceLength(), ph))
  {
    var back := ChrQuad(-q.ds, q.k, q.unit, q.nslice);
    NegDiv(q.ds, q.nslice as real);
    assert back.SliceLength() == -q.SliceLength();
  }

  /** The map of the quadrupole is undone by the same quadrupole with the
      length reversed (pt, and with it delta and omega, being unchanged). */
  lemma Reversible(lib: Libm, q: ChrQuad, beta: real, rigidity: real, ph: Phase)
    requires lib.SqrtLaw() && lib.Pythagoras() && lib.HyperbolicPythagoras() && lib.Parity()
    requires lib.DoubleAngle() && lib.HyperbolicDoubleAngle()
    requires q.InDomain(beta, rigidity, ph.pt)
    ensures ChrQuad(-q.ds, q.k, q.unit, q.nslice).InDomain(beta, rigidity, ph.pt)
    ensures ChrQuad(-q.ds, q.k, q.unit, q.nslice).Map(lib, beta, rigidity, q.Map(lib, beta, rigidity, ph)) == ph
  {
    ReversedMap(lib, q, beta, rigidity, ph);
    SliceRoundTrip(lib, q.Strength(rigidity), beta, Delta1(lib, beta, ph.pt),
                   Omega(lib, q.Strength(rigidity), Delta1(lib, beta, ph.pt)), q.SliceLength(), ph);
  }

  /** SliceReversible under the laws of the maths library. */
  lemma SliceRoundTrip(lib: Libm, g: real, bet: real, d1: real, omega: real, len: real, ph: Phase)
    requires bet != 0.0 && d1 > 0.0 && omega > 0.0
    requires lib.Pythagoras() && lib.HyperbolicPythagoras() && lib.Parity()
    requires lib.DoubleAngle() && lib.HyperbolicDoubleAngle()
    ensures SliceMap(lib, g, bet, d1, omega, -len, SliceMap(lib, g, bet, d1, omega, len, ph)) == ph
  {
    SliceAnglesByLaws(lib, omega, len);
    SliceReversible(lib, g, bet, d1, omega, len, ph);
  }
}
