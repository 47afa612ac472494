/** The Kurth4D sampler of src/particles/distribution/Kurth4D.H: a 4D Kurth
    distribution in (x, y, px, py), uniform in t and Gaussian in pt, scaled to
    unit second moments and followed by the per-plane correlation
    transform. */
module Kurth4DDistribution {
  import opened Maths
  import opened Particles
  import opened RandomEngine
  import opened Correlation

  /** The number of uniform draws one sample consumes. */
  const Draws: nat := 7

  /** The value of pi this sampler writes out itself, to fourteen decimals;
      it is not the library constant Maths.Pi. */
  const KurthPi: real := 3.14159265358979

  /** The canonical angular momentum Lz = r (2 u - 1), uniform in [-r, r)
      for u uniform in [0, 1). */
  function Lz(r: real, u: real): real
  {
    r * Spin(u)
  }

  /** 2 u - 1: a draw in [0, 1) stretched onto [-1, 1). */
  function Spin(u: real): real
  {
    2.0 * u - 1.0
  }

  /** The largest radial momentum allowed at radius r and angular momentum lz:
      sqrt(1 - (lz / r)^2 - r^2 + lz^2). */
  function PMax(lib: Libm, r: real, lz: real): real
    requires r != 0.0
  {
    lib.sqrt(1.0 - lib.pow(lz / r, 2.0) - lib.pow(r, 2.0) + lib.pow(lz, 2.0))
  }

  /** Where a sample is defined: seven draws whose radius sqrt(u[0]) is not
      zero, since Lz is divided by it. */
  predicate InDomain(lib: Libm, u: seq<real>)
  {
    |u| == Draws && lib.sqrt(u[0]) != 0.0
  }

  /** The transverse part (x, y, px, py) of a sample. */
  datatype Transverse = Transverse(x: real, y: real, px: real, py: real)

  /** The 4D Kurth sample from four draws: (x, y) uniform in the unit disc
      (radius sqrt(v), azimuth 2 pi u1), Lz = r (2 u2 - 1) uniform in [-r, r),
      the radial momentum pmax cos(pi u3), and (px, py) rotated from the radial
      momentum and the azimuthal momentum Lz / r. */
  function KurthTransverse(lib: Libm, v: real, u1: real, u2: real, u3: real): Transverse
    requires lib.sqrt(v) != 0.0
  {
    var r := lib.sqrt(v);
    var phi := 2.0 * KurthPi * u1;
    var lz := Lz(r, u2);
    var pr := PMax(lib, r, lz) * lib.cos(KurthPi * u3);
    var pphi := lz / r;
    Transverse(r * lib.cos(phi), r * lib.sin(phi),
               pr * lib.cos(phi) - pphi * lib.sin(phi), pr * lib.sin(phi) + pphi * lib.cos(phi))
  }

  /** The sample before scaling and correlation, from the seven draws in the
      order they are taken: the Kurth transverse part, t uniform in [-1, 1)
      and pt Gaussian. */
  function Unscaled(lib: Libm, u: seq<real>): Phase
    requires InDomain(lib, u)
  {
    var tr := KurthTransverse(lib, u[0], u[1], u[2], u[3]);
    Phase(tr.x, tr.y, 2.0 * (u[4] - 0.5), tr.px, tr.py,
          lib.sqrt(-2.0 * lib.log(u[5])) * lib.cos(2.0 * KurthPi * u[6]))
  }

  /** The scaling to unit second moments: the transverse coordinates are
      doubled, t is multiplied by sqrt(3) and pt is kept. */
  function Scale(lib: Libm, p: Phase): Phase
  {
    Phase(2.0 * p.x, 2.0 * p.y, lib.sqrt(3.0) * p.t, 2.0 * p.px, 2.0 * p.py, p.pt)
  }

  /** Undoes Scale, given that sqrt(3) is not zero. */
  function Unscale(lib: Libm, p: Phase): Phase
    requires lib.sqrt(3.0) != 0.0
  {
    Phase(p.x / 2.0, p.y / 2.0, p.t / lib.sqrt(3.0), p.px / 2.0, p.py / 2.0, p.pt)
  }

  /** The transverse steps of the sampler, one statement per quantity. */
  method SampleTransverse(lib: Libm, v: real, phi0: real, u: real, alpha0: real)
    returns (x: real, y: real, px: real, py: real)
    requires lib.sqrt(v) != 0.0
    ensures Transverse(x, y, px, py) == KurthTransverse(lib, v, phi0, u, alpha0)
  {
    var phi := 2.0 * KurthPi * phi0;
    var r := lib.sqrt(v);
    x := r * lib.cos(phi);
    y := r * lib.sin(phi);

    var lz := Lz(r, u);

    var alpha := KurthPi * alpha0;
    var pmax := 1.0 - lib.pow(lz / r, 2.0) - lib.pow(r, 2.0) + lib.pow(lz, 2.0);
    pmax := lib.sqrt(pmax);
    var pr := pmax * lib.cos(alpha);
    var pphi := lz / r;

    px := pr * lib.cos(phi) - pphi * lib.sin(phi);
    py := pr * lib.sin(phi) + pphi * lib.cos(phi);
  }

  /** From the seven draws: the transverse steps, then t and pt, then the
      scaling to unit second moments. */
  method Shape(lib: Libm, ghost u: seq<real>, v: real, phi: real, w: real, alpha: real, t0: real, u1: real, u2: real)
    returns (x: real, y: real, t: real, px: real, py: real, pt: real)
    requires InDomain(lib, u)
    requires v == u[0] && phi == u[1] && w == u[2] && alpha == u[3]
    requires t0 == u[4] && u1 == u[5] && u2 == u[6]
    ensures Phase(x, y, t, px, py, pt) == Scale(lib, Unscaled(lib, u))
  {
    x, y, px, py := SampleTransverse(lib, v, phi, w, alpha);

    t := 2.0 * (t0 - 0.5);
    var ln1 := lib.sqrt(-2.0 * lib.log(u1));
    pt := ln1 * lib.cos(2.0 * KurthPi * u2);

    var c := lib.sqrt(3.0);
    x := 2.0 * x;
    y := 2.0 * y;
    t := c * t;
    px := 2.0 * px;
    py := 2.0 * py;
  }

  /** A Kurth4D distribution: its RMS sizes and correlations. */
  datatype Kurth4D = Kurth4D(moments: Moments)
  {
    /** The sample drawn from u: Unscaled, Scale, then the correlation
        transform. */
    function Sample(lib: Libm, u: seq<real>): Phase
      requires lib.SqrtLaw() && moments.Admissible() && InDomain(lib, u)
    {
      moments.Apply(lib, Scale(lib, Unscaled(lib, u)))
    }

    /** Draws one particle, consuming exactly seven draws of the engine. */
    method Draw(lib: Libm, engine: Engine) returns (x: real, y: real, t: real, px: real, py: real, pt: real)
      requires lib.SqrtLaw() && moments.Admissible()
      requires engine.Valid() && engine.cursor + Draws <= |engine.draws|
      requires InDomain(lib, engine.Upcoming(Draws))
      modifies engine
      ensures engine.draws == old(engine.draws) && engine.cursor == old(engine.cursor) + Draws
      ensures engine.Valid()
      ensures Phase(x, y, t, px, py, pt) == Sample(lib, old(engine.Upcoming(Draws)))
    {
      ghost var u := engine.Upcoming(Draws);
      var v := engine.Random();
      var phi := engine.Random();
      var w := engine.Random();
      var alpha := engine.Random();
      var t0 := engine.Random();
      var u1 := engine.Random();
      var u2 := engine.Random();
      x, y, t, px, py, pt := Shape(lib, u, v, phi, w, alpha, t0, u1, u2);

      var xs := Correlate(lib, moments.sigmaX, moments.sigmaPx, moments.muxpx, PlanePoint(x, px));
      x, px := xs.q, xs.p;
      var ys := Correlate(lib, moments.sigmaY, moments.sigmaPy, moments.muypy, PlanePoint(y, py));
      y, py := ys.q, ys.p;
      var ts := Correlate(lib, moments.sigmaT, moments.sigmaPt, moments.mutpt, PlanePoint(t, pt));
      t, pt := ts.q, ts.p;
    }
  }

  /** Every draw lies in [0, 1), as the engine guarantees. */
  predicate Uniform(u: seq<real>)
  {
    forall i :: 0 <= i < |u| ==> 0.0 <= u[i] < 1.0
  }

  /** For draws from the engine, a sample is defined exactly when the first
      draw v is positive: v = 0 gives r = 0, and Lz / r divides by it. */
  lemma DomainIsPositiveRadius(lib: Libm, u: seq<real>)
    requires lib.SqrtLaw() && |u| == Draws && Uniform(u)
    ensures InDomain(lib, u) <==> u[0] > 0.0
  {
    SqrtZero(lib, u[0]);
  }

  /** (x, y) lies on the circle of radius sqrt(v): x^2 + y^2 = v, so a uniform
      v puts (x, y) uniformly in the unit disc. */
  lemma DiscRadius(lib: Libm, u: seq<real>)
    requires lib.SqrtLaw() && lib.Pythagoras() && InDomain(lib, u) && Uniform(u)
    ensures var p := Unscaled(lib, u); p.x * p.x + p.y * p.y == u[0]
  {
    var phi := 2.0 * KurthPi * u[1];
    ScaledCircle(lib.sqrt(u[0]), lib.cos(phi), lib.sin(phi));
  }

  /** The canonical angular momentum x py - y px of the sample is the Lz that
      was drawn. */
  lemma AngularMomentum(lib: Libm, u: seq<real>)
    requires lib.SqrtLaw() && lib.Pythagoras() && InDomain(lib, u)
    ensures var p := Unscaled(lib, u); p.x * p.py - p.y * p.px == Lz(lib.sqrt(u[0]), u[2])
  {
    var r, phi := lib.sqrt(u[0]), 2.0 * KurthPi * u[1];
    var lz := Lz(r, u[2]);
    var pm, ca := PMax(lib, r, lz), lib.cos(KurthPi * u[3]);
    Torque(r, lib.cos(phi), lib.sin(phi), pm, ca, lz / r);
    QuotientBack(r, lz);
  }

  /** |Lz| <= r: the angular momentum never exceeds what the radius allows. */
  lemma AngularMomentumBound(lib: Libm, u: seq<real>)
    requires lib.SqrtLaw() && lib.Pythagoras() && InDomain(lib, u) && Uniform(u)
    ensures var p := Unscaled(lib, u);
            (p.x * p.py - p.y * p.px) * (p.x * p.py - p.y * p.px) <= p.x * p.x + p.y * p.y
  {
    var r := lib.sqrt(u[0]);
    AngularMomentum(lib, u);
    DiscRadius(lib, u);
    var p := Unscaled(lib, u);
    LzBound(p.x * p.py - p.y * p.px, r, u[2]);
  }

  /** The radicand of pmax is (1 - w^2)(1 - v) with w = 2 u2 - 1, never
      negative for draws in [0, 1): the square root is always taken of a
      non-negative number. */
  lemma RadicandFactors(lib: Libm, u: seq<real>)
    requires lib.SqrtLaw() && lib.PowSquare() && InDomain(lib, u) && Uniform(u)
    ensures var r := lib.sqrt(u[0]);
            var lz := Lz(r, u[2]);
            var w := 2.0 * u[2] - 1.0;
            var radicand := 1.0 - lib.pow(lz / r, 2.0) - lib.pow(r, 2.0) + lib.pow(lz, 2.0);
            radicand == (1.0 - w * w) * (1.0 - u[0]) && radicand >= 0.0
  {
    var r := lib.sqrt(u[0]);
    var lz := Lz(r, u[2]);
    var q := lz / r;
    QuotientOfLz(r, u[2]);
    QuotientBack(r, lz);
    Radicand(r, q, lz, u[0]);
    SameSquare(q, 2.0 * u[2] - 1.0);
    UnitSquare(q);
    ProductOfComplements(q, u[0]);
  }

  /** The quantity the 4D Kurth distribution bounds:
      x^2 + y^2 + px^2 + py^2 - Lz^2, with Lz = x py - y px. */
  function KurthInvariant(x: real, y: real, px: real, py: real): real
  {
    x * x + y * y + px * px + py * py - (x * py - y * px) * (x * py - y * px)
  }

  /** The Kurth bound: every transverse sample has KurthInvariant <= 1. */
  lemma KurthSupport(lib: Libm, u: seq<real>)
    requires lib.SqrtLaw() && lib.PowSquare() && lib.Pythagoras() && InDomain(lib, u) && Uniform(u)
    ensures var p := Unscaled(lib, u); KurthInvariant(p.x, p.y, p.px, p.py) <= 1.0
  {
    var r, phi := lib.sqrt(u[0]), 2.0 * KurthPi * u[1];
    var lz := Lz(r, u[2]);
    var alpha := KurthPi * u[3];
    var p := Unscaled(lib, u);
    Rotated(lib, u);
    PMaxSquared(lib, u);
    CosineAtMostOne(lib, alpha);
    SupportCore(p.x, p.y, p.px, p.py, r, lib.cos(phi), lib.sin(phi), PMax(lib, r, lz), lib.cos(alpha), lz / r, u[0]);
  }

  /** The sample in terms of the radius, the azimuth, pmax cos(alpha) and
      pphi. */
  lemma Rotated(lib: Libm, u: seq<real>)
    requires lib.Pythagoras() && InDomain(lib, u)
    ensures var r, phi := lib.sqrt(u[0]), 2.0 * KurthPi * u[1];
            var c, s := lib.cos(phi), lib.sin(phi);
            var lz := Lz(r, u[2]);
            var pr, q := PMax(lib, r, lz) * lib.cos(KurthPi * u[3]), lz / r;
            var p := Unscaled(lib, u);
            s * s + c * c == 1.0 && p.x == r * c && p.y == r * s &&
            p.px == pr * c - q * s && p.py == pr * s + q * c
  {
  }

  lemma CosineAtMostOne(lib: Libm, a: real)
    requires lib.Pythagoras()
    ensures lib.cos(a) * lib.cos(a) <= 1.0
  {
    SquareNonNegative(lib.sin(a));
  }

  /** pmax^2 = (1 - pphi^2)(1 - v), with pphi = Lz / r. */
  lemma PMaxSquared(lib: Libm, u: seq<real>)
    requires lib.SqrtLaw() && lib.PowSquare() && InDomain(lib, u) && Uniform(u)
    ensures var r := lib.sqrt(u[0]);
            var lz := Lz(r, u[2]);
            var pm := PMax(lib, r, lz);
            r * r == u[0] && pm * pm == (1.0 - (lz / r) * (lz / r)) * (1.0 - u[0])
  {
    var r := lib.sqrt(u[0]);
    var lz := Lz(r, u[2]);
    RadicandFactors(lib, u);
    QuotientBack(r, lz);
    Radicand(r, lz / r, lz, u[0]);
  }

  /** The Kurth invariant in terms of the quantities the sampler draws. */
  lemma SupportCore(x: real, y: real, px: real, py: real, r: real, c: real, s: real, pm: real, ca: real, q: real, v: real)
    requires s * s + c * c == 1.0 && x == r * c && y == r * s
    requires px == (pm * ca) * c - q * s && py == (pm * ca) * s + q * c
    requires r * r == v && pm * pm == (1.0 - q * q) * (1.0 - v) && ca * ca <= 1.0
    ensures KurthInvariant(x, y, px, py) <= 1.0
  {
    CircleOf(x, y, r, c, s);
    RotationOf(px, py, pm, ca, q, c, s);
    TorqueOf(x, y, px, py, r, c, s, pm, ca, q);
    CosineBound(pm, ca);
    Balance(r, v, q, pm);
  }

  lemma CircleOf(x: real, y: real, r: real, c: real, s: real)
    requires s * s + c * c == 1.0 && x == r * c && y == r * s
    ensures x * x + y * y == r * r
  {
    ScaledCircle(r, c, s);
  }

  lemma RotationOf(px: real, py: real, pm: real, ca: real, q: real, c: real, s: real)
    requires s * s + c * c == 1.0
    requires px == (pm * ca) * c - q * s && py == (pm * ca) * s + q * c
    ensures px * px + py * py == (pm * ca) * (pm * ca) + q * q
  {
    Rotation(pm, ca, q, c, s);
  }

  lemma TorqueOf(x: real, y: real, px: real, py: real, r: real, c: real, s: real, pm: real, ca: real, q: real)
    requires s * s + c * c == 1.0 && x == r * c && y == r * s
    requires px == (pm * ca) * c - q * s && py == (pm * ca) * s + q * c
    ensures (x * py - y * px) * (x * py - y * px) == (r * q) * (r * q)
  {
    TorqueSquared(r, c, s, pm, ca, q);
  }

  /** t is uniform in [-1, 1) before scaling. */
  lemma TimeRange(lib: Libm, u: seq<real>)
    requires InDomain(lib, u) && Uniform(u)
    ensures -1.0 <= Unscaled(lib, u).t < 1.0
  {
  }

  /** Scale and Unscale are inverse to each other. */
  lemma ScaleRoundTrip(lib: Libm, p: Phase)
    requires lib.SqrtLaw()
    ensures lib.sqrt(3.0) != 0.0
    ensures Unscale(lib, Scale(lib, p)) == p && Scale(lib, Unscale(lib, p)) == p
  {
    SqrtPositive(lib, 3.0);
    ScaleCancels(lib.sqrt(3.0), p.t);
  }

  lemma ScaleCancels(c: real, t: real)
    requires c != 0.0
    ensures c * t / c == t && c * (t / c) == t
  {
  }

  /** x py - y px for the rotated momenta is r times the azimuthal momentum. */
  lemma Torque(r: real, c: real, s: real, pm: real, ca: real, q: real)
    requires s * s + c * c == 1.0
    ensures (r * c) * ((pm * ca) * s + q * c) - (r * s) * ((pm * ca) * c - q * s) == r * q
  {
    assert (r * c) * ((pm * ca) * s + q * c) - (r * s) * ((pm * ca) * c - q * s) == r * q * (s * s + c * c);
  }

  lemma TorqueSquared(r: real, c: real, s: real, pm: real, ca: real, q: real)
    requires s * s + c * c == 1.0
    ensures var l := (r * c) * ((pm * ca) * s + q * c) - (r * s) * ((pm * ca) * c - q * s);
            l * l == (r * q) * (r * q)
  {
    Torque(r, c, s, pm, ca, q);
  }

  /** The rotation by the azimuth keeps the length of the momentum. */
  lemma Rotation(pm: real, ca: real, q: real, c: real, s: real)
    requires s * s + c * c == 1.0
    ensures ((pm * ca) * c - q * s) * ((pm * ca) * c - q * s) + ((pm * ca) * s + q * c) * ((pm * ca) * s + q * c)
         == (pm * ca) * (pm * ca) + q * q
  {
    assert ((pm * ca) * c - q * s) * ((pm * ca) * c - q * s) + ((pm * ca) * s + q * c) * ((pm * ca) * s + q * c)
        == ((pm * ca) * (pm * ca) + q * q) * (s * s + c * c);
  }

  lemma QuotientBack(r: real, lz: real)
    requires r != 0.0
    ensures r * (lz / r) == lz && lz * lz == (r * (lz / r)) * (r * (lz / r))
  {
  }

  lemma QuotientOfLz(r: real, u: real)
    requires r != 0.0
    ensures Lz(r, u) / r == Spin(u)
  {
    DivideOut(r, Lz(r, u), Spin(u));
  }

  lemma DivideOut(r: real, a: real, b: real)
    requires r != 0.0 && a == r * b
    ensures a / r == b
  {
  }

  lemma LzBound(l: real, r: real, u: real)
    requires r >= 0.0 && 0.0 <= u < 1.0 && l == Lz(r, u)
    ensures l * l <= r * r
  {
    var w := 2.0 * u - 1.0;
    UnitSquare(w);
    assert l * l == (r * r) * (w * w);
    assert (r * r) * (w * w) <= r * r by {
      SquareNonNegative(r);
      BoundedProduct(r * r, w * w);
    }
  }

  lemma BoundedProduct(a: real, b: real)
    requires a >= 0.0 && b <= 1.0
    ensures a * b <= a
  {
    assert a - a * b == a * (1.0 - b);
  }

  lemma Radicand(r: real, q: real, lz: real, v: real)
    requires r * r == v && lz * lz == (r * q) * (r * q)
    ensures 1.0 - q * q - r * r + lz * lz == (1.0 - q * q) * (1.0 - v)
  {
    assert (r * q) * (r * q) == (r * r) * (q * q);
  }

  lemma SameSquare(a: real, b: real)
    requires a == b
    ensures a * a == b * b
  {
  }

  lemma UnitSquare(q: real)
    requires -1.0 <= q <= 1.0
    ensures q * q <= 1.0
  {
    if q >= 0.0 {
      assert q * q <= q;
    } else {
      assert q * q <= -q;
    }
  }

  lemma ProductOfComplements(q: real, v: real)
    requires q * q <= 1.0 && v <= 1.0
    ensures (1.0 - q * q) * (1.0 - v) >= 0.0
  {
  }

  lemma CosineBound(pm: real, ca: real)
    requires ca * ca <= 1.0
    ensures (pm * ca) * (pm * ca) <= pm * pm
  {
    SquareNonNegative(pm);
    assert (pm * ca) * (pm * ca) == (pm * pm) * (ca * ca);
    BoundedProduct(pm * pm, ca * ca);
  }

  lemma Balance(r: real, v: real, q: real, pm: real)
    requires r * r == v && pm * pm == (1.0 - q * q) * (1.0 - v)
    ensures r * r + pm * pm + q * q - (r * q) * (r * q) == 1.0
  {
    assert (r * q) * (r * q) == v * (q * q);
  }
}
