/** The Triangle sampler of src/particles/distribution/Triangle.H: a ramped,
    triangular current profile in t, a Gaussian energy spread in pt and a 4D
    waterbag in (x, y, px, py), followed by the per-plane correlation
    transform. */
module TriangleDistribution {
  import opened Maths
  import opened Particles
  import opened RandomEngine
  import opened Correlation

  /** The number of uniform draws one sample consumes. */
  const Draws: nat := 8

  /** The dimension of the unit ball the transverse sample fills. */
  const BallDimension: real := 4.0

  /** t = sqrt(2) (2 - 3 sqrt(u0)): the ramped profile with unit variance. */
  function RampT(lib: Libm, u0: real): real
  {
    lib.sqrt(2.0) * (2.0 - 3.0 * lib.sqrt(u0))
  }

  /** The Box-Muller radius sqrt(-2 log u1). */
  function BoxMullerRadius(lib: Libm, u1: real): real
  {
    lib.sqrt(-2.0 * lib.log(u1))
  }

  /** The Box-Muller pair (radius cos(2 pi u2), radius sin(2 pi u2)). */
  function Gaussians(lib: Libm, u1: real, u2: real): PlanePoint
  {
    var ln1 := BoxMullerRadius(lib, u1);
    PlanePoint(ln1 * lib.cos(2.0 * Pi * u2), ln1 * lib.sin(2.0 * Pi * u2))
  }

  /** The Euclidean length sqrt(g1^2 + g2^2 + g3^2 + g4^2). */
  function Length4(lib: Libm, g1: real, g2: real, g3: real, g4: real): real
  {
    lib.sqrt(g1 * g1 + g2 * g2 + g3 * g3 + g4 * g4)
  }

  /** The length of the Gaussian 4-vector (g1, g2, g3, g4) drawn from u[1..5]. */
  function Norm(lib: Libm, u: seq<real>): real
    requires |u| == Draws
  {
    var a, b := Gaussians(lib, u[1], u[2]), Gaussians(lib, u[3], u[4]);
    Length4(lib, a.q, a.p, b.q, b.p)
  }

  /** The radius sqrt(d + 2) u^(1/d) that maps the unit sphere into the 4D
      ball of unit variance. */
  function BallRadius(lib: Libm, u: real): real
  {
    lib.sqrt(BallDimension + 2.0) * lib.pow(u, 1.0 / BallDimension)
  }

  /** Where a sample is defined: eight draws whose Gaussian 4-vector is not
      zero, so that it can be normalised. */
  predicate InDomain(lib: Libm, u: seq<real>)
  {
    |u| == Draws && Norm(lib, u) != 0.0
  }

  /** The sample before the correlation transform, as a function of the eight
      draws in the order they are taken. */
  function Unit(lib: Libm, u: seq<real>): Phase
    requires InDomain(lib, u)
  {
    var a, b := Gaussians(lib, u[1], u[2]), Gaussians(lib, u[3], u[4]);
    var g5 := Gaussians(lib, u[5], u[6]).q;
    var norm := Norm(lib, u);
    var u2 := BallRadius(lib, u[7]);
    Phase(a.q / norm * u2, a.p / norm * u2, RampT(lib, u[0]),
          b.q / norm * u2, b.p / norm * u2, g5)
  }

  /** Box-Muller: two draws give a pair of standard normal variables. */
  method BoxMuller(lib: Libm, engine: Engine) returns (g1: real, g2: real)
    requires engine.Valid() && engine.cursor + 2 <= |engine.draws|
    modifies engine
    ensures engine.draws == old(engine.draws) && engine.cursor == old(engine.cursor) + 2
    ensures engine.Valid()
    ensures PlanePoint(g1, g2) == Gaussians(lib, old(engine.draws[engine.cursor]), old(engine.draws[engine.cursor + 1]))
  {
    var u1 := engine.Random();
    var u2 := engine.Random();
    var ln1 := lib.sqrt(-2.0 * lib.log(u1));
    g1 := ln1 * lib.cos(2.0 * Pi * u2);
    g2 := ln1 * lib.sin(2.0 * Pi * u2);
  }

  /** From the draws and Gaussians: t from the ramp, pt the fifth Gaussian,
      and (x, y, px, py) the first four normalised in place onto the unit
      sphere and scaled into the 4D ball. */
  method Shape(lib: Libm, ghost u: seq<real>, u0: real, g1: real, g2: real, g3: real, g4: real, g5: real, u1: real)
    returns (x: real, y: real, t: real, px: real, py: real, pt: real)
    requires InDomain(lib, u) && u0 == u[0] && u1 == u[7]
    requires PlanePoint(g1, g2) == Gaussians(lib, u[1], u[2])
    requires PlanePoint(g3, g4) == Gaussians(lib, u[3], u[4])
    requires g5 == Gaussians(lib, u[5], u[6]).q
    ensures Phase(x, y, t, px, py, pt) == Unit(lib, u)
  {
    t := lib.sqrt(2.0) * (2.0 - 3.0 * lib.sqrt(u0));
    pt := g5;

    var norm := Length4(lib, g1, g2, g3, g4);
    var n1, n2, n3, n4 := g1 / norm, g2 / norm, g3 / norm, g4 / norm;

    var d := BallDimension;
    var u2 := lib.sqrt(d + 2.0) * lib.pow(u1, 1.0 / d);
    x := n1 * u2;
    y := n2 * u2;
    px := n3 * u2;
    py := n4 * u2;
  }

  /** A Triangle distribution: its RMS sizes and correlations. */
  datatype Triangle = Triangle(moments: Moments)
  {
    /** The sample drawn from u: Unit followed by the correlation transform. */
    function Sample(lib: Libm, u: seq<real>): Phase
      requires lib.SqrtLaw() && moments.Admissible() && InDomain(lib, u)
    {
      moments.Apply(lib, Unit(lib, u))
    }

    /** Draws one particle, consuming exactly eight draws of the engine. */
    method Draw(lib: Libm, engine: Engine) returns (x: real, y: real, t: real, px: real, py: real, pt: real)
      requires lib.SqrtLaw() && moments.Admissible()
      requires engine.Valid() && engine.cursor + Draws <= |engine.draws|
      requires InDomain(lib, engine.Upcoming(Draws))
      modifies engine
      ensures engine.draws == old(engine.draws) && engine.cursor == old(engine.cursor) + Draws
      ensures engine.Valid()
      ensures Phase(x, y, t, px, py, pt) == Sample(lib, old(engine.Upcoming(Draws)))
    {
      ghost var u := engine.Upcoming(Draws);
      var u0 := engine.Random();
      var g1, g2 := BoxMuller(lib, engine);
      var g3, g4 := BoxMuller(lib, engine);
      var g5, _ := BoxMuller(lib, engine);
      var u1 := engine.Random();
      x, y, t, px, py, pt := Shape(lib, u, u0, g1, g2, g3, g4, g5, u1);

      var xs := Correlate(lib, moments.sigmaX, moments.sigmaPx, moments.muxpx, PlanePoint(x, px));
      x, px := xs.q, xs.p;
      var ys := Correlate(lib, moments.sigmaY, moments.sigmaPy, moments.muypy, PlanePoint(y, py));
      y, py := ys.q, ys.p;
      var ts := Correlate(lib, moments.sigmaT, moments.sigmaPt, moments.mutpt, PlanePoint(t, pt));
      t, pt := ts.q, ts.p;
    }
  }

  /** The ramped profile lies in [-sqrt 2, 2 sqrt 2] for every draw in [0, 1]. */
  lemma RampRange(lib: Libm, u0: real)
    requires lib.SqrtLaw() && 0.0 <= u0 <= 1.0
    ensures -lib.sqrt(2.0) <= RampT(lib, u0) <= 2.0 * lib.sqrt(2.0)
  {
    var r2, s := lib.sqrt(2.0), lib.sqrt(u0);
    SqrtAtMostOne(lib, u0);
    SqrtPositive(lib, 2.0);
    RampBounds(r2, s);
  }

  lemma RampBounds(r2: real, s: real)
    requires r2 > 0.0 && 0.0 <= s <= 1.0
    ensures -r2 <= r2 * (2.0 - 3.0 * s) <= 2.0 * r2
  {
    assert r2 * (2.0 - 3.0 * s) == 2.0 * r2 - 3.0 * (r2 * s);
    assert 0.0 <= r2 * s <= r2;
  }

  /** A Box-Muller pair lies on the circle of radius sqrt(-2 log u1). */
  lemma GaussianPairRadius(lib: Libm, u1: real, u2: real)
    requires lib.SqrtLaw() && lib.Pythagoras() && lib.LogBelowOne() && 0.0 < u1 < 1.0
    ensures var g := Gaussians(lib, u1, u2); g.q * g.q + g.p * g.p == -2.0 * lib.log(u1)
  {
    var ln1 := BoxMullerRadius(lib, u1);
    var c, sn := lib.cos(2.0 * Pi * u2), lib.sin(2.0 * Pi * u2);
    assert ln1 * ln1 == -2.0 * lib.log(u1);
    assert sn * sn + c * c == 1.0;
    ScaledCircle(ln1, c, sn);
  }

  /** The fifth Gaussian, which becomes pt, is bounded by its Box-Muller
      radius: pt^2 <= -2 log u[5]. */
  lemma MomentumWithinRadius(lib: Libm, u: seq<real>)
    requires lib.SqrtLaw() && lib.Pythagoras() && lib.LogBelowOne()
    requires InDomain(lib, u) && 0.0 < u[5] < 1.0
    ensures Unit(lib, u).pt * Unit(lib, u).pt <= -2.0 * lib.log(u[5])
  {
    var g := Gaussians(lib, u[5], u[6]);
    GaussianPairRadius(lib, u[5], u[6]);
    assert g.p * g.p >= 0.0 by { SquareNonNegative(g.p); }
  }

  /** The transverse sample lies on the sphere of radius BallRadius(u[7]) in
      (x, y, px, py): normalising by the length of (g1, g2, g3, g4) puts it on
      the unit sphere, and the radius scales it into the ball. */
  lemma WaterbagRadius(lib: Libm, u: seq<real>)
    requires lib.SqrtLaw() && InDomain(lib, u)
    ensures var p := Unit(lib, u);
            p.x * p.x + p.y * p.y + p.px * p.px + p.py * p.py == BallRadius(lib, u[7]) * BallRadius(lib, u[7])
  {
    var a, b := Gaussians(lib, u[1], u[2]), Gaussians(lib, u[3], u[4]);
    var p := Unit(lib, u);
    SquareNonNegative(a.q);
    SquareNonNegative(a.p);
    SquareNonNegative(b.q);
    SquareNonNegative(b.p);
    Sphere(p.x, p.y, p.px, p.py, a.q, a.p, b.q, b.p, Norm(lib, u), BallRadius(lib, u[7]));
  }

  /** (g1, g2, g3, g4) scaled by r / n, where n is its length, has length r. */
  lemma Sphere(x1: real, x2: real, x3: real, x4: real, g1: real, g2: real, g3: real, g4: real, n: real, r: real)
    requires n != 0.0 && n * n == g1 * g1 + g2 * g2 + g3 * g3 + g4 * g4
    requires x1 == g1 / n * r && x2 == g2 / n * r && x3 == g3 / n * r && x4 == g4 / n * r
    ensures x1 * x1 + x2 * x2 + x3 * x3 + x4 * x4 == r * r
  {
    ScaleBack(x1, g1, n, r);
    SquareScaled(x1, g1, n, r);
    ScaleBack(x2, g2, n, r);
    SquareScaled(x2, g2, n, r);
    ScaleBack(x3, g3, n, r);
    SquareScaled(x3, g3, n, r);
    ScaleBack(x4, g4, n, r);
    SquareScaled(x4, g4, n, r);
    SumScaled(x1, x2, x3, x4, g1, g2, g3, g4, n, r);
    MulLength(n, g1, g2, g3, g4, r);
    CancelLength(x1, x2, x3, x4, n, r);
  }

  lemma ScaleBack(x: real, g: real, n: real, r: real)
    requires n != 0.0 && x == g / n * r
    ensures x * n == g * r
  {
  }

  lemma SquareScaled(x: real, g: real, n: real, r: real)
    requires x * n == g * r
    ensures x * x * (n * n) == g * g * (r * r)
  {
    assert x * x * (n * n) == (x * n) * (x * n);
    assert g * g * (r * r) == (g * r) * (g * r);
  }

  lemma SumScaled(x1: real, x2: real, x3: real, x4: real, g1: real, g2: real, g3: real, g4: real, n: real, r: real)
    requires x1 * x1 * (n * n) == g1 * g1 * (r * r)
    requires x2 * x2 * (n * n) == g2 * g2 * (r * r)
    requires x3 * x3 * (n * n) == g3 * g3 * (r * r)
    requires x4 * x4 * (n * n) == g4 * g4 * (r * r)
    ensures (x1 * x1 + x2 * x2 + x3 * x3 + x4 * x4) * (n * n) == (g1 * g1 + g2 * g2 + g3 * g3 + g4 * g4) * (r * r)
  {
  }

  lemma MulLength(n: real, g1: real, g2: real, g3: real, g4: real, r: real)
    requires n * n == g1 * g1 + g2 * g2 + g3 * g3 + g4 * g4
    ensures (g1 * g1 + g2 * g2 + g3 * g3 + g4 * g4) * (r * r) == (n * n) * (r * r)
  {
  }

  lemma CancelLength(x1: real, x2: real, x3: real, x4: real, n: real, r: real)
    requires n != 0.0 && (x1 * x1 + x2 * x2 + x3 * x3 + x4 * x4) * (n * n) == (n * n) * (r * r)
    ensures x1 * x1 + x2 * x2 + x3 * x3 + x4 * x4 == r * r
  {
    assert n * n != 0.0;
  }
}
