/** The per-plane correlation transform that the Triangle and Kurth4D samplers
    apply last (Triangle.H and Kurth4D.H carry identical copies): a sample with
    unit, uncorrelated second moments in the planes (x, px), (y, py) and
    (t, pt) is given the RMS sizes sigma and the length-momentum correlation
    mu of each plane. */
module Correlation {
  import opened Maths
  import opened Particles

  /** One phase-space plane: a position q and its conjugate momentum p. */
  datatype PlanePoint = PlanePoint(q: real, p: real)

  /** sqrt(1 - mu^2): the positive root that the transform divides by, defined
      for |mu| < 1. */
  function Root(lib: Libm, mu: real): (r: real)
    requires lib.SqrtLaw() && -1.0 < mu < 1.0
    ensures r > 0.0 && r * r == 1.0 - mu * mu
  {
    assert (1.0 - mu) * (1.0 + mu) > 0.0 by { MulPositive(1.0 - mu, 1.0 + mu); }
    SqrtPositive(lib, 1.0 - mu * mu);
    lib.sqrt(1.0 - mu * mu)
  }

  /** The plane transform: q' = sigmaQ q / root, p' = sigmaP (p - mu q / root). */
  function Correlate(lib: Libm, sigmaQ: real, sigmaP: real, mu: real, a: PlanePoint): PlanePoint
    requires lib.SqrtLaw() && -1.0 < mu < 1.0
  {
    var root := Root(lib, mu);
    PlanePoint(sigmaQ * a.q / root, sigmaP * (-mu * a.q / root + a.p))
  }

  /** Its inverse, for non-zero sigmas: q = q' root / sigmaQ and
      p = p' / sigmaP + mu q / root. */
  function Decorrelate(lib: Libm, sigmaQ: real, sigmaP: real, mu: real, b: PlanePoint): PlanePoint
    requires lib.SqrtLaw() && -1.0 < mu < 1.0 && sigmaQ != 0.0 && sigmaP != 0.0
  {
    var root := Root(lib, mu);
    var q := b.q * root / sigmaQ;
    PlanePoint(q, b.p / sigmaP + mu * q / root)
  }

  lemma ScaleCancels(s: real, q: real, root: real)
    requires s != 0.0 && root != 0.0
    ensures (s * q / root) * root / s == q
    ensures s * (q * root / s) / root == q
  {
  }

  lemma NegatedQuotient(m: real, q: real, root: real)
    requires root != 0.0
    ensures -m * q / root == -(m * q / root) == -((m / root) * q)
    ensures m * q / root == (m / root) * q
  {
  }

  /** The transform in coefficient form: q' = (sigmaQ / root) q and
      p' = sigmaP (p - (mu / root) q). */
  lemma CorrelateLinear(lib: Libm, sigmaQ: real, sigmaP: real, mu: real, a: PlanePoint)
    requires lib.SqrtLaw() && -1.0 < mu < 1.0
    ensures var root := Root(lib, mu);
            Correlate(lib, sigmaQ, sigmaP, mu, a)
            == PlanePoint((sigmaQ / root) * a.q, sigmaP * (-((mu / root) * a.q) + a.p))
  {
    var root := Root(lib, mu);
    NegatedQuotient(mu, a.q, root);
    NegatedQuotient(sigmaQ, a.q, root);
  }

  lemma ShiftCancels(s: real, m: real, p: real)
    requires s != 0.0
    ensures s * (-m + (p / s + m)) == p
    ensures s * (-m + p) / s + m == p
  {
  }

  /** Decorrelate undoes Correlate. */
  lemma DecorrelateCorrelate(lib: Libm, sigmaQ: real, sigmaP: real, mu: real, a: PlanePoint)
    requires lib.SqrtLaw() && -1.0 < mu < 1.0 && sigmaQ != 0.0 && sigmaP != 0.0
    ensures Decorrelate(lib, sigmaQ, sigmaP, mu, Correlate(lib, sigmaQ, sigmaP, mu, a)) == a
  {
    var root := Root(lib, mu);
    var b := Correlate(lib, sigmaQ, sigmaP, mu, a);
    ScaleCancels(sigmaQ, a.q, root);
    assert b.q * root / sigmaQ == a.q;
    ShiftCancels(sigmaP, mu * a.q / root, a.p);
    NegatedQuotient(mu, a.q, root);
  }

  /** Correlate undoes Decorrelate: the transform is a bijection of the plane. */
  lemma CorrelateDecorrelate(lib: Libm, sigmaQ: real, sigmaP: real, mu: real, b: PlanePoint)
    requires lib.SqrtLaw() && -1.0 < mu < 1.0 && sigmaQ != 0.0 && sigmaP != 0.0
    ensures Correlate(lib, sigmaQ, sigmaP, mu, Decorrelate(lib, sigmaQ, sigmaP, mu, b)) == b
  {
    var root := Root(lib, mu);
    var a := Decorrelate(lib, sigmaQ, sigmaP, mu, b);
    ScaleCancels(sigmaQ, b.q, root);
    assert sigmaQ * a.q / root == b.q;
    ShiftCancels(sigmaP, mu * a.q / root, b.p);
    NegatedQuotient(mu, a.q, root);
  }

  /** With mu = 0 the transform is a plain scaling by the sigmas. */
  lemma UncorrelatedIsScaling(lib: Libm, sigmaQ: real, sigmaP: real, a: PlanePoint)
    requires lib.SqrtLaw()
    ensures Correlate(lib, sigmaQ, sigmaP, 0.0, a) == PlanePoint(sigmaQ * a.q, sigmaP * a.p)
  {
    var root := Root(lib, 0.0);
    SqrtUnique(lib, 1.0, 1.0);
    assert root == 1.0;
  }

  /** The transform is linear with determinant sigmaQ sigmaP / root: it scales
      every oriented phase-space area (the cross product of two points) by
      that factor. */
  lemma AreaScaling(lib: Libm, sigmaQ: real, sigmaP: real, mu: real, a: PlanePoint, b: PlanePoint)
    requires lib.SqrtLaw() && -1.0 < mu < 1.0
    ensures var a', b' := Correlate(lib, sigmaQ, sigmaP, mu, a), Correlate(lib, sigmaQ, sigmaP, mu, b);
            a'.q * b'.p - b'.q * a'.p == sigmaQ * sigmaP / Root(lib, mu) * (a.q * b.p - b.q * a.p)
  {
    var root := Root(lib, mu);
    CorrelateLinear(lib, sigmaQ, sigmaP, mu, a);
    CorrelateLinear(lib, sigmaQ, sigmaP, mu, b);
    CrossProduct(sigmaQ / root, sigmaP, mu / root, a.q, a.p, b.q, b.p);
    assert sigmaQ / root * sigmaP == sigmaQ * sigmaP / root;
  }

  lemma CrossProduct(u: real, v: real, k: real, aq: real, ap: real, bq: real, bp: real)
    ensures (u * aq) * (v * (-(k * bq) + bp)) - (u * bq) * (v * (-(k * aq) + ap))
            == u * v * (aq * bp - bq * ap)
  {
  }

  /** The sampler's parameters: the RMS sizes of the six coordinates and the
      three plane correlations. */
  datatype Moments = Moments(sigmaX: real, sigmaY: real, sigmaT: real,
                             sigmaPx: real, sigmaPy: real, sigmaPt: real,
                             muxpx: real, muypy: real, mutpt: real)
  {
    /** The correlations for which the transform is defined: |mu| < 1 in each plane. */
    predicate Admissible()
    {
      -1.0 < muxpx < 1.0 && -1.0 < muypy < 1.0 && -1.0 < mutpt < 1.0
    }

    /** Every sigma is non-zero, so that the transform can be undone. */
    predicate Invertible()
    {
      sigmaX != 0.0 && sigmaY != 0.0 && sigmaT != 0.0 &&
      sigmaPx != 0.0 && sigmaPy != 0.0 && sigmaPt != 0.0
    }

    /** The transform of a whole particle, plane by plane; each plane uses only
        its own sigmas and mu. */
    function Apply(lib: Libm, ph: Phase): Phase
      requires lib.SqrtLaw() && Admissible()
    {
      var xs := Correlate(lib, sigmaX, sigmaPx, muxpx, PlanePoint(ph.x, ph.px));
      var ys := Correlate(lib, sigmaY, sigmaPy, muypy, PlanePoint(ph.y, ph.py));
      var ts := Correlate(lib, sigmaT, sigmaPt, mutpt, PlanePoint(ph.t, ph.pt));
      Phase(xs.q, ys.q, ts.q, xs.p, ys.p, ts.p)
    }

    /** The inverse transform of a whole particle. */
    function Unapply(lib: Libm, ph: Phase): Phase
      requires lib.SqrtLaw() && Admissible() && Invertible()
    {
      var xs := Decorrelate(lib, sigmaX, sigmaPx, muxpx, PlanePoint(ph.x, ph.px));
      var ys := Decorrelate(lib, sigmaY, sigmaPy, muypy, PlanePoint(ph.y, ph.py));
      var ts := Decorrelate(lib, sigmaT, sigmaPt, mutpt, PlanePoint(ph.t, ph.pt));
      Phase(xs.q, ys.q, ts.q, xs.p, ys.p, ts.p)
    }
  }

  /** Unapply undoes Apply, and Apply undoes Unapply. */
  lemma MomentsRoundTrip(lib: Libm, m: Moments, ph: Phase)
    requires lib.SqrtLaw() && m.Admissible() && m.Invertible()
    ensures m.Unapply(lib, m.Apply(lib, ph)) == ph
    ensures m.Apply(lib, m.Unapply(lib, ph)) == ph
  {
    DecorrelateCorrelate(lib, m.sigmaX, m.sigmaPx, m.muxpx, PlanePoint(ph.x, ph.px));
    DecorrelateCorrelate(lib, m.sigmaY, m.sigmaPy, m.muypy, PlanePoint(ph.y, ph.py));
    DecorrelateCorrelate(lib, m.sigmaT, m.sigmaPt, m.mutpt, PlanePoint(ph.t, ph.pt));
    CorrelateDecorrelate(lib, m.sigmaX, m.sigmaPx, m.muxpx, PlanePoint(ph.x, ph.px));
    CorrelateDecorrelate(lib, m.sigmaY, m.sigmaPy, m.muypy, PlanePoint(ph.y, ph.py));
    CorrelateDecorrelate(lib, m.sigmaT, m.sigmaPt, m.mutpt, PlanePoint(ph.t, ph.pt));
  }

  /** With all three correlations zero every coordinate is scaled by its sigma. */
  lemma UncorrelatedMoments(lib: Libm, m: Moments, ph: Phase)
    requires lib.SqrtLaw() && m.muxpx == 0.0 && m.muypy == 0.0 && m.mutpt == 0.0
    ensures m.Apply(lib, ph) == Phase(m.sigmaX * ph.x, m.sigmaY * ph.y, m.sigmaT * ph.t,
                                      m.sigmaPx * ph.px, m.sigmaPy * ph.py, m.sigmaPt * ph.pt)
  {
    UncorrelatedIsScaling(lib, m.sigmaX, m.sigmaPx, PlanePoint(ph.x, ph.px));
    UncorrelatedIsScaling(lib, m.sigmaY, m.sigmaPy, PlanePoint(ph.y, ph.py));
    UncorrelatedIsScaling(lib, m.sigmaT, m.sigmaPt, PlanePoint(ph.t, ph.pt));
  }

  /** The planes are decoupled: the new (x, px) depend only on the old (x, px),
      and likewise for (y, py) and (t, pt). */
  lemma PlanesIndependent(lib: Libm, m: Moments, a: Phase, b: Phase)
    requires lib.SqrtLaw() && m.Admissible()
    ensures a.x == b.x && a.px == b.px ==> m.Apply(lib, a).x == m.Apply(lib, b).x && m.Apply(lib, a).px == m.Apply(lib, b).px
    ensures a.y == b.y && a.py == b.py ==> m.Apply(lib, a).y == m.Apply(lib, b).y && m.Apply(lib, a).py == m.Apply(lib, b).py
    ensures a.t == b.t && a.pt == b.pt ==> m.Apply(lib, a).t == m.Apply(lib, b).t && m.Apply(lib, a).pt == m.Apply(lib, b).pt
  {
  }
}
