/** The exact pole-face rotation of src/particles/elements/PRot.H: a change of
    frame in the x-z plane from one where the reference orbit makes angle
    phi_in with the z axis to one where it makes angle phi_out. */
module PRotElement {
  import opened Maths
  import opened Particles
  import opened ReferenceParticle

  /** The degree-to-radian factor pi / 180. */
  const Degree2Rad: real := Pi / 180.0

  /** A pole-face rotation, with both angles held in radians. */
  datatype PRot = PRot(phiIn: real, phiOut: real)
  {
    /** The net rotation angle. */
    function Theta(): real
    {
      phiOut - phiIn
    }

    /** The horizontal momentum measured against the lab axes of the incoming
        frame. */
    function LabPx(lib: Libm, ph: Phase): real
    {
      ph.px + lib.sin(phiIn)
    }

    /** The quantity whose square root is the particle's longitudinal momentum:
        1 - 2 pt / beta + pt^2 - py^2 - (px + sin phi_in)^2. */
    function Radicand(lib: Libm, beta: real, ph: Phase): real
      requires beta != 0.0
    {
      1.0 - 2.0 * ph.pt / beta + ph.pt * ph.pt - ph.py * ph.py - LabPx(lib, ph) * LabPx(lib, ph)
    }

    /** The longitudinal momentum in the incoming frame. */
    function Pz(lib: Libm, beta: real, ph: Phase): real
      requires beta != 0.0
    {
      lib.sqrt(Radicand(lib, beta, ph))
    }

    /** The longitudinal momentum in the outgoing frame. */
    function Pzf(lib: Libm, beta: real, ph: Phase): real
      requires beta != 0.0
    {
      Pz(lib, beta, ph) * lib.cos(Theta()) - LabPx(lib, ph) * lib.sin(Theta())
    }

    /** sin and cos of phi_out, expanded by angle addition from phi_in and
        the net rotation. */
    ghost predicate AnglesAdd(lib: Libm)
    {
      lib.sin(phiOut) == lib.sin(phiIn) * lib.cos(Theta()) + lib.cos(phiIn) * lib.sin(Theta()) &&
      lib.cos(phiOut) == lib.cos(phiIn) * lib.cos(Theta()) - lib.sin(phiIn) * lib.sin(Theta())
    }

    /** Where the map is defined: beta is non-zero, the square root is taken of
        a non-negative number and the outgoing pz, a divisor, is non-zero. */
    predicate InDomain(lib: Libm, beta: real, ph: Phase)
    {
      beta != 0.0 && Radicand(lib, beta, ph) >= 0.0 && Pzf(lib, beta, ph) != 0.0
    }

    /** The particle map, given the reference particle's beta; py and pt are kept. */
    function Map(lib: Libm, beta: real, ph: Phase): (r: Phase)
      requires InDomain(lib, beta, ph)
      ensures r.py == ph.py && r.pt == ph.pt
    {
      var theta := Theta();
      Rotated(ph, Pz(lib, beta, ph), Pzf(lib, beta, ph), lib.cos(theta), lib.sin(theta),
              TimeSlope(beta, ph.pt), lib.cos(phiIn))
    }

    /** Pushes one particle through the rotation, in place; the reference
        particle is only read, for its beta. */
    method Push(lib: Libm, p: Particle, refpart: RefPart)
      requires refpart.pt != 0.0 && InDomain(lib, refpart.Beta(lib), p.State())
      modifies p
      ensures p.State() == Map(lib, refpart.Beta(lib), old(p.State()))
    {
      var beta := refpart.Beta(lib);
      var r := Map(lib, beta, p.State());
      p.x, p.y, p.t := r.x, r.y, r.t;
      p.px, p.py, p.pt := r.px, r.py, r.pt;
    }
  }

  /** The rotation's formulas, given the longitudinal momenta pz before and
      pzf after, cos and sin of the net angle, the time slope h and cos phi_in:
      x is scaled by pz / pzf, y and t drift by py x sin(theta) / pzf and
      -h x sin(theta) / pzf, and px is rotated. */
  function Rotated(ph: Phase, pz: real, pzf: real, c: real, s: real, h: real, ci: real): Phase
    requires pzf != 0.0
  {
    Phase(Scaled(ph.x, pz, pzf),
          Drift(ph.y, ph.py, ph.x, s, pzf),
          Drift(ph.t, -h, ph.x, s, pzf),
          Turned(ph.px, pz, ci, c, s),
          ph.py,
          ph.pt)
  }

  /** x pz / pzf */
  function Scaled(x: real, pz: real, pzf: real): real
    requires pzf != 0.0
  {
    x * pz / pzf
  }

  /** v + k x s / pzf: a coordinate drifting in proportion to x sin(theta). */
  function Drift(v: real, k: real, x: real, s: real, pzf: real): real
    requires pzf != 0.0
  {
    v + k * x * s / pzf
  }

  /** px cos(theta) + (pz - cos phi_in) sin(theta) */
  function Turned(px: real, pz: real, ci: real, c: real, s: real): real
  {
    px * c + (pz - ci) * s
  }

  /** pt - 1 / beta, the rate at which t shifts with the path-length change. */
  function TimeSlope(beta: real, pt: real): real
    requires beta != 0.0
  {
    pt - 1.0 / beta
  }

  /** The constructor: both angles are given in degrees and stored in radians,
      so the net rotation is the difference of the degrees times pi / 180. */
  function NewPRot(phiInDeg: real, phiOutDeg: real): (e: PRot)
    ensures e.Theta() == (phiOutDeg - phiInDeg) * Degree2Rad
    ensures e.phiIn * 180.0 == phiInDeg * Pi && e.phiOut * 180.0 == phiOutDeg * Pi
  {
    PRot(phiInDeg * Degree2Rad, phiOutDeg * Degree2Rad)
  }

  /** Equal angles mean no rotation: the map is the identity (its domain then
      forces pz != 0). */
  lemma NoRotationIsIdentity(lib: Libm, e: PRot, beta: real, ph: Phase)
    requires lib.AtZero() && e.phiIn == e.phiOut && e.InDomain(lib, beta, ph)
    ensures e.Map(lib, beta, ph) == ph
  {
    assert e.Theta() == 0.0;
    var pz := e.Pz(lib, beta, ph);
    assert e.Pzf(lib, beta, ph) == pz;
  }

  /** A particle with x = 0 keeps x, y and t. */
  lemma OnAxisKeepsPosition(lib: Libm, e: PRot, beta: real, ph: Phase)
    requires e.InDomain(lib, beta, ph) && ph.x == 0.0
    ensures var r := e.Map(lib, beta, ph); r.x == 0.0 && r.y == ph.y && r.t == ph.t
  {
  }

  /** The rotation that undoes e: from phi_out back to phi_in. */
  function Reverse(e: PRot): (back: PRot)
    ensures back.Theta() == -e.Theta()
  {
    PRot(e.phiOut, e.phiIn)
  }

  /** The angle-addition law gives the expansion for every rotation. */
  lemma AnglesAddByLaw(lib: Libm, e: PRot)
    requires lib.AngleAddition()
    ensures e.AnglesAdd(lib)
  {
    var theta := e.Theta();
    assert e.phiIn + theta == e.phiOut;
    assert lib.sin(e.phiIn + theta) == lib.sin(e.phiIn) * lib.cos(theta) + lib.cos(e.phiIn) * lib.sin(theta);
    assert lib.cos(e.phiIn + theta) == lib.cos(e.phiIn) * lib.cos(theta) - lib.sin(e.phiIn) * lib.sin(theta);
  }

  /** cos is even and sin is odd. */
  lemma NegatedAngle(lib: Libm, theta: real)
    requires lib.Parity()
    ensures lib.cos(-theta) == lib.cos(theta) && lib.sin(-theta) == -lib.sin(theta)
  {
    assert -theta + theta == 0.0;
  }

  /** Rotating a vector keeps its length. */
  lemma RotationKeepsNorm(a: real, b: real, c: real, s: real)
    requires c * c + s * s == 1.0
    ensures (a * c + b * s) * (a * c + b * s) + (b * c - a * s) * (b * c - a * s) == a * a + b * b
  {
    calc {
      (a * c + b * s) * (a * c + b * s) + (b * c - a * s) * (b * c - a * s);
      == a * a * (c * c + s * s) + b * b * (c * c + s * s);
      == a * a + b * b;
    }
  }

  /** With b^2 = k - a^2, the rotated first component a' leaves k - a'^2 equal
      to the square of the rotated second component. */
  lemma NormAfterRotation(k: real, a: real, b: real, a2: real, b2: real, c: real, s: real)
    requires c * c + s * s == 1.0 && b * b == k - a * a
    requires a2 == a * c + b * s && b2 == b * c - a * s
    ensures k - a2 * a2 == b2 * b2
  {
    RotationKeepsNorm(a, b, c, s);
  }

  /** Rotating back by the same angle recovers the second component. */
  lemma RotationUndone(a: real, b: real, c: real, s: real)
    requires c * c + s * s == 1.0
    ensures (b * c - a * s) * c + (a * c + b * s) * s == b
  {
    calc {
      (b * c - a * s) * c + (a * c + b * s) * s;
      == b * (c * c + s * s);
      == b;
    }
  }

  /** px' + sin phi_out, with px' from the map and sin phi_out expanded, is
      (px + sin phi_in) rotated by theta. */
  lemma LabPxAfter(px: real, pz: real, si: real, ci: real, c: real, s: real)
    ensures (px * c + (pz - ci) * s) + (si * c + ci * s) == (px + si) * c + pz * s
  {
  }

  /** The horizontal momentum comes back: with pzf = pz cos theta - (px + sin phi_in) sin theta
      and cos phi_out expanded by angle addition, rotating back by -theta restores px. */
  lemma TurnedBack(px: real, pz: real, pzf: real, si: real, ci: real, co: real, c: real, s: real)
    requires c * c + s * s == 1.0
    requires pzf == pz * c - (px + si) * s && co == ci * c - si * s
    ensures Turned(Turned(px, pz, ci, c, s), pzf, co, c, -s) == px
  {
    var a := pz - ci;
    assert pzf - co == a * c - px * s;
    calc {
      Turned(Turned(px, pz, ci, c, s), pzf, co, c, -s);
      == (px * c + a * s) * c + (a * c - px * s) * -s;
      == px * (c * c + s * s);
      == px;
    }
  }

  /** x is scaled by pz / pzf and back by pzf / pz. */
  lemma ScaledBack(x: real, pz: real, pzf: real)
    requires pz != 0.0 && pzf != 0.0
    ensures Scaled(Scaled(x, pz, pzf), pzf, pz) == x
  {
  }

  /** The drift k x sin(theta) / pzf is cancelled by the drift back,
      k x' sin(-theta) / pz, since x' = x pz / pzf. */
  lemma DriftBack(v: real, k: real, x: real, s: real, pz: real, pzf: real)
    requires pz != 0.0 && pzf != 0.0
    ensures Drift(Drift(v, k, x, s, pzf), k, Scaled(x, pz, pzf), -s, pz) == v
  {
    assert k * (x * pz / pzf) * -s / pz == -(k * x * s / pzf);
  }

  /** The reverse rotation's lab-frame px at q is the forward one rotated by
      theta: (px + sin phi_in) cos theta + pz sin theta. */
  lemma ReverseLabPx(lib: Libm, e: PRot, ph: Phase, q: Phase, pz: real)
    requires e.AnglesAdd(lib)
    requires q.px == ph.px * lib.cos(e.Theta()) + (pz - lib.cos(e.phiIn)) * lib.sin(e.Theta())
    ensures Reverse(e).LabPx(lib, q) == e.LabPx(lib, ph) * lib.cos(e.Theta()) + pz * lib.sin(e.Theta())
  {
    var c, s := lib.cos(e.Theta()), lib.sin(e.Theta());
    var si, ci := lib.sin(e.phiIn), lib.cos(e.phiIn);
    assert Reverse(e).LabPx(lib, q) == q.px + (si * c + ci * s);
    LabPxAfter(ph.px, pz, si, ci, c, s);
  }

  /** The reverse rotation's radicand at q is the square of the forward pzf. */
  lemma ReverseRadicand(lib: Libm, e: PRot, beta: real, ph: Phase, q: Phase, pz: real, pzf: real)
    requires beta != 0.0
    requires lib.cos(e.Theta()) * lib.cos(e.Theta()) + lib.sin(e.Theta()) * lib.sin(e.Theta()) == 1.0
    requires pz * pz == e.Radicand(lib, beta, ph)
    requires pzf == pz * lib.cos(e.Theta()) - e.LabPx(lib, ph) * lib.sin(e.Theta())
    requires Reverse(e).LabPx(lib, q) == e.LabPx(lib, ph) * lib.cos(e.Theta()) + pz * lib.sin(e.Theta())
    requires q.py == ph.py && q.pt == ph.pt
    ensures Reverse(e).Radicand(lib, beta, q) == pzf * pzf
  {
    var c, s := lib.cos(e.Theta()), lib.sin(e.Theta());
    var a, b := e.LabPx(lib, ph), Reverse(e).LabPx(lib, q);
    var k := 1.0 - 2.0 * ph.pt / beta + ph.pt * ph.pt - ph.py * ph.py;
    assert e.Radicand(lib, beta, ph) == k - a * a;
    assert Reverse(e).Radicand(lib, beta, q) == k - b * b;
    NormAfterRotation(k, a, pz, b, pzf, c, s);
  }

  /** The reverse rotation's pz at q is the forward pzf, when pzf > 0. */
  lemma ReversePz(lib: Libm, e: PRot, beta: real, ph: Phase, q: Phase, pz: real, pzf: real)
    requires lib.SqrtLaw() && beta != 0.0 && pzf > 0.0
    requires lib.cos(e.Theta()) * lib.cos(e.Theta()) + lib.sin(e.Theta()) * lib.sin(e.Theta()) == 1.0
    requires pz * pz == e.Radicand(lib, beta, ph)
    requires pzf == pz * lib.cos(e.Theta()) - e.LabPx(lib, ph) * lib.sin(e.Theta())
    requires Reverse(e).LabPx(lib, q) == e.LabPx(lib, ph) * lib.cos(e.Theta()) + pz * lib.sin(e.Theta())
    requires q.py == ph.py && q.pt == ph.pt
    ensures Reverse(e).Radicand(lib, beta, q) >= 0.0
    ensures Reverse(e).Pz(lib, beta, q) == pzf
  {
    ReverseRadicand(lib, e, beta, ph, q, pz, pzf);
    SquareNonNegative(pzf);
    SqrtUnique(lib, Reverse(e).Radicand(lib, beta, q), pzf);
  }

  /** The reverse rotation's pzf at q is the forward pz. */
  lemma ReversePzf(lib: Libm, e: PRot, beta: real, q: Phase, pz: real, pzf: real,
                   a: real, c: real, s: real)
    requires beta != 0.0 && c * c + s * s == 1.0
    requires lib.cos(Reverse(e).Theta()) == c && lib.sin(Reverse(e).Theta()) == -s
    requires Reverse(e).Pz(lib, beta, q) == pzf && pzf == pz * c - a * s
    requires Reverse(e).LabPx(lib, q) == a * c + pz * s
    ensures Reverse(e).Pzf(lib, beta, q) == pz
  {
    PzRestored(pz, pzf, a, Reverse(e).LabPx(lib, q), c, s);
  }

  /** The second half: with its pz the forward pzf, the reverse rotation's
      pzf at q is the forward pz, and q lies in its domain. */
  lemma ReverseAtPzf(lib: Libm, e: PRot, beta: real, ph: Phase, q: Phase)
    requires lib.cos(e.Theta()) * lib.cos(e.Theta()) + lib.sin(e.Theta()) * lib.sin(e.Theta()) == 1.0
    requires lib.cos(Reverse(e).Theta()) == lib.cos(e.Theta()) && lib.sin(Reverse(e).Theta()) == -lib.sin(e.Theta())
    requires e.InDomain(lib, beta, ph) && e.Pz(lib, beta, ph) != 0.0
    requires Reverse(e).LabPx(lib, q) == e.LabPx(lib, ph) * lib.cos(e.Theta()) + e.Pz(lib, beta, ph) * lib.sin(e.Theta())
    requires Reverse(e).Radicand(lib, beta, q) >= 0.0 && Reverse(e).Pz(lib, beta, q) == e.Pzf(lib, beta, ph)
    ensures Reverse(e).InDomain(lib, beta, q)
    ensures Reverse(e).Pzf(lib, beta, q) == e.Pz(lib, beta, ph)
  {
    ReversePzf(lib, e, beta, q, e.Pz(lib, beta, ph), e.Pzf(lib, beta, ph), e.LabPx(lib, ph),
               lib.cos(e.Theta()), lib.sin(e.Theta()));
  }

  /** The reverse rotation seen from a particle q whose momenta are those
      the map produces from ph: its lab-frame px is the forward one rotated,
      its radicand is pzf^2 and so (for pzf > 0) its pz is the forward pzf. */
  lemma ReverseAtPz(lib: Libm, e: PRot, beta: real, ph: Phase, q: Phase)
    requires lib.SqrtLaw() && e.AnglesAdd(lib)
    requires lib.cos(e.Theta()) * lib.cos(e.Theta()) + lib.sin(e.Theta()) * lib.sin(e.Theta()) == 1.0
    requires e.InDomain(lib, beta, ph) && e.Pzf(lib, beta, ph) > 0.0
    requires q.px == ph.px * lib.cos(e.Theta()) + (e.Pz(lib, beta, ph) - lib.cos(e.phiIn)) * lib.sin(e.Theta())
    requires q.py == ph.py && q.pt == ph.pt
    ensures Reverse(e).LabPx(lib, q) == e.LabPx(lib, ph) * lib.cos(e.Theta()) + e.Pz(lib, beta, ph) * lib.sin(e.Theta())
    ensures Reverse(e).Radicand(lib, beta, q) >= 0.0 && Reverse(e).Pz(lib, beta, q) == e.Pzf(lib, beta, ph)
  {
    var pz := e.Pz(lib, beta, ph);
    ReverseLabPx(lib, e, ph, q, pz);
    assert pz * pz == e.Radicand(lib, beta, ph);
    ReversePz(lib, e, beta, ph, q, pz, e.Pzf(lib, beta, ph));
  }

  /** Rotating (a, pz) by theta and back by -theta restores pz. */
  lemma PzRestored(pz: real, pzf: real, a: real, b: real, c: real, s: real)
    requires c * c + s * s == 1.0
    requires pzf == pz * c - a * s && b == a * c + pz * s
    ensures pzf * c - b * -s == pz
  {
    calc {
      pzf * c - b * -s;
      == (pz * c - a * s) * c + (a * c + pz * s) * s;
      == { RotationUndone(a, pz, c, s); } pz;
    }
  }

  /** The two passes of the round trip, on explicit formulas: r from ph, then
      rr from r with pz and pzf exchanged, sin theta negated and cos phi_out in
      place of cos phi_in. */
  ghost predicate TwoPasses(ph: Phase, r: Phase, rr: Phase, h: real, pz: real, pzf: real,
                            c: real, s: real, ci: real, co: real)
  {
    pz != 0.0 && pzf != 0.0 &&
    r == Rotated(ph, pz, pzf, c, s, h, ci) && rr == Rotated(r, pzf, pz, c, -s, h, co)
  }

  /** The algebra of the round trip: the second pass restores every coordinate. */
  lemma RoundTripAlgebra(ph: Phase, r: Phase, rr: Phase, h: real, pz: real, pzf: real,
                         c: real, s: real, si: real, ci: real, co: real)
    requires TwoPasses(ph, r, rr, h, pz, pzf, c, s, ci, co)
    requires c * c + s * s == 1.0
    requires pzf == pz * c - (ph.px + si) * s && co == ci * c - si * s
    ensures rr == ph
  {
    ScaledBack(ph.x, pz, pzf);
    DriftBack(ph.y, ph.py, ph.x, s, pz, pzf);
    DriftBack(ph.t, -h, ph.x, s, pz, pzf);
    TurnedBack(ph.px, pz, pzf, si, ci, co, c, s);
  }

  /** The round trip, given the instances of the trigonometric laws it uses. */
  lemma RoundTrip(lib: Libm, e: PRot, beta: real, ph: Phase)
    requires lib.SqrtLaw() && e.AnglesAdd(lib)
    requires lib.cos(e.Theta()) * lib.cos(e.Theta()) + lib.sin(e.Theta()) * lib.sin(e.Theta()) == 1.0
    requires lib.cos(Reverse(e).Theta()) == lib.cos(e.Theta()) && lib.sin(Reverse(e).Theta()) == -lib.sin(e.Theta())
    requires e.InDomain(lib, beta, ph) && e.Pz(lib, beta, ph) != 0.0 && e.Pzf(lib, beta, ph) > 0.0
    ensures Reverse(e).InDomain(lib, beta, e.Map(lib, beta, ph))
    ensures Reverse(e).Map(lib, beta, e.Map(lib, beta, ph)) == ph
  {
    var r := e.Map(lib, beta, ph);
    var back := Reverse(e);
    var pz, pzf := e.Pz(lib, beta, ph), e.Pzf(lib, beta, ph);
    var c, s := lib.cos(e.Theta()), lib.sin(e.Theta());
    var si, ci, co := lib.sin(e.phiIn), lib.cos(e.phiIn), lib.cos(e.phiOut);
    var h := TimeSlope(beta, ph.pt);
    assert r == Rotated(ph, pz, pzf, c, s, h, ci);
    assert back.InDomain(lib, beta, r) && back.Pz(lib, beta, r) == pzf && back.Pzf(lib, beta, r) == pz by {
      ReverseAtPz(lib, e, beta, ph, r);
      ReverseAtPzf(lib, e, beta, ph, r);
    }
    var rr := back.Map(lib, beta, r);
    assert rr == Rotated(r, pzf, pz, c, -s, h, co) by {
      assert back.phiIn == e.phiOut;
    }
    assert pzf == pz * c - (ph.px + si) * s;
    assert co == ci * c - si * s;
    RoundTripAlgebra(ph, r, rr, h, pz, pzf, c, s, si, ci, co);
  }

  /** The rotation is exactly reversible: rotating back from phi_out to phi_in
      restores all six coordinates of a particle that moves forward in both
      frames (pz != 0 and pzf > 0). */
  lemma Reversible(lib: Libm, e: PRot, beta: real, ph: Phase)
    requires lib.SqrtLaw() && lib.AngleAddition() && lib.Pythagoras() && lib.Parity()
    requires e.InDomain(lib, beta, ph) && e.Pz(lib, beta, ph) != 0.0 && e.Pzf(lib, beta, ph) > 0.0
    ensures Reverse(e).InDomain(lib, beta, e.Map(lib, beta, ph))
    ensures Reverse(e).Map(lib, beta, e.Map(lib, beta, ph)) == ph
  {
    AnglesAddByLaw(lib, e);
    NegatedAngle(lib, e.Theta());
    RoundTrip(lib, e, beta, ph);
  }
}
