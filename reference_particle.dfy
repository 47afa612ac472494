/** The reference particle (ReferenceParticle.H): the single trajectory that
    defines the moving frame, with its derived kinematic quantities and the
    chainable setters used to configure it. */
module ReferenceParticle {
  import opened Maths

  /** pz = sqrt(pt^2 - 1): the longitudinal momentum of a particle moving along
      the axis (px = py = 0) with energy coordinate pt. */
  function OnAxisPz(lib: Libm, pt: real): real
  {
    lib.sqrt(pt * pt - 1.0)
  }

  /** beta = sqrt(1 - 1/gamma^2) */
  function BetaOf(lib: Libm, gamma: real): real
    requires gamma != 0.0
  {
    lib.sqrt(1.0 - 1.0 / (gamma * gamma))
  }

  /** beta * gamma = sqrt(gamma^2 - 1) */
  function BetaGammaOf(lib: Libm, gamma: real): real
  {
    lib.sqrt(gamma * gamma - 1.0)
  }

  class RefPart {
    var s: real       // integrated orbit path length (m)
    var x: real       // horizontal position (m)
    var y: real       // vertical position (m)
    var z: real       // longitudinal position (m)
    var t: real       // clock time * c (m)
    var px: real      // momenta, normalised to proper velocity
    var py: real
    var pz: real
    var pt: real      // energy deviation, normalised by rest energy
    var mass: real    // rest mass (kg)
    var charge: real  // charge (C)
    var sedge: real   // value of s at the entrance of the current element

    /** Every attribute starts at zero. */
    constructor ()
      ensures s == 0.0 && x == 0.0 && y == 0.0 && z == 0.0 && t == 0.0
      ensures px == 0.0 && py == 0.0 && pz == 0.0 && pt == 0.0
      ensures mass == 0.0 && charge == 0.0 && sedge == 0.0
    {
      s, x, y, z, t := 0.0, 0.0, 0.0, 0.0, 0.0;
      px, py, pz, pt := 0.0, 0.0, 0.0, 0.0;
      mass, charge, sedge := 0.0, 0.0, 0.0;
    }

    /** Relativistic gamma, stored as -pt. */
    function Gamma(): real
      reads this
    {
      -pt
    }

    /** Relativistic beta; gamma must not be zero. */
    function Beta(lib: Libm): real
      reads this
      requires pt != 0.0
    {
      BetaOf(lib, Gamma())
    }

    /** Relativistic beta * gamma. */
    function BetaGamma(lib: Libm): real
      reads this
    {
      BetaGammaOf(lib, Gamma())
    }

    /** Rest mass in MeV/c^2: converted back to kg it is the mass attribute. */
    function MassMeV(): (r: real)
      reads this
      ensures r * MeVInvc2 == mass
    {
      mass * (1.0 / MeVInvc2)
    }

    /** Kinetic energy in MeV: zero exactly for a massless particle or one at
        rest (gamma = 1), positive for a massive particle with gamma > 1. */
    function EnergyMeV(): (r: real)
      reads this
      ensures r == 0.0 <==> mass == 0.0 || pt == -1.0
      ensures mass > 0.0 && pt < -1.0 ==> r > 0.0
    {
      MassMeV() * (Gamma() - 1.0)
    }

    /** Magnetic rigidity in T*m.  It divides by the elementary charge, not by the
        charge attribute, so neither the sign nor the size of charge enters. */
    function RigidityTm(lib: Libm): real
      reads this
    {
      mass * BetaGamma(lib) * C / Qe
    }

    /** Charge in multiples of the (positive) elementary charge. */
    function ChargeQe(): (r: real)
      reads this
      ensures r * Qe == charge
    {
      charge * (1.0 / Qe)
    }

    /** Charge-to-mass ratio. */
    function QmQeeV(): (r: real)
      reads this
      requires mass != 0.0
      ensures r * mass == charge
    {
      charge / mass
    }

    /** Sets the rest mass from MeV/c^2 and "re-scales" pt and pz.  Because
        EnergyMeV() is read after mass has been overwritten, the new pt equals
        the old one: the kinetic energy scales with the mass instead of being
        kept.  Returns this object so that calls can be chained. */
    method SetMassMeV(lib: Libm, massE: real) returns (r: RefPart)
      requires massE != 0.0
      modifies this
      ensures r == this
      ensures mass == massE * MeVInvc2 && MassMeV() == massE
      ensures pt == old(pt)
      ensures pz == if old(pt) != 0.0 then OnAxisPz(lib, pt) else old(pz)
      ensures EnergyMeV() == massE * (old(Gamma()) - 1.0)
      ensures s == old(s) && x == old(x) && y == old(y) && z == old(z) && t == old(t)
      ensures px == old(px) && py == old(py) && charge == old(charge) && sedge == old(sedge)
    {
      mass := massE * MeVInvc2;
      MassRoundTrip(massE);
      if pt != 0.0 {
        DivOfProduct(massE, Gamma() - 1.0, EnergyMeV());
        pt := -EnergyMeV() / massE - 1.0;
        pz := OnAxisPz(lib, pt);
      }
      r := this;
    }

    /** The same setter with the kinetic energy read before the mass changes,
        so that a particle already given an energy keeps it. */
    method SetMassMeVKeepingEnergy(lib: Libm, massE: real) returns (r: RefPart)
      requires massE != 0.0
      modifies this
      ensures r == this
      ensures mass == massE * MeVInvc2 && MassMeV() == massE
      ensures old(pt) != 0.0 ==> EnergyMeV() == old(EnergyMeV())
      ensures pt == if old(pt) != 0.0 then -old(EnergyMeV()) / massE - 1.0 else old(pt)
      ensures pz == if old(pt) != 0.0 then OnAxisPz(lib, pt) else old(pz)
      ensures s == old(s) && x == old(x) && y == old(y) && z == old(z) && t == old(t)
      ensures px == old(px) && py == old(py) && charge == old(charge) && sedge == old(sedge)
    {
      var energy := EnergyMeV();
      mass := massE * MeVInvc2;
      MassRoundTrip(massE);
      if pt != 0.0 {
        pt := -energy / massE - 1.0;
        pz := OnAxisPz(lib, pt);
        calc {
          EnergyMeV();
          == massE * (energy / massE + 1.0 - 1.0);
          == massE * (energy / massE);
          == { CancelFactor(massE, energy); } energy;
        }
      }
      r := this;
    }

    /** Sets the kinetic energy in MeV for a particle on axis: px = py = 0 and
        pt, pz follow from the energy and the rest mass.  Returns this object. */
    method SetEnergyMeV(lib: Libm, energy: real) returns (r: RefPart)
      requires mass != 0.0
      modifies this
      ensures r == this
      ensures mass == old(mass) && charge == old(charge) && sedge == old(sedge)
      ensures px == 0.0 && py == 0.0
      ensures pt == -energy / MassMeV() - 1.0
      ensures pz == OnAxisPz(lib, pt)
      ensures EnergyMeV() == energy
      ensures s == old(s) && x == old(x) && y == old(y) && z == old(z) && t == old(t)
    {
      var m := MassMeV();
      assert m != 0.0;
      px := 0.0;
      py := 0.0;
      pt := -energy / m - 1.0;
      pz := OnAxisPz(lib, pt);
      calc {
        EnergyMeV();
        == m * (energy / m + 1.0 - 1.0);
        == m * (energy / m);
        == { CancelFactor(m, energy); } energy;
      }
      r := this;
    }

    /** Sets the charge from multiples of the elementary charge.  Returns this object. */
    method SetChargeQe(chargeQe: real) returns (r: RefPart)
      modifies this
      ensures r == this
      ensures charge == chargeQe * Qe && ChargeQe() == chargeQe
      ensures s == old(s) && x == old(x) && y == old(y) && z == old(z) && t == old(t)
      ensures px == old(px) && py == old(py) && pz == old(pz) && pt == old(pt)
      ensures mass == old(mass) && sedge == old(sedge)
    {
      charge := chargeQe * Qe;
      r := this;
    }
  }

  /** Converting MeV/c^2 to kg and back is exact. */
  lemma MassRoundTrip(massE: real)
    ensures massE * MeVInvc2 * (1.0 / MeVInvc2) == massE
  {
  }

  lemma CancelFactor(m: real, e: real)
    requires m != 0.0
    ensures m * (e / m) == e
  {
  }

  lemma DivOfProduct(m: real, e: real, prod: real)
    requires m != 0.0 && prod == m * e
    ensures prod / m == e
  {
  }

  /** (beta gamma)^2 = gamma^2 - 1 whenever gamma^2 >= 1. */
  lemma BetaGammaSquared(lib: Libm, p: RefPart)
    requires lib.SqrtLaw()
    requires p.pt * p.pt >= 1.0
    ensures p.BetaGamma(lib) * p.BetaGamma(lib) == p.Gamma() * p.Gamma() - 1.0
  {
    assert p.Gamma() * p.Gamma() == p.pt * p.pt;
  }

  /** beta * gamma equals beta_gamma for a particle moving forward (gamma >= 1). */
  lemma BetaTimesGamma(lib: Libm, p: RefPart)
    requires lib.SqrtLaw()
    requires p.pt <= -1.0
    ensures p.Beta(lib) * p.Gamma() == p.BetaGamma(lib)
  {
    assert p.Beta(lib) == BetaOf(lib, p.Gamma());
    assert p.BetaGamma(lib) == BetaGammaOf(lib, p.Gamma());
    RootIdentity(lib, p.Gamma());
  }

  /** The on-axis momentum of a particle with energy pt is the beta gamma of
      the Lorentz factor -pt. */
  lemma OnAxisPzIsBetaGamma(lib: Libm, pt: real)
    ensures OnAxisPz(lib, pt) == BetaGammaOf(lib, -pt)
  {
    assert (-pt) * (-pt) - 1.0 == pt * pt - 1.0;
    SqrtCongruence(lib, (-pt) * (-pt) - 1.0, pt * pt - 1.0);
  }

  /** sqrt(1 - 1/g^2) * g == sqrt(g^2 - 1) for g >= 1. */
  lemma RootIdentity(lib: Libm, g: real)
    requires lib.SqrtLaw()
    requires g >= 1.0
    ensures BetaOf(lib, g) * g == BetaGammaOf(lib, g)
  {
    var g2 := g * g;
    assert g2 >= 1.0 by { MulAtLeastOne(g, g); }
    assert 0.0 <= 1.0 - 1.0 / g2 by { DivAtMostOne(g2); }
    var b := BetaOf(lib, g);
    assert b >= 0.0 && b * b == 1.0 - 1.0 / g2;
    calc {
      (b * g) * (b * g);
      == (b * b) * g2;
      == (1.0 - 1.0 / g2) * g2;
      == g2 - 1.0;
    }
    assert b * g >= 0.0;
    SqrtUnique(lib, g2 - 1.0, b * g);
  }

  /** A reference particle with gamma > 1 has 0 < beta < 1. */
  lemma BetaBetweenZeroAndOne(lib: Libm, p: RefPart)
    requires lib.SqrtLaw()
    requires p.pt < -1.0
    ensures 0.0 < p.Beta(lib) < 1.0
  {
    assert p.Beta(lib) == BetaOf(lib, p.Gamma());
    BetaBelowOne(lib, p.Gamma());
  }

  lemma BetaBelowOne(lib: Libm, g: real)
    requires lib.SqrtLaw()
    requires g > 1.0
    ensures 0.0 < BetaOf(lib, g) < 1.0
  {
    var g2 := g * g;
    assert g2 > 1.0 by { MulAtLeastOne(g, g); assert g2 > g; }
    var a := 1.0 - 1.0 / g2;
    assert 0.0 < 1.0 / g2 < 1.0;
    SqrtPositive(lib, a);
    SqrtBelowOne(lib, a);
  }

  lemma MulAtLeastOne(a: real, b: real)
    requires a >= 1.0 && b >= 1.0
    ensures a * b >= 1.0 && a * b >= a
  {
  }

  lemma DivAtMostOne(a: real)
    requires a >= 1.0
    ensures 0.0 < 1.0 / a <= 1.0
  {
  }

  /** Rigidity depends on the mass and pt only: two reference particles that
      differ in charge (even in its sign) have the same rigidity. */
  lemma RigidityIgnoresCharge(lib: Libm, p: RefPart, q: RefPart)
    requires p.mass == q.mass && p.pt == q.pt
    ensures p.RigidityTm(lib) == q.RigidityTm(lib)
  {
    assert p.Gamma() == q.Gamma();
    assert p.BetaGamma(lib) == q.BetaGamma(lib);
  }

  /** For positive mass and gamma > 1 the rigidity is positive, whatever the
      sign of the charge. */
  lemma RigidityPositive(lib: Libm, p: RefPart)
    requires lib.SqrtLaw()
    requires p.mass > 0.0 && p.pt * p.pt > 1.0
    ensures p.RigidityTm(lib) > 0.0
  {
    assert p.Gamma() * p.Gamma() == p.pt * p.pt;
    SqrtPositive(lib, p.Gamma() * p.Gamma() - 1.0);
    var bg := p.BetaGamma(lib);
    MulPositive(p.mass, bg);
    MulPositive(p.mass * bg, C);
  }

  /** The reference-particle setup of the positron-channel example:
      set_charge_qe(1).set_mass_MeV(0.510998950).set_energy_MeV(10 GeV) on a
      fresh reference particle. */
  method PositronReference(lib: Libm) returns (ref: RefPart)
    ensures ref.ChargeQe() == 1.0 && ref.MassMeV() == 0.510998950
    ensures ref.EnergyMeV() == 10000.0 && ref.pt == -10000.0 / 0.510998950 - 1.0
    ensures ref.px == 0.0 && ref.py == 0.0 && ref.s == 0.0
  {
    ref := new RefPart();
    var r1 := ref.SetChargeQe(1.0);
    var r2 := r1.SetMassMeV(lib, 0.510998950);
    ref := r2.SetEnergyMeV(lib, 10000.0);
  }

  /** A fresh particle of 1 MeV/c^2 given 1 MeV of kinetic energy: gamma = 2. */
  method OneMeVParticle(lib: Libm) returns (p: RefPart)
    ensures fresh(p)
    ensures p.MassMeV() == 1.0 && p.pt == -2.0 && p.EnergyMeV() == 1.0
  {
    p := new RefPart();
    var p1 := p.SetMassMeV(lib, 1.0);
    p := p1.SetEnergyMeV(lib, 1.0);
    assert p.pt == -1.0 / 1.0 - 1.0;
  }

  /** A particle of 1 MeV/c^2 given 1 MeV of kinetic energy, whose mass is then
      set to 2 MeV/c^2: as written the kinetic energy becomes 2 MeV; with the
      energy read before the mass changes it stays at 1 MeV. */
  method MassChangeAfterEnergy(lib: Libm) returns (asWritten: real, keepingEnergy: real)
    ensures asWritten == 2.0 && keepingEnergy == 1.0
  {
    var a := OneMeVParticle(lib);
    assert a.Gamma() == 2.0;
    var a1 := a.SetMassMeV(lib, 2.0);
    assert a1.EnergyMeV() == 2.0 * (2.0 - 1.0);
    asWritten := a1.EnergyMeV();

    var b := OneMeVParticle(lib);
    var b1 := b.SetMassMeVKeepingEnergy(lib, 2.0);
    keepingEnergy := b1.EnergyMeV();
  }
}
