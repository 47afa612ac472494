/** The element registry of src/particles/elements/All.H: a closed sum of the
    element kinds, with None first so that a default element is None.  Only
    the kinds whose headers are part of this model appear here. */
module Elements {
  import opened Maths
  import opened Particles
  import opened ReferenceParticle
  import NoneElement
  import ChrQuadElement
  import MultipoleElement
  import NonlinearLensElement
  import PRotElement
  import ThinElement

  datatype KnownElement =
    | NoneKind(none: NoneElement.None)
    | ChrQuadKind(chrquad: ChrQuadElement.ChrQuad)
    | MultipoleKind(multipole: MultipoleElement.Multipole)
    | NonlinearLensKind(lens: NonlinearLensElement.NonlinearLens)
    | PRotKind(prot: PRotElement.PRot)
  {
    /** What each element's particle push asks of its inputs. */
    ghost predicate PushDomain(lib: Libm, refpart: RefPart, ph: Phase)
      reads refpart
    {
      match this
      case NoneKind(_) => true
      case ChrQuadKind(e) =>
        lib.SqrtLaw() && refpart.pt != 0.0 &&
        e.InDomain(refpart.Beta(lib), refpart.RigidityTm(lib), ph.pt)
      case MultipoleKind(e) => e.Valid()
      case NonlinearLensKind(e) => e.InDomain(lib, ph)
      case PRotKind(e) => refpart.pt != 0.0 && e.InDomain(lib, refpart.Beta(lib), ph)
    }

    /** The particle push of whichever element this is.  No element of the
        registry changes the energy deviation pt, and None changes nothing. */
    function Map(lib: Libm, refpart: RefPart, ph: Phase): (r: Phase)
      reads refpart
      requires PushDomain(lib, refpart, ph)
      ensures r.pt == ph.pt
      ensures this.NoneKind? ==> r == ph
    {
      match this
      case NoneKind(e) => e.Map(ph)
      case ChrQuadKind(e) => e.Map(lib, refpart.Beta(lib), refpart.RigidityTm(lib), ph)
      case MultipoleKind(e) => e.Map(ph)
      case NonlinearLensKind(e) => e.Map(lib, ph)
      case PRotKind(e) => e.Map(lib, refpart.Beta(lib), ph)
    }

    /** Dispatches the particle push to the element held. */
    method Push(lib: Libm, p: Particle, refpart: RefPart)
      requires PushDomain(lib, refpart, p.State())
      modifies p
      ensures p.State() == Map(lib, refpart, old(p.State()))
    {
      match this
      case NoneKind(e) => e.Push(p, refpart);
      case ChrQuadKind(e) => e.Push(lib, p, refpart);
      case MultipoleKind(e) => e.Push(p, refpart);
      case NonlinearLensKind(e) => e.Push(lib, p, refpart);
      case PRotKind(e) => e.Push(lib, p, refpart);
    }

    /** Only the chromatic quadrupole is thick; the others push the reference
        particle through the Thin mixin. */
    predicate IsThick()
    {
      this.ChrQuadKind?
    }

    /** What the reference push asks of its inputs. */
    ghost predicate ReferenceDomain(lib: Libm, refpart: RefPart)
      reads refpart
    {
      this.ChrQuadKind? ==> chrquad.nslice != 0 && lib.SqrtLaw() && Abs(refpart.pt) > 1.0
    }

    /** Dispatches the reference push: a thick element advances the reference
        particle by one slice, a thin one leaves it alone. */
    method PushReference(lib: Libm, refpart: RefPart)
      requires ReferenceDomain(lib, refpart)
      modifies refpart
      ensures !IsThick() ==> unchanged(refpart)
      ensures IsThick() ==> refpart.x == old(refpart.x) + ChrQuadElement.RefStep(lib, chrquad.SliceLength(), old(refpart.pt)) * old(refpart.px)
      ensures IsThick() ==> refpart.y == old(refpart.y) + ChrQuadElement.RefStep(lib, chrquad.SliceLength(), old(refpart.pt)) * old(refpart.py)
      ensures IsThick() ==> refpart.z == old(refpart.z) + ChrQuadElement.RefStep(lib, chrquad.SliceLength(), old(refpart.pt)) * old(refpart.pz)
      ensures IsThick() ==> refpart.t == old(refpart.t) - ChrQuadElement.RefStep(lib, chrquad.SliceLength(), old(refpart.pt)) * old(refpart.pt)
      ensures IsThick() ==> refpart.s == old(refpart.s) + chrquad.SliceLength()
      ensures refpart.px == old(refpart.px) && refpart.py == old(refpart.py)
      ensures refpart.pz == old(refpart.pz) && refpart.pt == old(refpart.pt)
      ensures refpart.mass == old(refpart.mass) && refpart.charge == old(refpart.charge)
      ensures refpart.sedge == old(refpart.sedge)
    {
      match this
      case ChrQuadKind(e) => e.PushReference(lib, refpart);
      case NoneKind(e) => e.PushReference(refpart);
      case MultipoleKind(_) => ThinElement.PushReference(refpart);
      case NonlinearLensKind(_) => ThinElement.PushReference(refpart);
      case PRotKind(_) => ThinElement.PushReference(refpart);
    }
  }

  /** The element a default-constructed registry entry holds: None. */
  function Default(): (e: KnownElement)
    ensures e.NoneKind? && !e.IsThick()
  {
    NoneKind(NoneElement.None)
  }

  /** A default element accepts every particle and leaves it unchanged. */
  lemma DefaultIsIdentity(lib: Libm, refpart: RefPart, ph: Phase)
    ensures Default().PushDomain(lib, refpart, ph)
    ensures Default().Map(lib, refpart, ph) == ph
  {
  }
}
