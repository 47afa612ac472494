/** The element None of src/particles/elements/None.H: an element that does
    nothing.  Every one of its pushes has an empty body. */
module NoneElement {
  import opened Particles
  import opened ReferenceParticle
  import ThinElement

  /** The element has no parameters. */
  datatype None = None
  {
    /** The per-particle push: the particle's coordinates are returned as
        they came in. */
    function Map(ph: Phase): (r: Phase)
      ensures r == ph
    {
      ph
    }

    /** The in-place particle push: the body is empty, so the particle keeps
        its coordinates, which is Map of its old state. */
    method Push(p: Particle, refpart: RefPart)
      modifies p
      ensures p.State() == Map(old(p.State()))
    {
    }

    /** The push of a whole particle container: the particles are returned
        as they came in, whatever the step number. */
    function PushContainer(pc: seq<Phase>, step: int): (r: seq<Phase>)
      ensures r == pc
    {
      pc
    }

    /** The push of the particles of one tile together with the reference
        particle: with no modifies clause, none of them can change. */
    method PushTile(particles: seq<Particle>, refpart: RefPart)
      ensures unchanged(refpart)
      ensures forall i :: 0 <= i < |particles| ==> unchanged(particles[i])
    {
    }

    /** The reference push comes from the Thin mixin. */
    method PushReference(refpart: RefPart)
      ensures unchanged(refpart)
    {
      ThinElement.PushReference(refpart);
    }

    /** n pushes through None, one after the other. */
    function Repeat(n: nat, ph: Phase): Phase
    {
      if n == 0 then ph else Map(Repeat(n - 1, ph))
    }
  }

  /** Any number of pushes through None is the identity. */
  lemma {:induction false} RepeatIsIdentity(e: None, n: nat, ph: Phase)
    ensures e.Repeat(n, ph) == ph
  {
    if n > 0 {
      RepeatIsIdentity(e, n - 1, ph);
    }
  }

  /** None is idempotent: pushing twice is pushing once. */
  lemma Idempotent(e: None, ph: Phase)
    ensures e.Map(e.Map(ph)) == e.Map(ph)
  {
  }

  /** A container push followed by another is still the original container. */
  lemma ContainerPushesCompose(e: None, pc: seq<Phase>, step1: int, step2: int)
    ensures e.PushContainer(e.PushContainer(pc, step1), step2) == pc
  {
  }
}
