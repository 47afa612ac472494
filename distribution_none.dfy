/** The distribution None of src/particles/distribution/None.H: a sampler
    that leaves the six coordinates it is handed as they are and never reads
    the random-number engine. */
module NoneDistribution {
  import opened Particles
  import opened RandomEngine

  /** The sampler has no parameters. */
  datatype None = None
  {
    /** The coordinates after sampling: the ones handed in. */
    function Apply(ph: Phase): (r: Phase)
      ensures r == ph
    {
      ph
    }

    /** The sampler as called with its engine: the coordinates come back
        unchanged and, with no modifies clause, no draw is consumed. */
    method Draw(engine: Engine, x: real, y: real, t: real, px: real, py: real, pt: real)
      returns (x': real, y': real, t': real, px': real, py': real, pt': real)
      ensures Phase(x', y', t', px', py', pt') == Apply(Phase(x, y, t, px, py, pt))
      ensures engine.cursor == old(engine.cursor) && engine.draws == old(engine.draws)
    {
      x', y', t', px', py', pt' := x, y, t, px, py, pt;
    }

    /** n applications of the sampler, one after the other. */
    function Repeat(n: nat, ph: Phase): Phase
    {
      if n == 0 then ph else Apply(Repeat(n - 1, ph))
    }
  }

  /** Sampling twice is sampling once, which is the identity. */
  lemma Idempotent(d: None, ph: Phase)
    ensures d.Apply(d.Apply(ph)) == d.Apply(ph) == ph
  {
  }

  /** Any number of applications is the identity. */
  lemma {:induction false} RepeatIsIdentity(d: None, n: nat, ph: Phase)
    ensures d.Repeat(n, ph) == ph
  {
    if n > 0 {
      RepeatIsIdentity(d, n - 1, ph);
    }
  }
}
