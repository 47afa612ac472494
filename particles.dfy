/** The per-particle record that every element's particle map updates in place. */
module Particles {

  /** Phase-space coordinates of one particle: the position triple (x, y, t),
      offsets from the reference orbit with t = c * (time offset), and the
      momentum triple (px, py, pt), normalised to the reference particle. */
  datatype Phase = Phase(x: real, y: real, t: real, px: real, py: real, pt: real)

  /** One particle of the ensemble.  The source keeps (x, y, t) in the particle's
      array-of-structs record and px, py, pt in separate arrays handed to the
      element by reference; here all six are fields of one object. */
  class Particle {
    var x: real
    var y: real
    var t: real
    var px: real
    var py: real
    var pt: real

    constructor (init: Phase)
      ensures State() == init
    {
      x, y, t := init.x, init.y, init.t;
      px, py, pt := init.px, init.py, init.pt;
    }

    /** The particle's current coordinates as a value. */
    function State(): Phase
      reads this
    {
      Phase(x, y, t, px, py, pt)
    }
  }
}
