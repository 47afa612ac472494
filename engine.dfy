/** The random-number engine handed to a distribution's sampler
    (amrex::RandomEngine with amrex::Random): modelled as a finite stream of
    uniform draws in [0, 1) together with the position of the next one.  The
    generator that fills the stream is not part of this model. */
module RandomEngine {

  class Engine {
    var draws: seq<real>
    var cursor: nat

    /** Every draw lies in [0, 1) and the cursor is inside the stream. */
    predicate Valid()
      reads this
    {
      cursor <= |draws| && forall i :: 0 <= i < |draws| ==> 0.0 <= draws[i] < 1.0
    }

    /** The next n draws, in the order they will be returned. */
    function Upcoming(n: nat): (u: seq<real>)
      reads this
      requires Valid() && cursor + n <= |draws|
      ensures |u| == n && forall i :: 0 <= i < n ==> 0.0 <= u[i] < 1.0
    {
      draws[cursor..cursor + n]
    }

    constructor (stream: seq<real>)
      requires forall i :: 0 <= i < |stream| ==> 0.0 <= stream[i] < 1.0
      ensures draws == stream && cursor == 0 && Valid()
    {
      draws, cursor := stream, 0;
    }

    /** amrex::Random: returns the next draw and advances by one. */
    method Random() returns (u: real)
      requires Valid() && cursor < |draws|
      modifies this
      ensures u == old(draws[cursor]) && 0.0 <= u < 1.0
      ensures draws == old(draws) && cursor == old(cursor) + 1 && Valid()
    {
      u := draws[cursor];
      cursor := cursor + 1;
    }
  }
}
