/** The generic split-step integrators of Integrators.H.  An element that has
    no closed-form map over its whole length exposes sub-step maps map1, map2
    and map3; an integrator advances it over [zin, zout] in nsteps steps by
    calling those maps in a fixed symmetric pattern, passing along the value
    zeval of the independent variable, which starts at zin and which each map
    may advance.  The model records that pattern: the element is a Recorder
    that logs every call it receives, together with the value of zeval the map
    hands back, and each integrator is proved to append exactly its schedule,
    a sequence of sub-steps defined below as a function of zin, zout and
    nsteps, with zeval passed from each call to the next. */
module Integrators {
  import opened Maths
  import opened ReferenceParticle

  datatype SubMap = Map1 | Map2 | Map3

  /** A sub-step of a schedule: which map, and the step length tau. */
  datatype SubStep = SubStep(sub: SubMap, tau: real)

  /** One sub-step call as the element receives it: which map, the step
      length tau, the value zeval of the independent variable passed in, and
      the value next that the map handed back in its place. */
  datatype Call = Call(sub: SubMap, tau: real, zeval: real, next: real)

  /** An element that records the sub-step calls made on it.  What value of
      zeval a map hands back is up to the element and left unconstrained. */
  class Recorder {
    var calls: seq<Call>

    constructor ()
      ensures calls == []
    {
      calls := [];
    }

    method Map1(tau: real, refpart: RefPart, zeval: real) returns (next: real)
      modifies this
      ensures calls == old(calls) + [Call(SubMap.Map1, tau, zeval, next)]
    {
      next :| true;
      calls := calls + [Call(SubMap.Map1, tau, zeval, next)];
    }

    method Map2(tau: real, refpart: RefPart, zeval: real) returns (next: real)
      modifies this
      ensures calls == old(calls) + [Call(SubMap.Map2, tau, zeval, next)]
    {
      next :| true;
      calls := calls + [Call(SubMap.Map2, tau, zeval, next)];
    }

    method Map3(tau: real, refpart: RefPart, zeval: real) returns (next: real)
      modifies this
      ensures calls == old(calls) + [Call(SubMap.Map3, tau, zeval, next)]
    {
      next :| true;
      calls := calls + [Call(SubMap.Map3, tau, zeval, next)];
    }
  }

  // ----- schedules -----

  /** dz = (zout - zin) / nsteps.  For nsteps <= 0 the loop body never runs and
      no call sees dz, so its value there is immaterial; 0 is used. */
  function StepLength(zin: real, zout: real, nsteps: int): real
  {
    if nsteps > 0 then (zout - zin) / (nsteps as real) else 0.0
  }

  /** n copies of one step, in order. */
  function Repeat(step: seq<SubStep>, n: nat): seq<SubStep>
  {
    if n == 0 then [] else Repeat(step, n - 1) + step
  }

  /** The number of loop iterations: nsteps when positive, otherwise none. */
  function Iterations(nsteps: int): nat
  {
    if nsteps > 0 then nsteps else 0
  }

  /** One step of symp2_integrate: map1(dz/2), map2(dz), map1(dz/2). */
  function Symp2Step(dz: real): seq<SubStep>
  {
    [SubStep(Map1, dz / 2.0), SubStep(Map2, dz), SubStep(Map1, dz / 2.0)]
  }

  /** One step of symp2_integrate_split3. */
  function Split3Step(dz: real): seq<SubStep>
  {
    [SubStep(Map1, dz / 2.0), SubStep(Map2, dz / 2.0), SubStep(Map3, dz),
     SubStep(Map2, dz / 2.0), SubStep(Map1, dz / 2.0)]
  }

  /** alpha = 1 - 2^(1/3) */
  function Alpha(lib: Libm): real
  {
    1.0 - lib.pow(2.0, 1.0 / 3.0)
  }

  /** The step lengths tau1..tau4 of symp4_integrate for a given alpha. */
  datatype Taus = Taus(tau1: real, tau2: real, tau3: real, tau4: real)

  function Symp4Taus(alpha: real, dz: real): Taus
    requires alpha != -1.0
  {
    var tau2 := dz / (1.0 + alpha);
    var tau1 := tau2 / 2.0;
    Taus(tau1, tau2, alpha * tau1, (alpha - 1.0) * tau2)
  }

  /** One step of symp4_integrate. */
  function Symp4Step(alpha: real, dz: real): seq<SubStep>
    requires alpha != -1.0
  {
    var t := Symp4Taus(alpha, dz);
    [SubStep(Map1, t.tau1), SubStep(Map2, t.tau2), SubStep(Map1, t.tau3),
     SubStep(Map2, t.tau4), SubStep(Map1, t.tau3), SubStep(Map2, t.tau2),
     SubStep(Map1, t.tau1)]
  }

  function Symp2Schedule(zin: real, zout: real, nsteps: int): seq<SubStep>
  {
    Repeat(Symp2Step(StepLength(zin, zout, nsteps)), Iterations(nsteps))
  }

  function Split3Schedule(zin: real, zout: real, nsteps: int): seq<SubStep>
  {
    Repeat(Split3Step(StepLength(zin, zout, nsteps)), Iterations(nsteps))
  }

  function Symp4Schedule(alpha: real, zin: real, zout: real, nsteps: int): seq<SubStep>
    requires alpha != -1.0
  {
    Repeat(Symp4Step(alpha, StepLength(zin, zout, nsteps)), Iterations(nsteps))
  }

  // ----- threading zeval -----

  /** The value of zeval after calls whose maps handed back h, starting from
      z: the last value handed back, or z when no call was made. */
  function Reached(z: real, h: seq<real>): real
  {
    if |h| == 0 then z else h[|h| - 1]
  }

  /** The calls that carry out the sub-steps s from zeval = z when the maps
      hand back h: call i makes sub-step i, is passed z when it is the first
      and otherwise the value the call before it handed back, and hands back
      h[i]. */
  function Run(s: seq<SubStep>, z: real, h: seq<real>): seq<Call>
    requires |h| == |s|
  {
    seq(|s|, i requires 0 <= i < |s| => Call(s[i].sub, s[i].tau, if i == 0 then z else h[i - 1], h[i]))
  }

  /** The values the maps handed back, in call order. */
  function Handed(calls: seq<Call>): (h: seq<real>)
    ensures |h| == |calls| && forall i :: 0 <= i < |calls| ==> h[i] == calls[i].next
  {
    seq(|calls|, i requires 0 <= i < |calls| => calls[i].next)
  }

  /** One more sub-step: one more call, passed the zeval reached so far. */
  lemma Extend(s: seq<SubStep>, z: real, h: seq<real>, x: SubStep, n: real)
    requires |h| == |s|
    ensures Run(s + [x], z, h + [n]) == Run(s, z, h) + [Call(x.sub, x.tau, Reached(z, h), n)]
    ensures Reached(z, h + [n]) == n
  {
    assert (s + [x])[..|s|] == s;
    assert (h + [n])[..|h|] == h;
  }

  /** A log holding a run, with one step of three more calls appended, the
      first passed the zeval reached, the second what the first handed back,
      the third what the second handed back, holds the run one step longer. */
  lemma ExtendThree(base: seq<Call>, calls: seq<Call>, s: seq<SubStep>, z: real, h: seq<real>, step: seq<SubStep>,
                    n1: real, n2: real, n3: real)
    requires |h| == |s| && |step| == 3 && calls == base + Run(s, z, h)
    ensures calls + [Call(step[0].sub, step[0].tau, Reached(z, h), n1)] + [Call(step[1].sub, step[1].tau, n1, n2)]
                  + [Call(step[2].sub, step[2].tau, n2, n3)]
      == base + Run(s + step, z, h + [n1, n2, n3])
    ensures Reached(z, h + [n1, n2, n3]) == n3
  {
    Extend(s, z, h, step[0], n1);
    Extend(s + [step[0]], z, h + [n1], step[1], n2);
    Extend(s + [step[0]] + [step[1]], z, h + [n1] + [n2], step[2], n3);
    assert s + [step[0]] + [step[1]] + [step[2]] == s + step;
    assert h + [n1] + [n2] + [n3] == h + [n1, n2, n3];
  }

  /** The same for a step of five calls. */
  lemma ExtendFive(base: seq<Call>, calls: seq<Call>, s: seq<SubStep>, z: real, h: seq<real>, step: seq<SubStep>,
                   n1: real, n2: real, n3: real, n4: real, n5: real)
    requires |h| == |s| && |step| == 5 && calls == base + Run(s, z, h)
    ensures calls + [Call(step[0].sub, step[0].tau, Reached(z, h), n1)] + [Call(step[1].sub, step[1].tau, n1, n2)]
                  + [Call(step[2].sub, step[2].tau, n2, n3)] + [Call(step[3].sub, step[3].tau, n3, n4)]
                  + [Call(step[4].sub, step[4].tau, n4, n5)]
      == base + Run(s + step, z, h + [n1, n2, n3, n4, n5])
    ensures Reached(z, h + [n1, n2, n3, n4, n5]) == n5
  {
    var s3, h3 := s + step[..3], h + [n1, n2, n3];
    ExtendThree(base, calls, s, z, h, step[..3], n1, n2, n3);
    Extend(s3, z, h3, step[3], n4);
    Extend(s3 + [step[3]], z, h3 + [n4], step[4], n5);
    assert s3 + [step[3]] + [step[4]] == s + step;
    assert h3 + [n4] + [n5] == h + [n1, n2, n3, n4, n5];
  }

  /** The same for a step of seven calls. */
  lemma ExtendSeven(base: seq<Call>, calls: seq<Call>, s: seq<SubStep>, z: real, h: seq<real>, step: seq<SubStep>,
                    n1: real, n2: real, n3: real, n4: real, n5: real, n6: real, n7: real)
    requires |h| == |s| && |step| == 7 && calls == base + Run(s, z, h)
    ensures calls + [Call(step[0].sub, step[0].tau, Reached(z, h), n1)] + [Call(step[1].sub, step[1].tau, n1, n2)]
                  + [Call(step[2].sub, step[2].tau, n2, n3)] + [Call(step[3].sub, step[3].tau, n3, n4)]
                  + [Call(step[4].sub, step[4].tau, n4, n5)] + [Call(step[5].sub, step[5].tau, n5, n6)]
                  + [Call(step[6].sub, step[6].tau, n6, n7)]
      == base + Run(s + step, z, h + [n1, n2, n3, n4, n5, n6, n7])
    ensures Reached(z, h + [n1, n2, n3, n4, n5, n6, n7]) == n7
  {
    var s5, h5 := s + step[..5], h + [n1, n2, n3, n4, n5];
    ExtendFive(base, calls, s, z, h, step[..5], n1, n2, n3, n4, n5);
    Extend(s5, z, h5, step[5], n6);
    Extend(s5 + [step[5]], z, h5 + [n6], step[6], n7);
    assert s5 + [step[5]] + [step[6]] == s + step;
    assert h5 + [n6] + [n7] == h + [n1, n2, n3, n4, n5, n6, n7];
  }

  /** A log holding a run after base holds base followed by calls from which
      the values handed back can be read off again. */
  lemma RunLogged(base: seq<Call>, calls: seq<Call>, s: seq<SubStep>, z: real, h: seq<real>)
    requires |h| == |s| && calls == base + Run(s, z, h)
    ensures base <= calls
    ensures var made := calls[|base|..]; |made| == |s| && made == Run(s, z, Handed(made))
  {
    assert calls[|base|..] == Run(s, z, h);
    assert Handed(Run(s, z, h)) == h;
  }

  // ----- the integrators -----

  /** symp2_integrate: second-order Strang splitting with two sub-maps. */
  method Symp2Integrate(refpart: RefPart, zin: real, zout: real, nsteps: int, element: Recorder)
    modifies element
    ensures old(element.calls) <= element.calls
    ensures var made := element.calls[|old(element.calls)|..];
      |made| == |Symp2Schedule(zin, zout, nsteps)| && made == Run(Symp2Schedule(zin, zout, nsteps), zin, Handed(made))
  {
    var dz := StepLength(zin, zout, nsteps);
    var tau1 := dz / 2.0;
    var tau2 := dz;
    var zeval := zin;
    ghost var base := element.calls;
    ghost var done: seq<SubStep>, handed: seq<real> := [], [];
    var j := 0;
    while j < nsteps
      invariant 0 <= j <= Iterations(nsteps) && done == Repeat(Symp2Step(dz), j) && |handed| == |done|
      invariant element.calls == base + Run(done, zin, handed)
      invariant zeval == Reached(zin, handed)
    {
      ghost var before := element.calls;
      zeval := element.Map1(tau1, refpart, zeval);
      ghost var n1 := zeval;
      zeval := element.Map2(tau2, refpart, zeval);
      ghost var n2 := zeval;
      zeval := element.Map1(tau1, refpart, zeval);
      ExtendThree(base, before, done, zin, handed, Symp2Step(dz), n1, n2, zeval);
      done, handed := done + Symp2Step(dz), handed + [n1, n2, zeval];
      j := j + 1;
    }
    RunLogged(base, element.calls, Symp2Schedule(zin, zout, nsteps), zin, handed);
  }

  /** symp2_integrate_split3: second-order splitting with three sub-maps. */
  method Symp2IntegrateSplit3(refpart: RefPart, zin: real, zout: real, nsteps: int, element: Recorder)
    modifies element
    ensures old(element.calls) <= element.calls
    ensures var made := element.calls[|old(element.calls)|..];
      |made| == |Split3Schedule(zin, zout, nsteps)| && made == Run(Split3Schedule(zin, zout, nsteps), zin, Handed(made))
  {
    var dz := StepLength(zin, zout, nsteps);
    var tau1 := dz / 2.0;
    var tau2 := dz / 2.0;
    var tau3 := dz;
    var zeval := zin;
    ghost var base := element.calls;
    ghost var done: seq<SubStep>, handed: seq<real> := [], [];
    var j := 0;
    while j < nsteps
      invariant 0 <= j <= Iterations(nsteps) && done == Repeat(Split3Step(dz), j) && |handed| == |done|
      invariant element.calls == base + Run(done, zin, handed)
      invariant zeval == Reached(zin, handed)
    {
      ghost var before := element.calls;
      zeval := element.Map1(tau1, refpart, zeval);
      ghost var n1 := zeval;
      zeval := element.Map2(tau2, refpart, zeval);
      ghost var n2 := zeval;
      zeval := element.Map3(tau3, refpart, zeval);
      ghost var n3 := zeval;
      zeval := element.Map2(tau2, refpart, zeval);
      ghost var n4 := zeval;
      zeval := element.Map1(tau1, refpart, zeval);
      ExtendFive(base, before, done, zin, handed, Split3Step(dz), n1, n2, n3, n4, zeval);
      done, handed := done + Split3Step(dz), handed + [n1, n2, n3, n4, zeval];
      j := j + 1;
    }
    RunLogged(base, element.calls, Split3Schedule(zin, zout, nsteps), zin, handed);
  }

  /** symp4_integrate: fourth-order symmetric composition with two sub-maps.
      It divides by 1 + alpha, which is non-zero for the cube root of two
      (AlphaBounds). */
  method Symp4Integrate(lib: Libm, refpart: RefPart, zin: real, zout: real, nsteps: int, element: Recorder)
    requires Alpha(lib) != -1.0
    modifies element
    ensures old(element.calls) <= element.calls
    ensures var made := element.calls[|old(element.calls)|..];
      |made| == |Symp4Schedule(Alpha(lib), zin, zout, nsteps)| && made == Run(Symp4Schedule(Alpha(lib), zin, zout, nsteps), zin, Handed(made))
  {
    var dz := StepLength(zin, zout, nsteps);
    var alpha := 1.0 - lib.pow(2.0, 1.0 / 3.0);
    var tau2 := dz / (1.0 + alpha);
    var tau1 := tau2 / 2.0;
    var tau3 := alpha * tau1;
    var tau4 := (alpha - 1.0) * tau2;
    var zeval := zin;
    assert Symp4Taus(alpha, dz) == Taus(tau1, tau2, tau3, tau4);
    ghost var step := Symp4Step(alpha, dz);
    ghost var base := element.calls;
    ghost var done: seq<SubStep>, handed: seq<real> := [], [];
    var j := 0;
    while j < nsteps
      invariant 0 <= j <= Iterations(nsteps) && done == Repeat(step, j) && |handed| == |done|
      invariant element.calls == base + Run(done, zin, handed)
      invariant zeval == Reached(zin, handed)
    {
      ghost var before := element.calls;
      zeval := element.Map1(tau1, refpart, zeval);
      ghost var n1 := zeval;
      zeval := element.Map2(tau2, refpart, zeval);
      ghost var n2 := zeval;
      zeval := element.Map1(tau3, refpart, zeval);
      ghost var n3 := zeval;
      zeval := element.Map2(tau4, refpart, zeval);
      ghost var n4 := zeval;
      zeval := element.Map1(tau3, refpart, zeval);
      ghost var n5 := zeval;
      zeval := element.Map2(tau2, refpart, zeval);
      ghost var n6 := zeval;
      zeval := element.Map1(tau1, refpart, zeval);
      ExtendSeven(base, before, done, zin, handed, step, n1, n2, n3, n4, n5, n6, zeval);
      done, handed := done + step, handed + [n1, n2, n3, n4, n5, n6, zeval];
      j := j + 1;
    }
    RunLogged(base, element.calls, Symp4Schedule(Alpha(lib), zin, zout, nsteps), zin, handed);
  }

  // ----- properties of the schedules -----

  lemma {:induction false} RepeatLength(step: seq<SubStep>, n: nat)
    ensures |Repeat(step, n)| == n * |step|
  {
    if n > 0 {
      RepeatLength(step, n - 1);
    }
  }

  /** symp2 makes 3 calls per step, split3 makes 5 and symp4 makes 7; no calls
      at all when nsteps <= 0. */
  lemma ScheduleLengths(alpha: real, zin: real, zout: real, nsteps: int)
    requires alpha != -1.0
    ensures |Symp2Schedule(zin, zout, nsteps)| == 3 * Iterations(nsteps)
    ensures |Split3Schedule(zin, zout, nsteps)| == 5 * Iterations(nsteps)
    ensures |Symp4Schedule(alpha, zin, zout, nsteps)| == 7 * Iterations(nsteps)
  {
    var n := Iterations(nsteps);
    var dz := StepLength(zin, zout, nsteps);
    RepeatLength(Symp2Step(dz), n);
    RepeatLength(Split3Step(dz), n);
    RepeatLength(Symp4Step(alpha, dz), n);
  }

  /** The step length a sub-step passes to map m: its tau if it is a step of m, else 0. */
  function Part(c: SubStep, m: SubMap): real
  {
    if c.sub == m then c.tau else 0.0
  }

  /** The sum of the step lengths passed to map m. */
  function TauSum(s: seq<SubStep>, m: SubMap): real
  {
    if |s| == 0 then 0.0 else TauSum(s[..|s| - 1], m) + Part(s[|s| - 1], m)
  }

  lemma {:induction false} TauSumAppend(a: seq<SubStep>, b: seq<SubStep>, m: SubMap)
    ensures TauSum(a + b, m) == TauSum(a, m) + TauSum(b, m)
    decreases |b|
  {
    if |b| == 0 {
      assert a + b == a;
    } else {
      var b' := b[..|b| - 1];
      assert (a + b)[..|a + b| - 1] == a + b';
      TauSumAppend(a, b', m);
    }
  }

  lemma {:induction false} TauSumRepeat(step: seq<SubStep>, n: nat, m: SubMap)
    ensures TauSum(Repeat(step, n), m) == (n as real) * TauSum(step, m)
  {
    if n > 0 {
      TauSumRepeat(step, n - 1, m);
      TauSumAppend(Repeat(step, n - 1), step, m);
    }
  }

  lemma TauSumTake(s: seq<SubStep>, m: SubMap, k: nat)
    requires 0 < k <= |s|
    ensures TauSum(s[..k], m) == TauSum(s[..k - 1], m) + Part(s[k - 1], m)
  {
    assert s[..k][..k - 1] == s[..k - 1];
  }

  lemma TauSumThree(s: seq<SubStep>, m: SubMap)
    requires |s| == 3
    ensures TauSum(s, m) == Part(s[0], m) + Part(s[1], m) + Part(s[2], m)
  {
    assert s[..3] == s;
    TauSumTake(s, m, 3);
    TauSumTake(s, m, 2);
    TauSumTake(s, m, 1);
  }

  lemma TauSumFive(s: seq<SubStep>, m: SubMap)
    requires |s| == 5
    ensures TauSum(s, m) == Part(s[0], m) + Part(s[1], m) + Part(s[2], m) + Part(s[3], m) + Part(s[4], m)
  {
    assert s[..5] == s;
    TauSumTake(s, m, 5);
    TauSumTake(s, m, 4);
    TauSumThree(s[..3], m);
  }

  lemma TauSumSeven(s: seq<SubStep>, m: SubMap)
    requires |s| == 7
    ensures TauSum(s, m) == Part(s[0], m) + Part(s[1], m) + Part(s[2], m) + Part(s[3], m)
                            + Part(s[4], m) + Part(s[5], m) + Part(s[6], m)
  {
    assert s[..7] == s;
    TauSumTake(s, m, 7);
    TauSumTake(s, m, 6);
    TauSumFive(s[..5], m);
  }

  /** Within one step every map receives a total step length of dz (map3
      receives nothing in the two-map schemes). */
  lemma StepTauSums(alpha: real, dz: real)
    requires alpha != -1.0
    ensures TauSum(Symp2Step(dz), Map1) == dz && TauSum(Symp2Step(dz), Map2) == dz
    ensures TauSum(Symp2Step(dz), Map3) == 0.0
    ensures TauSum(Split3Step(dz), Map1) == dz && TauSum(Split3Step(dz), Map2) == dz
    ensures TauSum(Split3Step(dz), Map3) == dz
    ensures TauSum(Symp4Step(alpha, dz), Map1) == dz && TauSum(Symp4Step(alpha, dz), Map2) == dz
    ensures TauSum(Symp4Step(alpha, dz), Map3) == 0.0
  {
    TauSumThree(Symp2Step(dz), Map1);
    TauSumThree(Symp2Step(dz), Map2);
    TauSumThree(Symp2Step(dz), Map3);
    TauSumFive(Split3Step(dz), Map1);
    TauSumFive(Split3Step(dz), Map2);
    TauSumFive(Split3Step(dz), Map3);
    var t := Symp4Taus(alpha, dz);
    var s := Symp4Step(alpha, dz);
    TauSumSeven(s, Map1);
    TauSumSeven(s, Map2);
    TauSumSeven(s, Map3);
    assert (1.0 + alpha) * t.tau2 == dz;
    assert TauSum(s, Map1) == t.tau1 + t.tau3 + t.tau3 + t.tau1;
    assert TauSum(s, Map2) == t.tau2 + t.tau4 + t.tau2;
  }

  /** Over the whole run each map receives a total step length of zout - zin
      (map3 receives nothing in the two-map schemes). */
  lemma TotalTauSums(alpha: real, zin: real, zout: real, nsteps: int)
    requires alpha != -1.0
    requires nsteps > 0
    ensures TauSum(Symp2Schedule(zin, zout, nsteps), Map1) == zout - zin
    ensures TauSum(Symp2Schedule(zin, zout, nsteps), Map2) == zout - zin
    ensures TauSum(Split3Schedule(zin, zout, nsteps), Map1) == zout - zin
    ensures TauSum(Split3Schedule(zin, zout, nsteps), Map2) == zout - zin
    ensures TauSum(Split3Schedule(zin, zout, nsteps), Map3) == zout - zin
    ensures TauSum(Symp4Schedule(alpha, zin, zout, nsteps), Map1) == zout - zin
    ensures TauSum(Symp4Schedule(alpha, zin, zout, nsteps), Map2) == zout - zin
    ensures TauSum(Symp4Schedule(alpha, zin, zout, nsteps), Map3) == 0.0
  {
    var dz := StepLength(zin, zout, nsteps);
    var n := nsteps as real;
    assert n * dz == zout - zin;
    StepTauSums(alpha, dz);
    TauSumRepeat(Symp2Step(dz), nsteps, Map1);
    TauSumRepeat(Symp2Step(dz), nsteps, Map2);
    TauSumRepeat(Split3Step(dz), nsteps, Map1);
    TauSumRepeat(Split3Step(dz), nsteps, Map2);
    TauSumRepeat(Split3Step(dz), nsteps, Map3);
    TauSumRepeat(Symp4Step(alpha, dz), nsteps, Map1);
    TauSumRepeat(Symp4Step(alpha, dz), nsteps, Map2);
    TauSumRepeat(Symp4Step(alpha, dz), nsteps, Map3);
  }

  /** With 2^(1/3) the positive cube root of two, -1 < alpha < 0. */
  lemma AlphaBounds(lib: Libm)
    requires lib.CubeRootOfTwo()
    ensures -1.0 < Alpha(lib) < 0.0
  {
    CubeBounds(lib.pow(2.0, 1.0 / 3.0));
  }

  lemma CubeBounds(c: real)
    requires c > 0.0
    ensures c <= 1.0 ==> c * c * c <= 1.0
    ensures c >= 2.0 ==> c * c * c >= 8.0
  {
    if c <= 1.0 {
      assert c * c <= c;
      assert c * c * c <= c * c;
    }
    if c >= 2.0 {
      assert c * c >= 2.0 * c;
      assert c * c * c >= 4.0 * c;
    }
  }

  /** For a forward step (dz > 0) symp4 takes forward sub-steps tau1, tau2 and
      backward sub-steps tau3, tau4. */
  lemma Symp4Signs(lib: Libm, dz: real)
    requires lib.CubeRootOfTwo()
    requires dz > 0.0
    ensures Alpha(lib) != -1.0
    ensures Symp4Taus(Alpha(lib), dz).tau1 > 0.0 && Symp4Taus(Alpha(lib), dz).tau2 > 0.0
    ensures Symp4Taus(Alpha(lib), dz).tau3 < 0.0 && Symp4Taus(Alpha(lib), dz).tau4 < 0.0
  {
    AlphaBounds(lib);
    var alpha := Alpha(lib);
    var t := Symp4Taus(alpha, dz);
    assert t.tau2 > 0.0;
    assert alpha * t.tau1 < 0.0 by { NegTimesPos(alpha, t.tau1); }
    assert (alpha - 1.0) * t.tau2 < 0.0 by { NegTimesPos(alpha - 1.0, t.tau2); }
  }

  lemma NegTimesPos(a: real, b: real)
    requires a < 0.0 && b > 0.0
    ensures a * b < 0.0
  {
  }

  /** The calls of a run, read one by one: sub-step for sub-step the same map
      and step length; the first call is passed z and each later one the value
      the call before it handed back. */
  lemma ZevalThreaded(s: seq<SubStep>, z: real, h: seq<real>)
    requires |h| == |s|
    ensures |Run(s, z, h)| == |s|
    ensures forall i :: 0 <= i < |s| ==>
      Run(s, z, h)[i].sub == s[i].sub && Run(s, z, h)[i].tau == s[i].tau && Run(s, z, h)[i].next == h[i]
    ensures |s| > 0 ==> Run(s, z, h)[0].zeval == z
    ensures forall i :: 0 < i < |s| ==> Run(s, z, h)[i].zeval == Run(s, z, h)[i - 1].next
  {
  }

  /** The integrators never advance zeval themselves: when every map hands
      back the zeval it was passed, every call of a run is passed z. */
  lemma ZevalIsZin(s: seq<SubStep>, z: real, h: seq<real>)
    requires |h| == |s|
    requires forall c :: c in Run(s, z, h) ==> c.next == c.zeval
    ensures forall c :: c in Run(s, z, h) ==> c.zeval == z
  {
    ZevalStays(s, z, h, |s|);
  }

  lemma {:induction false} ZevalStays(s: seq<SubStep>, z: real, h: seq<real>, k: nat)
    requires |h| == |s| && k <= |s|
    requires forall c :: c in Run(s, z, h) ==> c.next == c.zeval
    ensures forall i :: 0 <= i < k ==> Run(s, z, h)[i].zeval == z
  {
    if k > 1 {
      ZevalStays(s, z, h, k - 1);
      var r := Run(s, z, h);
      assert r[k - 2] in r;
    }
  }

  // ----- symmetry -----

  function Reverse<T>(s: seq<T>): seq<T>
  {
    if |s| == 0 then [] else Reverse(s[1..]) + [s[0]]
  }

  lemma {:induction false} ReverseAppend<T>(a: seq<T>, b: seq<T>)
    ensures Reverse(a + b) == Reverse(b) + Reverse(a)
    decreases |a|
  {
    if |a| == 0 {
      assert a + b == b;
    } else {
      assert (a + b)[1..] == a[1..] + b;
      ReverseAppend(a[1..], b);
    }
  }

  lemma {:induction false} RepeatCommutes(step: seq<SubStep>, n: nat)
    ensures step + Repeat(step, n) == Repeat(step, n) + step
  {
    if n > 0 {
      RepeatCommutes(step, n - 1);
    }
  }

  /** Repeating a palindrome gives a palindrome. */
  lemma {:induction false} RepeatPalindrome(step: seq<SubStep>, n: nat)
    requires Reverse(step) == step
    ensures Reverse(Repeat(step, n)) == Repeat(step, n)
  {
    if n > 0 {
      ReverseAppend(Repeat(step, n - 1), step);
      RepeatPalindrome(step, n - 1);
      RepeatCommutes(step, n - 1);
    }
  }

  /** Each scheme's step, and so its whole call sequence, reads the same
      backwards: in which map is called and in the step length passed. */
  lemma SchedulesArePalindromes(alpha: real, zin: real, zout: real, nsteps: int)
    requires alpha != -1.0
    ensures Reverse(Symp2Schedule(zin, zout, nsteps)) == Symp2Schedule(zin, zout, nsteps)
    ensures Reverse(Split3Schedule(zin, zout, nsteps)) == Split3Schedule(zin, zout, nsteps)
    ensures Reverse(Symp4Schedule(alpha, zin, zout, nsteps)) == Symp4Schedule(alpha, zin, zout, nsteps)
  {
    var n := Iterations(nsteps);
    var dz := StepLength(zin, zout, nsteps);
    var s2 := Symp2Step(dz);
    var s3 := Split3Step(dz);
    var s4 := Symp4Step(alpha, dz);
    ReverseSeven(s4);
    ReverseFive(s3);
    ReverseThree(s2);
    RepeatPalindrome(s2, n);
    RepeatPalindrome(s3, n);
    RepeatPalindrome(s4, n);
  }

  lemma ReverseCons<T>(s: seq<T>)
    requires |s| > 0
    ensures Reverse(s) == Reverse(s[1..]) + [s[0]]
  {
  }

  lemma ReverseThree<T>(s: seq<T>)
    requires |s| == 3
    ensures Reverse(s) == [s[2], s[1], s[0]]
  {
    ReverseCons(s);
    ReverseCons(s[1..]);
    assert s[1..][1..] == s[2..];
    ReverseCons(s[2..]);
    assert s[2..][1..] == [];
  }

  lemma ReverseFive<T>(s: seq<T>)
    requires |s| == 5
    ensures Reverse(s) == [s[4], s[3], s[2], s[1], s[0]]
  {
    ReverseCons(s);
    ReverseCons(s[1..]);
    assert s[1..][1..] == s[2..];
    ReverseThree(s[2..]);
  }

  lemma ReverseSeven<T>(s: seq<T>)
    requires |s| == 7
    ensures Reverse(s) == [s[6], s[5], s[4], s[3], s[2], s[1], s[0]]
  {
    ReverseCons(s);
    ReverseCons(s[1..]);
    assert s[1..][1..] == s[2..];
    ReverseFive(s[2..]);
  }

  // ----- symp4 as a triple jump of symp2 -----

  /** Merges neighbouring sub-steps of the same map into one whose step length
      is their sum: two successive sub-steps of one flow make one sub-step. */
  function Fuse(s: seq<SubStep>): seq<SubStep>
    decreases |s|
  {
    if |s| < 2 then s
    else if s[0].sub == s[1].sub then Fuse([SubStep(s[0].sub, s[0].tau + s[1].tau)] + s[2..])
    else [s[0]] + Fuse(s[1..])
  }

  /** The last four sub-steps of a fused triple jump: p a | b a with p, a map1. */
  lemma FuseLastFour(p: SubStep, a: SubStep, b: SubStep)
    requires p.sub == Map1 && a.sub == Map1 && b.sub == Map2
    ensures Fuse([p, a, b, a]) == [SubStep(Map1, p.tau + a.tau), b, a]
  {
    var pa := SubStep(Map1, p.tau + a.tau);
    assert Fuse([b, a]) == [b, a] by {
      assert [b, a][1..] == [a];
    }
    assert Fuse([pa, b, a]) == [pa, b, a] by {
      assert [pa, b, a][1..] == [b, a];
    }
    assert [p, a, b, a][2..] == [b, a];
    assert [pa] + [b, a] == [pa, b, a];
  }

  /** The middle of a fused triple jump: a p q p a b a. */
  lemma FuseLastSeven(a: SubStep, p: SubStep, q: SubStep, b: SubStep)
    requires a.sub == Map1 && p.sub == Map1 && q.sub == Map2 && b.sub == Map2
    ensures Fuse([a, p, q, p, a, b, a])
      == [SubStep(Map1, a.tau + p.tau), q, SubStep(Map1, p.tau + a.tau), b, a]
  {
    var ap := SubStep(Map1, a.tau + p.tau);
    var pa := SubStep(Map1, p.tau + a.tau);
    FuseLastFour(p, a, b);
    assert Fuse([q, p, a, b, a]) == [q, pa, b, a] by {
      assert [q, p, a, b, a][1..] == [p, a, b, a];
    }
    assert Fuse([ap, q, p, a, b, a]) == [ap, q, pa, b, a] by {
      assert [ap, q, p, a, b, a][1..] == [q, p, a, b, a];
    }
    assert [a, p, q, p, a, b, a][2..] == [q, p, a, b, a];
    assert [ap] + [q, p, a, b, a] == [ap, q, p, a, b, a];
  }

  /** Fusing three Strang steps of lengths h, g, h merges exactly the two
      interior pairs of map1 half-steps. */
  lemma FuseTripleJump(h: real, g: real)
    ensures Fuse(Symp2Step(h) + Symp2Step(g) + Symp2Step(h))
      == [SubStep(Map1, h / 2.0), SubStep(Map2, h), SubStep(Map1, h / 2.0 + g / 2.0), SubStep(Map2, g),
          SubStep(Map1, g / 2.0 + h / 2.0), SubStep(Map2, h), SubStep(Map1, h / 2.0)]
  {
    var a, b := SubStep(Map1, h / 2.0), SubStep(Map2, h);
    var p, q := SubStep(Map1, g / 2.0), SubStep(Map2, g);
    var tail := [a, p, q, p, a, b, a];
    FuseLastSeven(a, p, q, b);
    assert Fuse([b] + tail) == [b] + Fuse(tail) by {
      assert ([b] + tail)[1..] == tail;
    }
    var s := [a, b] + tail;
    assert Fuse(s) == [a] + Fuse([b] + tail) by {
      assert s[1..] == [b] + tail;
    }
    assert Symp2Step(h) + Symp2Step(g) + Symp2Step(h) == s;
  }

  /** Yoshida's triple-jump weights for raising a symmetric second-order step to
      fourth order, with c the cube root of two. */
  function OuterWeight(c: real): real
    requires c != 2.0
  {
    1.0 / (2.0 - c)
  }

  function InnerWeight(c: real): real
    requires c != 2.0
  {
    -c / (2.0 - c)
  }

  /** The symp4 step lengths expressed through the triple-jump weights, for
      any value c of pow(2, 1/3) other than 2. */
  lemma Symp4TausAreWeights(lib: Libm, dz: real)
    requires lib.pow(2.0, 1.0 / 3.0) != 2.0
    ensures var c := lib.pow(2.0, 1.0 / 3.0);
      Alpha(lib) != -1.0 &&
      Symp4Taus(Alpha(lib), dz)
        == Taus(OuterWeight(c) * dz / 2.0, OuterWeight(c) * dz,
                OuterWeight(c) * dz / 2.0 + InnerWeight(c) * dz / 2.0, InnerWeight(c) * dz)
  {
    var c := lib.pow(2.0, 1.0 / 3.0);
    var alpha := Alpha(lib);
    var t := Symp4Taus(alpha, dz);
    var w1, w0 := OuterWeight(c), InnerWeight(c);
    assert 1.0 + alpha == 2.0 - c;
    assert t.tau2 == w1 * dz;
    calc {
      t.tau4;
      == (alpha - 1.0) * (dz / (2.0 - c));
      == -c * (dz / (2.0 - c));
      == w0 * dz;
    }
    calc {
      t.tau3;
      == alpha * (t.tau2 / 2.0);
      == (1.0 - c) * (dz / (2.0 - c)) / 2.0;
      == w1 * dz / 2.0 + w0 * dz / 2.0;
    }
  }

  /** A symp4 step is three symp2 steps of lengths w1 dz, w0 dz, w1 dz with the
      neighbouring map1 half-steps merged. */
  lemma Symp4IsTripleJump(lib: Libm, dz: real)
    requires lib.pow(2.0, 1.0 / 3.0) != 2.0
    ensures var c := lib.pow(2.0, 1.0 / 3.0);
      Alpha(lib) != -1.0 &&
      Symp4Step(Alpha(lib), dz)
        == Fuse(Symp2Step(OuterWeight(c) * dz) + Symp2Step(InnerWeight(c) * dz) + Symp2Step(OuterWeight(c) * dz))
  {
    var c := lib.pow(2.0, 1.0 / 3.0);
    var w1, w0 := OuterWeight(c), InnerWeight(c);
    var h, g := w1 * dz, w0 * dz;
    Symp4TausAreWeights(lib, dz);
    var t := Symp4Taus(Alpha(lib), dz);
    assert t.tau1 == h / 2.0 && t.tau2 == h && t.tau3 == h / 2.0 + g / 2.0 && t.tau4 == g;
    FuseTripleJump(h, g);
  }

  /** For the cube root of two the outer weight is positive, the inner one is
      negative (a backward step), and 2 w1 + w0 = 1: the three steps cover dz. */
  lemma TripleJumpWeights(lib: Libm)
    requires lib.CubeRootOfTwo()
    ensures var c := lib.pow(2.0, 1.0 / 3.0);
      c != 2.0 && OuterWeight(c) > 0.0 && InnerWeight(c) < 0.0 &&
      2.0 * OuterWeight(c) + InnerWeight(c) == 1.0
  {
    AlphaBounds(lib);
    var c := lib.pow(2.0, 1.0 / 3.0);
    var w1, w0 := OuterWeight(c), InnerWeight(c);
    assert 2.0 - c > 0.0;
    assert 2.0 * w1 + w0 == (2.0 - c) / (2.0 - c);
    assert w0 < 0.0 by { assert -c < 0.0; }
  }
}
