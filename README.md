# ImpactX beam-optics core in Dafny

This project models the algebraic core of ImpactX, a beam-dynamics code that
pushes charged particles through the elements of an accelerator lattice, and
proves properties of it in exact real arithmetic. The model covers:

- **The reference particle** `RefPart` (`reference_particle.dfy`). It is a
  class holding the fields `s, x, y, z, t, px, py, pz, pt, mass, charge, sedge`.
  The getters (`gamma`, `beta`, `beta_gamma`, `mass_MeV`, `energy_MeV`,
  `rigidity_Tm`, `charge_qe`, `qm_qeeV`) are functions that read the object.
  The chainable setters (`set_mass_MeV`, `set_energy_MeV`, `set_charge_qe`)
  are methods that update fields in place and return the same object.
- **The integrators** `symp2_integrate`, `symp2_integrate_split3` and
  `symp4_integrate` (`integrators.dfy`). The element is a `Recorder` class.
  It logs every `map1/map2/map3` call with its step length, the `zeval`
  passed in and the `zeval` the map hands back. Each integrator loop is
  proved to make exactly the calls of a pure schedule, in order. The first
  call is passed `zin` and each later call the `zeval` that the call before
  it handed back (`Integrators.Run`). Lemmas then prove the following about
  the schedules:
  - their lengths, and that each one is a palindrome;
  - that the step lengths per map sum to `dz` per step and to `zout - zin`
    over the run;
  - that `zeval` is threaded from call to call, and stays `zin` when every
    map hands back the value it was passed;
  - the signs of the symp4 step lengths;
  - that a symp4 step is Yoshida's triple jump of three symp2 steps.
- **The element particle maps.** Each element has a pure function `Map` on
  the six phase-space coordinates and a `Push` method that updates a
  `Particle` object in place and is proved equal to `Map`. The elements are:
  - `ChrQuad` (`chrquad.dfy`), including its reference push;
  - `Multipole` (`multipole.dfy`), including the factorial loop of its
    constructor;
  - `PRot` (`prot.dfy`);
  - `NonlinearLens` (`nonlinear_lens.dfy`);
  - the no-op element `None` (`none_element.dfy`).
- **The element registry** of `All.H` (`elements.dfy`). It is a datatype over
  the modelled kinds, with `None` first and as the default. It dispatches the
  particle push and the reference push to the element it holds.
- **The samplers** `Triangle` (`triangle.dfy`), `Kurth4D` (`kurth4d.dfy`) and
  the distribution `None` (`distribution_none.dfy`). The random engine
  (`engine.dfy`) is a finite stream of draws in [0, 1) with a cursor. Each
  sampler's `Draw` method is proved to consume exactly its number of draws and
  to return a pure function of those draws. The per-plane correlation
  transform that both samplers share is in `correlation.dfy`, with its
  inverse.

Transcendental functions (`sqrt`, `sin`, `cos`, `sinh`, `cosh`, `log`, `pow`,
the complex square root and logarithm) are fields of a value of type
`Maths.Libm` passed to every operation that needs them. The laws a proof relies
on, such as `sqrt(a)^2 = a` for `a >= 0`, `sin^2 + cos^2 = 1` or the
double-angle formulas, are ghost predicates on that value. Each is required
only where it is used.

`set_mass_MeV` announces, in its comment at ReferenceParticle.H:117, that it
rescales `pt` and `pz`. The code recomputes `pt` at line 120 from
`energy_MeV()`. It reads that value after line 115 has overwritten `mass`,
so the recomputed `pt` equals the old one, and the kinetic energy scales with
the new mass instead of being kept. The model follows the code
(`ReferenceParticle.RefPart.SetMassMeV`). It also gives the evidently
intended version beside it; see "Findings".

## Model

| member | source | states |
|---|---|---|
| ReferenceParticle.RefPart.constructor | src/particles/ReferenceParticle.H:31-43 | a new reference particle has every attribute zero |
| ReferenceParticle.RefPart.MassMeV | src/particles/ReferenceParticle.H:94-100 | the rest mass in MeV/c^2, converted back with MeV_invc2, is the mass attribute in kg |
| ReferenceParticle.RefPart.EnergyMeV | src/particles/ReferenceParticle.H:133-140 | the kinetic energy is zero exactly when the mass is zero or gamma = 1, and positive for a positive mass with gamma > 1 |
| ReferenceParticle.RefPart.ChargeQe | src/particles/ReferenceParticle.H:186-192 | the charge in units of q_e, times q_e, is the charge attribute |
| ReferenceParticle.RefPart.QmQeeV | src/particles/ReferenceParticle.H:215-218 | for a non-zero mass, the ratio times the mass is the charge |
| ReferenceParticle.BetaGammaSquared | src/particles/ReferenceParticle.H:52-86 | gamma is -pt, and (beta gamma)^2 = gamma^2 - 1 whenever pt^2 >= 1 |
| ReferenceParticle.BetaTimesGamma | src/particles/ReferenceParticle.H:64-86 | for gamma >= 1, beta times gamma equals beta_gamma |
| ReferenceParticle.RootIdentity | src/particles/ReferenceParticle.H:64-86 | sqrt(1 - 1/g^2) g = sqrt(g^2 - 1) for g >= 1, the identity linking beta() and beta_gamma() |
| ReferenceParticle.BetaBetweenZeroAndOne | src/particles/ReferenceParticle.H:64-71 | a reference particle with gamma > 1 has 0 < beta < 1 |
| ReferenceParticle.BetaBelowOne | src/particles/ReferenceParticle.H:64-71 | sqrt(1 - 1/g^2) lies strictly between 0 and 1 for g > 1 |
| ReferenceParticle.OnAxisPzIsBetaGamma | src/particles/ReferenceParticle.H:121 | the pz the setters write, sqrt(pt^2 - 1), is the beta_gamma of gamma = -pt |
| ReferenceParticle.MassRoundTrip | src/particles/ReferenceParticle.H:94-100 | converting a mass from MeV/c^2 to kg and back with mass_MeV() is exact |
| ReferenceParticle.RefPart.SetMassMeV | src/particles/ReferenceParticle.H:108-125 | as written: requires a non-zero mass, makes mass_MeV() return it, keeps pt, resets pz to sqrt(pt^2 - 1) only when pt != 0, scales the kinetic energy by the new mass, leaves every other field alone and returns the same object |
| ReferenceParticle.RefPart.SetMassMeVKeepingEnergy | src/particles/ReferenceParticle.H:108-125 | corrected: the same setter with the kinetic energy read first, so a particle with pt != 0 keeps its kinetic energy |
| ReferenceParticle.RefPart.SetEnergyMeV | src/particles/ReferenceParticle.H:148-161 | requires a non-zero mass; sets px = py = 0, pt = -E/mass_MeV() - 1 and pz = sqrt(pt^2 - 1); afterwards energy_MeV() returns E; s, x, y, z, t, mass, charge and sedge are unchanged and the same object is returned |
| ReferenceParticle.RefPart.SetChargeQe | src/particles/ReferenceParticle.H:200-207 | afterwards charge_qe() returns the argument; only charge changes; the same object is returned |
| ReferenceParticle.RigidityIgnoresCharge | src/particles/ReferenceParticle.H:169-178 | rigidity_Tm() divides by the elementary charge, so two particles that differ only in charge have the same rigidity |
| ReferenceParticle.RigidityPositive | src/particles/ReferenceParticle.H:169-178 | with positive mass and pt^2 > 1 the rigidity is positive, whatever the sign of the charge |
| ReferenceParticle.PositronReference | src/particles/ReferenceParticle.H:108-207 | the chain set_charge_qe(1).set_mass_MeV(0.51099895).set_energy_MeV(10000) yields charge 1, that mass, 10 GeV kinetic energy and the matching pt |
| ReferenceParticle.MassChangeAfterEnergy | src/particles/ReferenceParticle.H:115-122 | a 1 MeV/c^2 particle given 1 MeV and then re-massed to 2 MeV/c^2 ends with 2 MeV as written and 1 MeV when corrected |
| Integrators.Recorder.Map1 | src/particles/integrators/Integrators.H:45 | each map1 call is appended to the log, after every earlier call, with its step length, the zeval passed in and the zeval the map hands back |
| Integrators.Recorder.Map2 | src/particles/integrators/Integrators.H:46 | the same for map2 |
| Integrators.Recorder.Map3 | src/particles/integrators/Integrators.H:77 | the same for map3, which only split3 calls |
| Integrators.Symp2Integrate | src/particles/integrators/Integrators.H:24-49 | the calls appended are exactly Run(Symp2Schedule, zin, the values handed back): nsteps repetitions of map1(dz/2), map2(dz), map1(dz/2) with dz = (zout - zin)/nsteps, the first passed zin and each later one the zeval the call before it handed back |
| Integrators.Symp2IntegrateSplit3 | src/particles/integrators/Integrators.H:53-81 | the same with Split3Schedule: nsteps repetitions of map1(dz/2), map2(dz/2), map3(dz), map2(dz/2), map1(dz/2) |
| Integrators.Symp4Integrate | src/particles/integrators/Integrators.H:85-117 | the same with Symp4Schedule: nsteps repetitions of the seven calls with tau1 to tau4 from alpha = 1 - 2^(1/3) |
| Integrators.ZevalThreaded | src/particles/integrators/Integrators.H:40-48 | in a run, call i makes sub-step i and hands back value i; the first call is passed zin and each later one what the call before it handed back |
| Integrators.RepeatLength | src/particles/integrators/Integrators.H:43-48 | n repetitions of a step have n times its length |
| Integrators.ScheduleLengths | src/particles/integrators/Integrators.H:43-48 | the three schedules have 3, 5 and 7 calls per step, for nsteps steps when nsteps > 0 and none otherwise |
| Integrators.TauSumAppend | src/particles/integrators/Integrators.H:43-48 | the step length a map receives over two call sequences is the sum over each |
| Integrators.TauSumRepeat | src/particles/integrators/Integrators.H:43-48 | over n repetitions of a step each map receives n times its per-step length |
| Integrators.StepTauSums | src/particles/integrators/Integrators.H:35-116 | within one step map1 and map2 each receive a total of dz in every scheme, symp4 included for any alpha != -1; map3 receives dz in split3 and nothing in the two-map schemes |
| Integrators.TotalTauSums | src/particles/integrators/Integrators.H:35-116 | for nsteps > 0, over the whole run each map a scheme calls receives a total of zout - zin, and map3 nothing in symp4 |
| Integrators.AlphaBounds | src/particles/integrators/Integrators.H:97 | with pow(2, 1/3) the cube root of two, -1 < alpha < 0 |
| Integrators.Symp4Signs | src/particles/integrators/Integrators.H:97-101 | for dz > 0, tau1 and tau2 are positive while tau3 and tau4 are negative (backward sub-steps) |
| Integrators.ZevalIsZin | src/particles/integrators/Integrators.H:40-48 | the integrators never advance zeval themselves: when every map hands back the zeval it was passed, every call of the run is passed zin |
| Integrators.RepeatPalindrome | src/particles/integrators/Integrators.H:43-48 | repeating a palindromic step gives a palindrome |
| Integrators.SchedulesArePalindromes | src/particles/integrators/Integrators.H:45-47 | each schedule reads the same backwards, in the maps called and in the step lengths passed |
| Integrators.ReverseAppend | src/particles/integrators/Integrators.H:43-48 | reversing a concatenation reverses and swaps the parts |
| Integrators.FuseTripleJump | src/particles/integrators/Integrators.H:109-115 | three Strang steps of lengths h, g, h with neighbouring map1 half-steps merged give the seven-call pattern |
| Integrators.Symp4TausAreWeights | src/particles/integrators/Integrators.H:97-101 | tau1 to tau4 are Yoshida's weights w1 = 1/(2 - c) and w0 = -c/(2 - c) times dz |
| Integrators.Symp4IsTripleJump | src/particles/integrators/Integrators.H:107-116 | a symp4 step equals three symp2 steps of w1 dz, w0 dz, w1 dz with the inner map1 calls merged |
| Integrators.TripleJumpWeights | src/particles/integrators/Integrators.H:97-101 | for the cube root of two, w1 > 0, w0 < 0 and 2 w1 + w0 = 1 |
| ChrQuadElement.ApplyCompose | src/particles/elements/ChrQuad.H:117-133 | applying two plane matrices in turn is applying their product |
| ChrQuadElement.PlaneMatricesAreAreaPreserving | src/particles/elements/ChrQuad.H:117-133 | the focusing (cos/sin) and defocusing (cosh/sinh) plane matrices have determinant 1 |
| ChrQuadElement.Reflected | src/particles/elements/ChrQuad.H:117-123 | the Pythagorean and parity laws give sin^2 + cos^2 = 1, cosh^2 - sinh^2 = 1 at theta, and the values at -theta (cos, cosh even; sin, sinh odd) |
| ChrQuadElement.FocusMatrixInverts | src/particles/elements/ChrQuad.H:117-119 | with those values, the focusing matrix for -theta inverts the one for theta |
| ChrQuadElement.DefocusMatrixInverts | src/particles/elements/ChrQuad.H:121-123 | with those values, the defocusing matrix for -theta inverts the one for theta |
| ChrQuadElement.Delta1 | src/particles/elements/ChrQuad.H:97 | delta + 1 is positive and squares to 1 - 2 pt/beta + pt^2 |
| ChrQuadElement.Omega | src/particles/elements/ChrQuad.H:102 | omega is positive with omega^2 (delta + 1) = abs(g) |
| ChrQuadElement.SliceMap | src/particles/elements/ChrQuad.H:105-163 | the slice map never changes pt |
| ChrQuadElement.ChrQuad.Map | src/particles/elements/ChrQuad.H:69-165 | the particle map never changes pt |
| ChrQuadElement.ChrQuad.Push | src/particles/elements/ChrQuad.H:69-165 | the in-place push leaves the particle at Map of its old coordinates, with beta and rigidity taken from the reference particle |
| ChrQuadElement.ChrQuad.PushReference | src/particles/elements/ChrQuad.H:172-201 | x, y, z advance by step times px, py, pz and t falls by step times pt, with step = (ds/nslice)/sqrt(pt^2 - 1); s grows by ds/nslice; px, py, pz, pt, mass, charge and sedge are unchanged |
| ChrQuadElement.RefStepAdvancesBySlice | src/particles/elements/ChrQuad.H:191-200 | for pt < -1, step times pz is the slice length, and the time step is the slice length over beta |
| ChrQuadElement.UnitConventionsAgree | src/particles/elements/ChrQuad.H:90-93 | with unit == 1 the map is the unit-0 map of strength k/rigidity_Tm() |
| ChrQuadElement.OmegaEven | src/particles/elements/ChrQuad.H:102 | omega depends only on abs(g) |
| ChrQuadElement.SliceMapMirror | src/particles/elements/ChrQuad.H:115-156 | flipping the sign of g and swapping the x and y planes commutes with the slice map, t included |
| ChrQuadElement.MirrorSymmetry | src/particles/elements/ChrQuad.H:115-156 | the map for -k on the plane-swapped particle is the plane-swapped map for k, in both unit conventions |
| ChrQuadElement.PlanesDecoupled | src/particles/elements/ChrQuad.H:117-133 | new (x, px) depend only on old (x, px) and pt, new (y, py) only on old (y, py) and pt |
| ChrQuadElement.OnAxisStaysOnAxis | src/particles/elements/ChrQuad.H:117-146 | a particle with x = px = y = py = 0 stays there and its t takes only the chromatic drift |
| ChrQuadElement.SliceMapReversible | src/particles/elements/ChrQuad.H:117-133 | given the values at omega len and -omega len, a slice of length -len restores x, px, y and py after a slice of length len |
| ChrQuadElement.QuadratureSplit | src/particles/elements/ChrQuad.H:148-154 | the bracket term1 + ... + term5 is the focusing plane's wave plus the defocusing plane's wave minus the drift of both |
| ChrQuadElement.FocusMatrixReturns | src/particles/elements/ChrQuad.H:117-119 | after the focusing matrix over theta, the focusing wave over 2 theta from (q, p) and the one over -2 theta from the image cancel, and p^2 + (w q)^2 is kept |
| ChrQuadElement.DefocusMatrixReturns | src/particles/elements/ChrQuad.H:121-123 | after the defocusing matrix over theta, the two defocusing waves cancel and p^2 - (w q)^2 is kept |
| ChrQuadElement.QuadratureCancels | src/particles/elements/ChrQuad.H:148-156 | the brackets of the t update over len and over -len cancel when both planes return |
| ChrQuadElement.TimeOfFlightReturns | src/particles/elements/ChrQuad.H:144-156 | the t update over -len undoes the one over len when the two brackets cancel; the chromatic drift changes sign with the length |
| ChrQuadElement.PlanesReturn | src/particles/elements/ChrQuad.H:142-156 | with the double-angle values, t returns when one plane is carried by the cos/sin matrix and the other by the cosh/sinh matrix |
| ChrQuadElement.SliceTimeReversible | src/particles/elements/ChrQuad.H:115-156 | with the double-angle values at plus and minus 2 omega len, a slice of length -len restores t after a slice of length len, whichever plane focuses |
| ChrQuadElement.DoubledAndReflected | src/particles/elements/ChrQuad.H:149-152 | the Pythagorean, parity and double-angle laws give sin, cos, sinh and cosh at plus and minus 2 theta in terms of their values at theta |
| ChrQuadElement.SliceAnglesByLaws | src/particles/elements/ChrQuad.H:117-156 | the laws of the maths library give every trigonometric value a slice and its reversal use |
| ChrQuadElement.SliceReversible | src/particles/elements/ChrQuad.H:105-163 | one slice of length len followed by the slice of length -len at the same pt restores all six coordinates |
| ChrQuadElement.SliceRoundTrip | src/particles/elements/ChrQuad.H:105-163 | under the Pythagorean, parity and double-angle laws, the slice of length -len restores all six coordinates after the slice of length len |
| ChrQuadElement.ReversedMap | src/particles/elements/ChrQuad.H:69-165 | the quadrupole of length -ds accepts the mapped particle, and composed with the forward map it is a slice over len followed by a slice over -len, with the delta and omega of the incoming pt |
| ChrQuadElement.Reversible | src/particles/elements/ChrQuad.H:69-165 | under the square-root, Pythagorean, parity and double-angle laws, the quadrupole of length -ds undoes the map: all six coordinates return, t included |
| MultipoleElement.Factorial | src/particles/elements/Multipole.H:46-50 | (m - 1)! is at least 1, the value the loop starts from |
| MultipoleElement.FactorialMonotone | src/particles/elements/Multipole.H:46-50 | the factorial never decreases |
| MultipoleElement.FactorialOfTwelve | src/particles/elements/Multipole.H:125 | 12! = 479001600 |
| MultipoleElement.FactorialFitsInt32 | src/particles/elements/Multipole.H:125 | (m - 1)! fits a 32-bit int for multipole <= 13 |
| MultipoleElement.FactorialOverflowsAtThirteen | src/particles/elements/Multipole.H:125 | 13! does not fit a 32-bit int, so multipole 14 overflows |
| MultipoleElement.NewMultipole | src/particles/elements/Multipole.H:40-51 | the constructor's loop stores (multipole - 1)! as a 32-bit int together with the strengths |
| MultipoleElement.Multipole.Map | src/particles/elements/Multipole.H:66-118 | the kick leaves x, y, t and pt unchanged |
| MultipoleElement.Multipole.Push | src/particles/elements/Multipole.H:66-118 | the in-place push leaves the particle at Map of its old coordinates; the reference particle is not read |
| MultipoleElement.DipoleKick | src/particles/elements/Multipole.H:93-101 | for multipole 1 the kick is px -= Kn, py += Ks, independent of position |
| MultipoleElement.QuadrupoleKick | src/particles/elements/Multipole.H:93-101 | for multipole 2 the kick is px -= Kn x - Ks y, py += Kn y + Ks x |
| MultipoleElement.ZeroStrengthIsIdentity | src/particles/elements/Multipole.H:93-111 | Kn = Ks = 0 makes the map the identity |
| MultipoleElement.Superposition | src/particles/elements/Multipole.H:93-111 | two kicks of the same order add their strengths |
| MultipoleElement.Reversible | src/particles/elements/Multipole.H:93-111 | the kick with negated strengths undoes the kick |
| MultipoleElement.PowOfReal | src/particles/elements/Multipole.H:98 | a power of a real number has zero imaginary part |
| MultipoleElement.NormalMultipoleMidplane | src/particles/elements/Multipole.H:93-101 | a normal multipole (Ks = 0) gives no vertical kick on the midplane y = 0 |
| PRotElement.NewPRot | src/particles/elements/PRot.H:36-49 | both angles are stored converted from degrees by pi/180, so the net rotation is (phi_out - phi_in) pi/180 |
| PRotElement.PRot.Map | src/particles/elements/PRot.H:64-108 | the map leaves py and pt unchanged |
| PRotElement.PRot.Push | src/particles/elements/PRot.H:64-108 | the in-place push leaves the particle at Map of its old coordinates, with beta from the reference particle, which is only read |
| PRotElement.NoRotationIsIdentity | src/particles/elements/PRot.H:87-101 | with phi_in = phi_out and pz != 0 all six coordinates are unchanged |
| PRotElement.OnAxisKeepsPosition | src/particles/elements/PRot.H:94-100 | a particle with x = 0 keeps x = 0, y and t |
| PRotElement.Reverse | src/particles/elements/PRot.H:87 | swapping the angles negates the net rotation |
| PRotElement.AnglesAddByLaw | src/particles/elements/PRot.H:87-95 | the angle-addition law gives the relation between phi_in, phi_out and theta that the round trip needs |
| PRotElement.RotationKeepsNorm | src/particles/elements/PRot.H:88-95 | rotating (px + sin phi_in, pz) by theta keeps its length |
| PRotElement.ReverseAtPz | src/particles/elements/PRot.H:84-91 | after the rotation, the reversed rotation's radicand is non-negative and its pz is the forward pzf, when pzf > 0 |
| PRotElement.ReverseAtPzf | src/particles/elements/PRot.H:88-91 | the reversed rotation's pzf is then the forward pz, and the mapped particle lies in its domain |
| PRotElement.RoundTrip | src/particles/elements/PRot.H:87-101 | the reversed rotation undoes the rotation whenever pz != 0 and pzf > 0 |
| PRotElement.Reversible | src/particles/elements/PRot.H:87-101 | the same round trip from the trigonometric laws alone |
| NonlinearLensElement.NonlinearLens.Map | src/particles/elements/NonlinearLens.H:63-128 | the lens leaves x, y, t and pt unchanged |
| NonlinearLensElement.NonlinearLens.Push | src/particles/elements/NonlinearLens.H:63-128 | the in-place push leaves the particle at Map of its old coordinates; the reference particle is not read |
| NonlinearLensElement.ZeroStrengthIsIdentity | src/particles/elements/NonlinearLens.H:109-121 | knll = 0 makes the map the identity |
| NonlinearLensElement.Superposition | src/particles/elements/NonlinearLens.H:109-121 | two lenses with the same cnll add their strengths |
| NonlinearLensElement.Reversible | src/particles/elements/NonlinearLens.H:109-121 | the lens with negated knll undoes the lens |
| NonlinearLensElement.SquareIsOne | src/particles/elements/NonlinearLens.H:96-97 | zeta^2 = 1 exactly when zeta is 1 or -1 |
| NonlinearLensElement.Singularities | src/particles/elements/NonlinearLens.H:90-98 | croot vanishes exactly at the singularities x = +-cnll, y = 0, where the kick divides by zero |
| NonlinearLensElement.ArcsinArgumentNonZero | src/particles/elements/NonlinearLens.H:101-102 | the argument i zeta + croot of the complex logarithm is never zero |
| NoneElement.None.Map | src/particles/elements/None.H:61-69 | the per-particle push returns the coordinates unchanged |
| NoneElement.None.Push | src/particles/elements/None.H:61-69 | the in-place particle push leaves the particle at Map of its old coordinates, that is, unchanged |
| NoneElement.None.PushContainer | src/particles/elements/None.H:37-42 | the container push returns the container unchanged, whatever the step |
| NoneElement.None.PushTile | src/particles/elements/None.H:45-50 | the tile push changes neither the particles nor the reference particle |
| NoneElement.None.PushReference | src/particles/elements/None.H:72 | the reference push, from the Thin mixin, leaves the reference particle unchanged |
| NoneElement.RepeatIsIdentity | src/particles/elements/None.H:61-69 | any number of pushes through None is the identity |
| NoneElement.Idempotent | src/particles/elements/None.H:61-69 | pushing twice is pushing once |
| NoneElement.ContainerPushesCompose | src/particles/elements/None.H:37-42 | two container pushes leave the container unchanged |
| ThinElement.PushReference | src/particles/elements/Multipole.H:121 | the reference push of a thin element leaves the reference particle unchanged (an assumption) |
| Elements.KnownElement.Map | src/particles/elements/All.H:39-60 | the registry's particle map is the held element's; no element changes pt and None changes nothing |
| Elements.KnownElement.Push | src/particles/elements/All.H:39-60 | dispatching the push leaves the particle at the registry Map of its old coordinates |
| Elements.KnownElement.PushReference | src/particles/elements/All.H:39-60 | a thin element leaves the reference particle unchanged. ChrQuad moves x, y, z by step times px, py, pz, lowers t by step times pt, with step = slice/sqrt(pt^2 - 1), and advances s by one slice. px, py, pz, pt, mass, charge and sedge never change |
| Elements.Default | src/particles/elements/All.H:40 | the default element is None, which is thin |
| Elements.DefaultIsIdentity | src/particles/elements/All.H:40 | the default element accepts every particle and leaves it unchanged |
| RandomEngine.Engine.Upcoming | src/particles/distribution/Triangle.H:81-112 | the next n draws all lie in [0, 1) |
| RandomEngine.Engine.constructor | src/particles/distribution/Triangle.H:68 | an engine starts at the first draw of its stream |
| RandomEngine.Engine.Random | src/particles/distribution/Triangle.H:81 | amrex::Random returns the next draw, in [0, 1), and advances by one |
| Correlation.Root | src/particles/distribution/Triangle.H:120 | root is the positive square root of 1 - mu^2, defined for abs(mu) < 1 |
| Correlation.CorrelateLinear | src/particles/distribution/Triangle.H:120-124 | the plane transform is linear: x' = sigma_x x/root, px' = sigma_px (px - mu x/root) |
| Correlation.DecorrelateCorrelate | src/particles/distribution/Triangle.H:120-124 | the inverse transform undoes the transform when both sigmas are non-zero |
| Correlation.CorrelateDecorrelate | src/particles/distribution/Triangle.H:120-124 | the transform undoes the inverse transform |
| Correlation.UncorrelatedIsScaling | src/particles/distribution/Triangle.H:120-124 | with mu = 0 the transform is x' = sigma_x x, px' = sigma_px px |
| Correlation.AreaScaling | src/particles/distribution/Triangle.H:120-124 | the transform scales every oriented phase-space area by sigma_x sigma_px / root |
| Correlation.MomentsRoundTrip | src/particles/distribution/Triangle.H:120-134 | the six-coordinate transform and its inverse undo each other |
| Correlation.UncorrelatedMoments | src/particles/distribution/Triangle.H:120-134 | with all three mu zero every coordinate is scaled by its sigma |
| Correlation.PlanesIndependent | src/particles/distribution/Kurth4D.H:116-130 | each plane's output depends only on that plane's input (and its own sigma and mu) |
| TriangleDistribution.BoxMuller | src/particles/distribution/Triangle.H:85-89 | two draws give the Box-Muller pair and advance the engine by two |
| TriangleDistribution.Shape | src/particles/distribution/Triangle.H:81-117 | the in-place normalisation and scaling yield Unit of the eight draws |
| TriangleDistribution.Triangle.Draw | src/particles/distribution/Triangle.H:61-135 | a sample consumes exactly eight draws and equals the correlation transform of Unit of those draws |
| TriangleDistribution.RampRange | src/particles/distribution/Triangle.H:81-82 | before scaling, t = sqrt(2)(2 - 3 sqrt(u0)) lies in [-sqrt 2, 2 sqrt 2] for u0 in [0, 1] |
| TriangleDistribution.GaussianPairRadius | src/particles/distribution/Triangle.H:85-89 | a Box-Muller pair has g1^2 + g2^2 = -2 log u1 |
| TriangleDistribution.MomentumWithinRadius | src/particles/distribution/Triangle.H:95-101 | pt is the fifth Gaussian, so pt^2 <= -2 log u5 |
| TriangleDistribution.WaterbagRadius | src/particles/distribution/Triangle.H:104-117 | x^2 + y^2 + px^2 + py^2 = (sqrt(6) u^(1/4))^2 whenever the norm is non-zero |
| TriangleDistribution.Sphere | src/particles/distribution/Triangle.H:104-117 | a non-zero 4-vector divided by its length and scaled by r has squared length r^2 |
| Kurth4DDistribution.SampleTransverse | src/particles/distribution/Kurth4D.H:75-96 | the step-by-step transverse computation yields KurthTransverse of its four draws |
| Kurth4DDistribution.Shape | src/particles/distribution/Kurth4D.H:75-113 | the step-by-step computation yields the scaled sample of the seven draws |
| Kurth4DDistribution.Kurth4D.Draw | src/particles/distribution/Kurth4D.H:57-131 | a sample consumes exactly seven draws and equals the correlation transform of the scaled sample of those draws |
| Kurth4DDistribution.DomainIsPositiveRadius | src/particles/distribution/Kurth4D.H:75-92 | for draws in [0, 1) a sample is defined exactly when v > 0, since pphi = Lz/r divides by r = sqrt(v) |
| Kurth4DDistribution.DiscRadius | src/particles/distribution/Kurth4D.H:75-80 | before scaling, x^2 + y^2 = v |
| Kurth4DDistribution.AngularMomentum | src/particles/distribution/Kurth4D.H:83-96 | before scaling, x py - y px = Lz = r (2u - 1) |
| Kurth4DDistribution.AngularMomentumBound | src/particles/distribution/Kurth4D.H:83-84 | abs(Lz) <= r: (x py - y px)^2 <= x^2 + y^2 |
| Kurth4DDistribution.LzBound | src/particles/distribution/Kurth4D.H:83-84 | Lz = r (2u - 1) with u in [0, 1) has Lz^2 <= r^2 |
| Kurth4DDistribution.RadicandFactors | src/particles/distribution/Kurth4D.H:89-90 | the radicand of pmax is (1 - (2u - 1)^2)(1 - v), never negative |
| Kurth4DDistribution.KurthSupport | src/particles/distribution/Kurth4D.H:75-96 | every transverse sample satisfies x^2 + y^2 + px^2 + py^2 - Lz^2 <= 1 |
| Kurth4DDistribution.SupportCore | src/particles/distribution/Kurth4D.H:75-96 | the Kurth bound from the disc radius, the momentum rotation and the pmax radicand |
| Kurth4DDistribution.TimeRange | src/particles/distribution/Kurth4D.H:99-100 | before scaling, t = 2(u - 1/2) lies in [-1, 1) |
| Kurth4DDistribution.ScaleRoundTrip | src/particles/distribution/Kurth4D.H:107-113 | the scaling (x, y, px, py doubled, t times sqrt 3, pt kept) is undone by its inverse |
| NoneDistribution.None.Apply | src/particles/distribution/None.H:42-52 | the sampler returns x, y, t, px, py, pt unchanged |
| NoneDistribution.None.Draw | src/particles/distribution/None.H:42-52 | the coordinates come back unchanged and no draw is consumed |
| NoneDistribution.Idempotent | src/particles/distribution/None.H:50-52 | applying the sampler twice equals applying it once, which is the identity |
| NoneDistribution.RepeatIsIdentity | src/particles/distribution/None.H:50-52 | any number of applications is the identity |

## Left out

- Floating-point rounding is not modelled: all arithmetic is exact over `real`.
  In the element maps and the samplers, IEEE infinities and NaNs from a
  division by zero or a square root of a negative number become
  preconditions, such as `nslice != 0`, `g != 0`, `delta1 > 0`, `pz` and `pzf`
  non-zero, `cnll != 0`, `abs(mu) < 1`, a non-zero Gaussian norm and `v > 0`.
- ReferenceParticle.RefPart.Beta: for 0 < |pt| < 1, `beta()` and
  `beta_gamma()` take the square root of a negative number
  (ReferenceParticle.H:69 and 83). So do the `pz` that `set_mass_MeV` and
  `set_energy_MeV` write (lines 121 and 158), and the source gets NaN. An
  example is `set_energy_MeV(E)` with -2 mass_MeV < E < 0. The model does not
  exclude these inputs: `Beta` requires only `pt != 0`, and `BetaGamma`,
  `OnAxisPz`, `SetMassMeV` and `SetEnergyMeV` require nothing of pt. There
  `lib.sqrt` gives some real, so the NaN is not modelled. The lemmas about
  these values assume `pt^2 >= 1`.
- The transcendental functions are unknown beyond the laws stated in
  `Maths.Libm`. Their values, accuracy and the branch cuts of the complex
  logarithm and square root are not modelled. `pow(a, 2)` is written `a * a`,
  except in Kurth4D, where the law `PowSquare` relates the two.
- The `BeamOptic`, `Thick`, `Thin` and `NoFinalize` mixins are not part of
  this model. The loop that applies a particle map to every particle of a
  container is therefore left out; the model pushes one `Particle` at a time.
- ThinElement.PushReference: the reference push of Multipole, PRot,
  NonlinearLens and None comes from the Thin mixin, which is not shown. It is
  assumed to leave the reference particle unchanged.
- The slice count `nslice()` comes from the Thick mixin and is taken to be
  ChrQuad's `nslice` parameter.
- The element kinds of `All.H` whose headers are not shown are not in
  `Elements.KnownElement`: ChrAcc, ChrDrift, ConstF, BeamMonitor, DipEdge,
  Drift, ExactDrift, Programmable, Quad, RFCavity, Sbend, ShortRF,
  SoftSolenoid, SoftQuadrupole and Sol.
- The integrators are generic over the element. The model stands in a
  `Recorder` that logs the calls, so the maps the integrators drive and the
  convergence order of the schemes are not modelled.
- The signatures of `map1`, `map2` and `map3` are not part of this model: the
  elements that define them are not shown. The integrators hand `zeval` to
  each map as a variable it may update. So the model lets each map hand back
  an arbitrary new `zeval`, which the next call receives.
- The random engine's generator and the statistics of the samplers are not
  modelled. This covers uniformity, second moments and the Gaussian law of the
  Box-Muller pairs; the engine is any finite stream of draws in [0, 1).
- MultipoleElement.NewMultipole: a multipole index above 13 overflows the
  32-bit factorial, which is undefined behaviour in C++, so the model requires
  `multipole <= 13`.
- MultipoleElement.Multipole.Map: requires a multipole index of at least 1.
  For an index <= 0 the constructor's loop (Multipole.H:46-50) runs no times
  and stores 1, which `NewMultipole` models. The kick would then raise
  x + i y to the negative power m - 1 (Multipole.H:97-98), and the complex
  power of a negative exponent is not modelled.
- A draw of exactly 0 makes the source take `log(0)`, which is minus infinity
  (Triangle.H:87, 92 and 97; Kurth4D.H:103), so the sample is infinite. The
  model's `log` is a total function on the reals, so it gives some real there,
  and the infinite sample is not modelled.
- Kurth4D writes out its own pi, 3.14159265358979, and the model keeps it
  (`Kurth4DDistribution.KurthPi`). Triangle and PRot use the library pi
  (`Maths.Pi`).
- GPU annotations, the unused 6x6 `map` field of `RefPart` and the
  Python bindings are left out.

## Findings

| source | as written | input that shows it | evidently intended | confidence | as-written member | corrected member |
|---|---|---|---|---|---|---|
| src/particles/ReferenceParticle.H:115-122 | `mass` is overwritten before `energy_MeV()` is read, so `pt = -energy_MeV()/massE - 1` equals the old `pt` and the kinetic energy scales with the new mass | mass 1 MeV/c^2, `set_energy_MeV(1)`, then `set_mass_MeV(2)`: the kinetic energy becomes 2 MeV | read the kinetic energy before changing the mass, so that it is kept | high for exact arithmetic; not executed | ReferenceParticle.MassChangeAfterEnergy | ReferenceParticle.RefPart.SetMassMeVKeepingEnergy |
