/**
 The "ignorance utility" (`apply_ignorance_utility` in Boundary-of-Spheres.c):
 lower the resolution, vent meaning and contradiction when pressure is past
 the dissolve threshold, re-centre pressure and fatigue, then clamp.
 */
module Regulation {
  import opened CArith
  import opened SphereTypes

  /** Strength divisors of the four reductions. */
  const DownshiftDivisor: int := 80
  const MeaningVentDivisor: int := 8
  const ContradictionVentDivisor: int := 10
  const PressureDivisor: int := 6
  const FatigueDivisor: int := 5

  /** `apply_ignorance_utility(sp, strength)`. Only the five signals move;
      the result is back in range whatever the strength. A negative strength
      never lowers a signal; from -1 to -4 every quotient truncates to 0 and
      nothing moves, while -5 already raises fatigue and -6 pressure. */
  function Regulate(sp: Sphere, strength: Int32): (r: Sphere)
    requires SignalsInRange(sp)
    ensures SignalsInRange(r)
    ensures SameConfig(r, sp) && r.state == sp.state
    ensures r.resolution <= sp.resolution
    ensures strength < DownshiftDivisor ==> r.resolution == sp.resolution
    ensures sp.pressure <= sp.thDissolve ==>
      r.meaning == sp.meaning && r.contradiction == sp.contradiction
    ensures 0 <= strength ==> NoSignalIncreases(sp, r)
    ensures strength <= 0 ==> NoSignalIncreases(r, sp)
    ensures -FatigueDivisor < strength <= 0 ==> r == sp
    ensures strength <= -FatigueDivisor && sp.fatigue < SignalMax ==> r.fatigue > sp.fatigue
    ensures strength <= -PressureDivisor && sp.pressure < SignalMax ==> r.pressure > sp.pressure
  {
    var down := Quot(strength, DownshiftDivisor);
    var resolution := if down > 0 then sp.resolution - down else sp.resolution;
    var vent := sp.pressure > sp.thDissolve;
    var meaning := if vent then sp.meaning - Quot(strength, MeaningVentDivisor) else sp.meaning;
    var contradiction :=
      if vent then sp.contradiction - Quot(strength, ContradictionVentDivisor) else sp.contradiction;
    var pressure := sp.pressure - Quot(strength, PressureDivisor);
    var fatigue := sp.fatigue - Quot(strength, FatigueDivisor);
    sp.(
      resolution := Clamp(resolution, ResolutionMin, ResolutionMax),
      meaning := Clamp(meaning, SignalMin, SignalMax),
      contradiction := Clamp(contradiction, SignalMin, SignalMax),
      pressure := Clamp(pressure, SignalMin, SignalMax),
      fatigue := Clamp(fatigue, SignalMin, SignalMax))
  }

  /** For a non-negative strength each reduction is a plain subtraction
      floored at the lower bound (no upper clamp can bite, and C's truncating
      division agrees with Dafny's). */
  lemma RegulateFloors(sp: Sphere, strength: Int32)
    requires SignalsInRange(sp) && 0 <= strength
    ensures var r := Regulate(sp, strength);
      && r.resolution == Max(ResolutionMin, sp.resolution - strength / DownshiftDivisor)
      && r.pressure == Max(SignalMin, sp.pressure - strength / PressureDivisor)
      && r.fatigue == Max(SignalMin, sp.fatigue - strength / FatigueDivisor)
      && r.meaning ==
        (if sp.pressure > sp.thDissolve then Max(SignalMin, sp.meaning - strength / MeaningVentDivisor)
         else sp.meaning)
      && r.contradiction ==
        (if sp.pressure > sp.thDissolve
         then Max(SignalMin, sp.contradiction - strength / ContradictionVentDivisor)
         else sp.contradiction)
  {
  }

  /** Stronger regulation never leaves a signal higher than weaker regulation. */
  lemma RegulateMonotone(sp: Sphere, weak: Int32, strong: Int32)
    requires SignalsInRange(sp)
    requires weak <= strong
    ensures NoSignalIncreases(Regulate(sp, weak), Regulate(sp, strong))
  {
    QuotMonotone(weak, strong, DownshiftDivisor);
    QuotMonotone(weak, strong, MeaningVentDivisor);
    QuotMonotone(weak, strong, ContradictionVentDivisor);
    QuotMonotone(weak, strong, PressureDivisor);
    QuotMonotone(weak, strong, FatigueDivisor);
  }

}
