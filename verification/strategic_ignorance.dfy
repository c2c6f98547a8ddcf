/**
 The strategic-ignorance step of Implementation.c: a two-word state that
 either saturates its ignorance mask or accumulates the incoming pressure
 into its ground stability, with unsigned 32-bit wrap-around.
 */
module StrategicIgnorance {

  /** `uint32_t` arithmetic is arithmetic modulo 2^32. */
  const Modulus: int := 0x1_0000_0000

  /** The values of a `uint32_t`. */
  type UInt32 = x: int | 0 <= x < Modulus

  /** `MAX_CONVERGENCE`: the all-ones mask. */
  const MaxConvergence: UInt32 := 0xFFFF_FFFF

  /** `THRESHOLD_13`: pressures above it count as a phase disruption. */
  const Threshold13: UInt32 := 0x0000_000D

  /** `CoreMatrix`: two unsigned 32-bit words. */
  datatype CoreMatrix = CoreMatrix(groundStability: UInt32, ignoranceMask: UInt32)

  /** C's unsigned `a + b`: the sum reduced modulo 2^32. */
  function AddU32(a: UInt32, b: UInt32): (r: UInt32)
    ensures r == a + b || r == a + b - Modulus
  {
    (a + b) % Modulus
  }

  /** `apply_strategic_ignorance(core, phase_pressure)`. Above the threshold
      the mask saturates to all ones and the ground is left alone (early
      return); at or below it the mask is left alone and the pressure is
      added to the ground, wrapping past 2^32 - 1 back through zero. */
  function ApplyStrategicIgnorance(core: CoreMatrix, phasePressure: UInt32): (r: CoreMatrix)
    ensures phasePressure > 13 ==>
      r.ignoranceMask == Modulus - 1 && r.groundStability == core.groundStability
    ensures phasePressure <= 13 ==> r.ignoranceMask == core.ignoranceMask
    ensures phasePressure <= 13 && core.groundStability + phasePressure < Modulus ==>
      r.groundStability == core.groundStability + phasePressure
    ensures phasePressure <= 13 && core.groundStability + phasePressure >= Modulus ==>
      r.groundStability == core.groundStability + phasePressure - Modulus
  {
    if phasePressure > Threshold13 then
      core.(ignoranceMask := MaxConvergence)
    else
      core.(groundStability := AddU32(core.groundStability, phasePressure))
  }

  /** Saturation is idempotent: a second disruption with the same pressure
      changes nothing. */
  lemma SaturationIdempotent(core: CoreMatrix, phasePressure: UInt32)
    requires phasePressure > 13
    ensures ApplyStrategicIgnorance(ApplyStrategicIgnorance(core, phasePressure), phasePressure)
         == ApplyStrategicIgnorance(core, phasePressure)
  {
  }

  /** Two stable steps accumulate in either order to the same ground, the
      sum of both pressures modulo 2^32, and leave the mask alone. */
  lemma StableStepsCommute(core: CoreMatrix, p: UInt32, q: UInt32)
    requires p <= 13 && q <= 13
    ensures ApplyStrategicIgnorance(ApplyStrategicIgnorance(core, p), q)
         == ApplyStrategicIgnorance(ApplyStrategicIgnorance(core, q), p)
    ensures var r := ApplyStrategicIgnorance(ApplyStrategicIgnorance(core, p), q);
      && r.ignoranceMask == core.ignoranceMask
      && r.groundStability == (core.groundStability + p + q) % Modulus
  {
  }

  /** The step applied to each pressure of `pressures` in turn. */
  function ApplyAll(core: CoreMatrix, pressures: seq<UInt32>): CoreMatrix
    decreases |pressures|
  {
    if |pressures| == 0 then core
    else ApplyStrategicIgnorance(ApplyAll(core, pressures[..|pressures| - 1]), pressures[|pressures| - 1])
  }

  function Sum(xs: seq<UInt32>): int
    decreases |xs|
  {
    if |xs| == 0 then 0 else Sum(xs[..|xs| - 1]) + xs[|xs| - 1]
  }

  /** A run of stable steps accumulates every pressure into the ground,
      modulo 2^32, and never touches the mask. */
  lemma {:induction false} StableStepsAccumulate(core: CoreMatrix, pressures: seq<UInt32>)
    requires forall k :: 0 <= k < |pressures| ==> pressures[k] <= 13
    ensures ApplyAll(core, pressures).ignoranceMask == core.ignoranceMask
    ensures ApplyAll(core, pressures).groundStability == (core.groundStability + Sum(pressures)) % Modulus
    decreases |pressures|
  {
    if |pressures| > 0 {
      var n := |pressures| - 1;
      StableStepsAccumulate(core, pressures[..n]);
    }
  }
}
