/**
 The Sphere record of Boundary-of-Spheres.c: five bounded signals, a derived
 classification and three threshold knobs, together with the events that
 drive it.
 */
module SphereTypes {
  import opened CArith

  /** `SphereState`, in the order of the C enumeration. */
  datatype SphereState = Stable | Float | Freeze | Dissolve

  /** `EventKind`, in the order of the C enumeration. */
  datatype EventKind = Info | Contradiction | MeaningOver | Threat | Rest

  /** One transient input: what happened and how strongly. */
  datatype Event = Event(kind: EventKind, intensity: Int32)

  /** A frame under load. `name` is an opaque diagnostic label. */
  datatype Sphere = Sphere(
    name: string,
    pressure: int,
    contradiction: int,
    meaning: int,
    resolution: int,
    fatigue: int,
    state: SphereState,
    thFloat: Int32,
    thFreeze: Int32,
    thDissolve: Int32
  )

  /** Bounds of pressure, contradiction, meaning and fatigue. */
  const SignalMin: int := 0
  const SignalMax: int := 5000

  /** Bounds of resolution: never zero, at most 100. */
  const ResolutionMin: int := 1
  const ResolutionMax: int := 100

  /** The five signals, named so that statements can range over them. */
  datatype Signal =
    | PressureSignal
    | ContradictionSignal
    | MeaningSignal
    | ResolutionSignal
    | FatigueSignal

  function Get(sp: Sphere, s: Signal): int {
    match s
    case PressureSignal => sp.pressure
    case ContradictionSignal => sp.contradiction
    case MeaningSignal => sp.meaning
    case ResolutionSignal => sp.resolution
    case FatigueSignal => sp.fatigue
  }

  /** The range invariant every processed event re-establishes. */
  predicate SignalsInRange(sp: Sphere) {
    && SignalMin <= sp.pressure <= SignalMax
    && SignalMin <= sp.contradiction <= SignalMax
    && SignalMin <= sp.meaning <= SignalMax
    && ResolutionMin <= sp.resolution <= ResolutionMax
    && SignalMin <= sp.fatigue <= SignalMax
  }

  /** The name and the thresholds, which no operation changes. */
  predicate SameConfig(a: Sphere, b: Sphere) {
    && a.name == b.name
    && a.thFloat == b.thFloat
    && a.thFreeze == b.thFreeze
    && a.thDissolve == b.thDissolve
  }

  /** No signal of `after` exceeds the same signal of `before`. */
  predicate NoSignalIncreases(before: Sphere, after: Sphere) {
    && after.pressure <= before.pressure
    && after.contradiction <= before.contradiction
    && after.meaning <= before.meaning
    && after.resolution <= before.resolution
    && after.fatigue <= before.fatigue
  }

}
