# Boundary of Spheres — a verified Dafny model

This project models the core of the "Boundary of Spheres" simulator. A
*Sphere* is a frame under load. It carries five bounded integer signals:
pressure, contradiction, meaning and fatigue, each in [0, 5000], and
resolution, in [1, 100]. It also carries three threshold knobs (float,
freeze, dissolve) and a derived state (Stable, Float, Freeze or Dissolve).

Each event (Info, Contradiction, MeaningOver, Threat or Rest, with an
intensity) is processed in five steps:

1. The event's additive effect is applied. A Rest event instead calls the
   regulation routine, the "ignorance utility", directly.
2. Every signal is clamped.
3. The signals are classified by first-match priority: Dissolve, then Freeze,
   then Float, then Stable.
4. On a risky classification the sphere is regulated with a fixed strength.
   Dissolve also gets a hard rebuild: resolution is set to 8 and the other
   four signals are halved.
5. The signals are classified again, and that second result is stored.

A second, independent component is also modelled: the strategic-ignorance
step on a two-word `uint32_t` record. It either saturates a bitmask or adds
the incoming pressure to a ground value, with 32-bit wrap-around.

Files and modules:

- `c_arith.dfy` (`CArith`): the `int32_t` range, C's truncating division
  (`Quot`), and `clamp_i32` (`Clamp`).
- `sphere_types.dfy` (`SphereTypes`): the `Sphere`, `Event`, `SphereState`
  and `EventKind` types, the signal ranges, and the range invariant.
- `classification.dfy` (`Classification`): `detect_state` and the
  `check_dissolve` sketch from the file header.
- `regulation.dfy` (`Regulation`): `apply_ignorance_utility`.
- `ingestion.dfy` (`Ingestion`): `ingest_event`, split into its event switch,
  clamp and transition policy, plus the driver loop over a script of events.
- `scenario.dfy` (`Scenario`): the reference driver's starting sphere and
  ten-event script, with the trajectory the model computes for it.
- `strategic_ignorance.dfy` (`StrategicIgnorance`): `CoreMatrix` and
  `apply_strategic_ignorance`.

All operations are pure functions on immutable values. The C code mutates
a `Sphere` in place; here `Ingest(sp, e)` returns the updated sphere instead.

## Model

| member | source | states |
|---|---|---|
| CArith.Quot | Boundary-of-Spheres.c:105-116 | C's `/` by a positive literal truncates toward zero: the quotient times the divisor lies within one divisor of the dividend, on the dividend's side of zero. |
| CArith.QuotMonotone | Boundary-of-Spheres.c:105-116 | A larger dividend never gives a smaller truncated quotient. |
| CArith.Clamp | Boundary-of-Spheres.c:70-74 | For `lo <= hi` the result lies in [lo, hi]. A value already in range is returned unchanged. The result is always `v`, `lo` or `hi`. |
| CArith.ClampIsNearest | Boundary-of-Spheres.c:70-74 | The clamped value is a point of the range nearest to `v`. |
| CArith.ClampMonotone | Boundary-of-Spheres.c:70-74 | Clamping to a fixed range preserves order. |
| Classification.Detect | Boundary-of-Spheres.c:131-140 | The returned state's own rule holds, and the rule of every state ranked before it fails. The ranking is Dissolve, Freeze, Float, then Stable, which always holds. |
| Classification.DetectUnique | Boundary-of-Spheres.c:131-140 | The first-match property determines the state: any state that holds and beats every other holding state is the classification. |
| Classification.DetectRules | Boundary-of-Spheres.c:136-139 | Dissolve iff chaos >= th_dissolve. Freeze iff not Dissolve, fixation >= th_freeze and pressure >= th_freeze/2. Float iff neither earlier rule fires, overload >= th_float and meaning >= th_float/3. Stable iff no rule fires. |
| Classification.CheckDissolve | Boundary-of-Spheres.c:13-19 | The assembly sketch answers 0 or 1, and it answers 1 exactly when pressure + contradiction reaches the dissolve threshold. |
| Classification.DetectAgreesWithSketch | Boundary-of-Spheres.c:13-19 | A sphere classifies as Dissolve exactly when `check_dissolve` on its pressure, contradiction and dissolve threshold answers 1. |
| Regulation.Regulate | Boundary-of-Spheres.c:103-123 | The result is in range. Name, thresholds and state are untouched. Resolution never rises, and it is unchanged for strength < 80. Meaning and contradiction change only when pressure > th_dissolve. With strength >= 0 no signal increases, and with strength <= 0 none decreases. Strengths from -4 to 0 are the identity, because every quotient truncates to 0. Strength -5 or less raises fatigue, and -6 or less raises pressure, unless the signal is already at its upper bound. |
| Regulation.RegulateFloors | Boundary-of-Spheres.c:105-122 | For strength >= 0 each signal is its old value minus the strength over its divisor (80, 8, 10, 6, 5), floored at the lower bound. Meaning and contradiction are vented only above the dissolve threshold. |
| Regulation.RegulateMonotone | Boundary-of-Spheres.c:103-123 | For any two int32 strengths, negative ones included, the stronger regulation never leaves any signal higher than the weaker one. |
| Ingestion.ClampSignals | Boundary-of-Spheres.c:176-181 | After the five clamps every signal is in range. An already in-range sphere is unchanged, and name, thresholds and state are kept. |
| Ingestion.Absorb | Boundary-of-Spheres.c:144-181 | The event switch followed by the clamps always leaves the five signals in range. It keeps the name, the thresholds and the stored state. |
| Ingestion.AbsorbFrame | Boundary-of-Spheres.c:144-168 | A signal outside the event kind's list is not changed. For example, Info touches neither contradiction nor meaning. |
| Ingestion.AbsorbIncrements | Boundary-of-Spheres.c:144-181 | For intensity >= 0 a non-Rest event raises each signal by its table increment (Info: pressure i/10, fatigue i/15; Contradiction: i/3, i/6, i/8; MeaningOver: i/2, i/5, i/7; Threat: i/2, i/6, i/3), saturating at the upper bound. No signal decreases. |
| Ingestion.InfoResolutionStep | Boundary-of-Spheres.c:149 | Info raises resolution by one, capped at 100, exactly when the intensity is above 300. Otherwise resolution is unchanged. |
| Ingestion.AbsorbRest | Boundary-of-Spheres.c:170-173 | A Rest event's effect is exactly one regulation with the event's intensity as strength. |
| Ingestion.RestZeroIsQuiet | Boundary-of-Spheres.c:170-181 | Rest of intensity 0 changes no signal before classification. |
| Ingestion.Respond | Boundary-of-Spheres.c:186-201 | The result is in range. Stable changes nothing. Float and Freeze regulate with strength 240 and 420. Dissolve regulates with 800, then sets resolution to exactly 8 and each other signal to exactly half of its regulated value, rounded down. |
| Ingestion.Ingest | Boundary-of-Spheres.c:142-204 | After any event all five signals are in range. Name and thresholds are unchanged. The stored state equals the classification of the stored signals. |
| Ingestion.IngestBranches | Boundary-of-Spheres.c:184-203 | The first classification picks the branch. On Stable the clamped sphere is kept. On Float and Freeze the result is the policy regulation. On Dissolve resolution is 8 and the other four signals are halves of their values after `regulate(800)`. |
| Ingestion.RestZeroOnStable | Boundary-of-Spheres.c:170-203 | On a sphere that classifies as Stable, Rest(0) only sets the stored state to Stable, and a second Rest(0) changes nothing. |
| Ingestion.RepeatedRestZeroOnStable | Boundary-of-Spheres.c:170-203 | Any number (at least one) of Rest(0) events leave a sphere that classifies as Stable exactly as it was, except that Stable is recorded as its state. |
| Ingestion.Run | Boundary-of-Spheres.c:242-246 | Feeding any script keeps every signal in range and the configuration fixed. After at least one event the stored state matches the classification. |
| Ingestion.RunAppend | Boundary-of-Spheres.c:242-246 | Running two scripts back to back is the same as running their concatenation. |
| Ingestion.RunStep | Boundary-of-Spheres.c:242-246 | The run of the first i+1 events is one `Ingest` of event i after the run of the first i. |
| Ingestion.Simulate | Boundary-of-Spheres.c:242-246 | The driver loop yields one snapshot per event. Snapshot k is the run of the first k+1 events. |
| Scenario.OpeningMoves | Boundary-of-Spheres.c:213-230 | From the reference sphere, Info(300), MeaningOver(600), Contradiction(700) and Threat(500) leave it Float. Contradiction ends above 40 and pressure above 120. |
| Scenario.WholeScript | Boundary-of-Spheres.c:213-237 | Running the full ten-event script, as the driver loop does, ends Stable with pressure 616, contradiction 573, meaning 863, resolution 1 and fatigue 205. |
| Scenario.DissolveThenStable | Boundary-of-Spheres.c:193-203 | A sphere whose first classification is Dissolve is rebuilt at resolution 8 with its signals halved, and it comes out Stable. |
| Scenario.RestZeroOnFloat | Boundary-of-Spheres.c:170-192 | Rest(0) moves no signal before classification, yet a sphere still classified as Float is then regulated with strength 240. |
| StrategicIgnorance.AddU32 | Implementation.c:22 | Unsigned 32-bit addition is the plain sum, or the sum minus 2^32 when it wraps. |
| StrategicIgnorance.ApplyStrategicIgnorance | Implementation.c:11-23 | If pressure > 13, the mask becomes 0xFFFFFFFF and the ground is unchanged. If pressure <= 13 (13 included), the mask is unchanged and the ground becomes old + pressure, wrapping modulo 2^32. |
| StrategicIgnorance.SaturationIdempotent | Implementation.c:13-18 | Applying the step twice with the same pressure > 13 gives the same record as applying it once. |
| StrategicIgnorance.StableStepsAccumulate | Implementation.c:11-23 | Applying the step to any sequence of pressures, all <= 13, adds their sum to the ground modulo 2^32 and never touches the mask. |
| StrategicIgnorance.StableStepsCommute | Implementation.c:21-22 | Two steps with pressures <= 13 commute. Together they add both pressures to the ground modulo 2^32 and leave the mask alone. |

## Left out

- `print_sphere`, `state_name`, `event_name` and the `printf` calls of `main`: output formatting only. The driver's loop is modelled as `Run` and `Simulate`, and its sphere and script as `Scenario`.
- The `name` field is an opaque `string`. Nothing reads it.
- Regulate, Ingest, Run: require the five signals to be in range on entry, and take intensities and thresholds as `int32_t` values. The source relies on this without checking it. On out-of-range signals, C's `int32_t` arithmetic can overflow, which is undefined behaviour. Under these preconditions no intermediate value overflows, so the model uses unbounded integers.
- Classification.Detect: has no precondition. The source only classifies clamped spheres, whose sums cannot overflow `int32_t`, so overflow of those sums is not modelled.
- Negative intensities and thresholds are modelled, using C's truncating division (`Quot`). The "no signal increases" property of `Regulate` is stated only for strength >= 0. A strength of -5 or less raises fatigue, and -6 or less raises pressure (for strengths from -4 to 0 every quotient truncates to 0, so nothing moves).
- gpt0.01.py, Pseudo-Logic.py and "Linguistic-to-Logic Mapping Example.c" are not part of this model. The first two hold only stubs and calls to undefined functions. The third is a boolean routing sketch with floating point and printing.
- Concurrency: there is none. Each sphere is a value, so exclusive access is implicit.

Two consequences of following the code exactly:

- The resolution downshift in `apply_ignorance_utility` happens only when `strength / 80` is positive. A negative strength therefore never raises the resolution.
- Rest(0) changes no signal before classification (`Ingestion.RestZeroIsQuiet`). On a sphere that classifies as Stable, Rest(0) therefore changes nothing but the stored state, and a second one changes nothing at all (`Ingestion.RestZeroOnStable`). On a sphere that still classifies as Float or Freeze, the automatic policy regulation fires anyway (`Scenario.RestZeroOnFloat`). For these two states, whether that moves a signal depends only on the regulation's floored formulas (`Regulation.RegulateFloors`), so a sphere whose signals already sit at their floors keeps them. A sphere that classifies as Dissolve is also rebuilt after the regulation: its resolution becomes 8 and its other four signals are halved (`Ingestion.IngestBranches`). So Rest(0) moves its resolution even when that signal already sits at its floor.
