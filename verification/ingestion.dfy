/**
 Event processing (`ingest_event` in Boundary-of-Spheres.c): apply the
 event's additive effect, clamp, classify, regulate according to the first
 classification, and store the second classification as the public state.
 */
module Ingestion {
  import opened CArith
  import opened SphereTypes
  import opened Classification
  import opened Regulation

  /** Intensity above which an Info event raises the resolution by one. */
  const InfoResolutionThreshold: int := 300

  /** Automatic regulation strengths of the transition policy. */
  const FloatStrength: int := 240
  const FreezeStrength: int := 420
  const DissolveStrength: int := 800

  /** The resolution a dissolved sphere is rebuilt at. */
  const RebuildResolution: int := 8

  /** The `switch` on the event kind, before clamping. A Rest event is a
      direct call of the regulation routine with the event's intensity. */
  function Effect(sp: Sphere, e: Event): Sphere
    requires SignalsInRange(sp)
  {
    var i := e.intensity;
    match e.kind
    case Info =>
      sp.(pressure := sp.pressure + Quot(i, 10),
          fatigue := sp.fatigue + Quot(i, 15),
          resolution := sp.resolution + (if i > InfoResolutionThreshold then 1 else 0))
    case Contradiction =>
      sp.(contradiction := sp.contradiction + Quot(i, 3),
          pressure := sp.pressure + Quot(i, 6),
          fatigue := sp.fatigue + Quot(i, 8))
    case MeaningOver =>
      sp.(meaning := sp.meaning + Quot(i, 2),
          pressure := sp.pressure + Quot(i, 5),
          fatigue := sp.fatigue + Quot(i, 7))
    case Threat =>
      sp.(pressure := sp.pressure + Quot(i, 2),
          meaning := sp.meaning + Quot(i, 6),
          fatigue := sp.fatigue + Quot(i, 3))
    case Rest =>
      Regulate(sp, i)
  }

  /** The five `clamp_i32` calls that close the event switch. */
  function ClampSignals(sp: Sphere): (r: Sphere)
    ensures SignalsInRange(r)
    ensures SignalsInRange(sp) ==> r == sp
    ensures SameConfig(r, sp) && r.state == sp.state
  {
    sp.(pressure := Clamp(sp.pressure, SignalMin, SignalMax),
        contradiction := Clamp(sp.contradiction, SignalMin, SignalMax),
        meaning := Clamp(sp.meaning, SignalMin, SignalMax),
        resolution := Clamp(sp.resolution, ResolutionMin, ResolutionMax),
        fatigue := Clamp(sp.fatigue, SignalMin, SignalMax))
  }

  /** The event's effect followed by clamping: the signals the first
      classification sees. */
  function Absorb(sp: Sphere, e: Event): (c: Sphere)
    requires SignalsInRange(sp)
    ensures SignalsInRange(c)
    ensures SameConfig(c, sp) && c.state == sp.state
  {
    ClampSignals(Effect(sp, e))
  }

  /** The strength the transition policy regulates with on reaching `st`. */
  function PolicyStrength(st: SphereState): int {
    match st
    case Stable => 0
    case Float => FloatStrength
    case Freeze => FreezeStrength
    case Dissolve => DissolveStrength
  }

  /** The transition policy applied to clamped signals `c` classified as `st`:
      nothing on Stable, regulation on Float and Freeze, and on Dissolve
      regulation followed by a rebuild at resolution 8 with every other
      signal halved. */
  function Respond(c: Sphere, st: SphereState): (r: Sphere)
    requires SignalsInRange(c)
    ensures SignalsInRange(r)
    ensures SameConfig(r, c) && r.state == c.state
    ensures st == Stable ==> r == c
    ensures st == Float || st == Freeze ==> r == Regulate(c, PolicyStrength(st))
    ensures st == Dissolve ==> var v := Regulate(c, DissolveStrength);
      && r.resolution == RebuildResolution
      && 2 * r.meaning <= v.meaning <= 2 * r.meaning + 1
      && 2 * r.contradiction <= v.contradiction <= 2 * r.contradiction + 1
      && 2 * r.pressure <= v.pressure <= 2 * r.pressure + 1
      && 2 * r.fatigue <= v.fatigue <= 2 * r.fatigue + 1
  {
    match st
    case Stable => c
    case Float => Regulate(c, FloatStrength)
    case Freeze => Regulate(c, FreezeStrength)
    case Dissolve =>
      var v := Regulate(c, DissolveStrength);
      v.(resolution := RebuildResolution,
         meaning := Quot(v.meaning, 2),
         contradiction := Quot(v.contradiction, 2),
         pressure := Quot(v.pressure, 2),
         fatigue := Quot(v.fatigue, 2))
  }

  /** `ingest_event`. The result is in range, keeps its name and thresholds,
      and its stored state is the classification of its own signals. */
  function Ingest(sp: Sphere, e: Event): (r: Sphere)
    requires SignalsInRange(sp)
    ensures SignalsInRange(r)
    ensures SameConfig(r, sp)
    ensures r.state == Detect(r)
  {
    var c := Absorb(sp, e);
    var regulated := Respond(c, Detect(c));
    regulated.(state := Detect(regulated))
  }

  /** What the first classification decides, read off `Ingest`: a Stable
      sphere keeps its clamped signals, a Float or Freeze one is regulated
      with the policy strength, and a Dissolve one is rebuilt exactly. */
  lemma IngestBranches(sp: Sphere, e: Event)
    requires SignalsInRange(sp)
    ensures var c := Absorb(sp, e); var r := Ingest(sp, e);
      && (Detect(c) == Stable ==> r == c.(state := Stable))
      && (Detect(c) == Float || Detect(c) == Freeze ==>
            r == Regulate(c, PolicyStrength(Detect(c))).(state := r.state))
      && (Detect(c) == Dissolve ==>
            var v := Regulate(c, DissolveStrength);
            && r.resolution == RebuildResolution
            && r.meaning == v.meaning / 2
            && r.contradiction == v.contradiction / 2
            && r.pressure == v.pressure / 2
            && r.fatigue == v.fatigue / 2)
  {
    var c := Absorb(sp, e);
    var st := Detect(c);
    var v := Regulate(c, DissolveStrength);
    var r := Respond(c, st);
    if st == Dissolve {
      assert 2 * r.meaning <= v.meaning <= 2 * r.meaning + 1;
      assert 2 * r.contradiction <= v.contradiction <= 2 * r.contradiction + 1;
      assert 2 * r.pressure <= v.pressure <= 2 * r.pressure + 1;
      assert 2 * r.fatigue <= v.fatigue <= 2 * r.fatigue + 1;
    }
  }

  /** The signals each event kind moves before clamping. */
  function Touches(k: EventKind): set<Signal> {
    match k
    case Info => {PressureSignal, FatigueSignal, ResolutionSignal}
    case Contradiction => {ContradictionSignal, PressureSignal, FatigueSignal}
    case MeaningOver => {MeaningSignal, PressureSignal, FatigueSignal}
    case Threat => {PressureSignal, MeaningSignal, FatigueSignal}
    case Rest => {PressureSignal, ContradictionSignal, MeaningSignal, ResolutionSignal, FatigueSignal}
  }

  /** An event leaves every signal outside its kind's list untouched. */
  lemma AbsorbFrame(sp: Sphere, e: Event, s: Signal)
    requires SignalsInRange(sp)
    requires s !in Touches(e.kind)
    ensures Get(Absorb(sp, e), s) == Get(sp, s)
  {
  }

  /** The per-kind increments for a non-negative intensity, written with
      Dafny's division (which agrees with C's on non-negative operands). */
  function Increment(e: Event, s: Signal): int
    requires 0 <= e.intensity
  {
    var i := e.intensity;
    match e.kind
    case Info =>
      (match s
       case PressureSignal => i / 10
       case FatigueSignal => i / 15
       case ResolutionSignal => if i > InfoResolutionThreshold then 1 else 0
       case _ => 0)
    case Contradiction =>
      (match s
       case ContradictionSignal => i / 3
       case PressureSignal => i / 6
       case FatigueSignal => i / 8
       case _ => 0)
    case MeaningOver =>
      (match s
       case MeaningSignal => i / 2
       case PressureSignal => i / 5
       case FatigueSignal => i / 7
       case _ => 0)
    case Threat =>
      (match s
       case PressureSignal => i / 2
       case MeaningSignal => i / 6
       case FatigueSignal => i / 3
       case _ => 0)
    case Rest => 0
  }

  function Upper(s: Signal): int {
    if s == ResolutionSignal then ResolutionMax else SignalMax
  }

  /** For a non-negative intensity, a non-Rest event raises each signal by
      its table increment, saturating at the signal's upper bound. */
  lemma AbsorbIncrements(sp: Sphere, e: Event, s: Signal)
    requires SignalsInRange(sp)
    requires 0 <= e.intensity && e.kind != Rest
    ensures Get(Absorb(sp, e), s) == Min(Upper(s), Get(sp, s) + Increment(e, s))
    ensures Get(sp, s) <= Get(Absorb(sp, e), s)
  {
  }

  /** An Info event raises the resolution by one exactly when its intensity
      is above 300, and not past 100. */
  lemma InfoResolutionStep(sp: Sphere, intensity: Int32)
    requires SignalsInRange(sp)
    ensures Absorb(sp, Event(Info, intensity)).resolution ==
      if intensity > InfoResolutionThreshold then Min(sp.resolution + 1, ResolutionMax) else sp.resolution
  {
  }

  /** A Rest event's effect is exactly one call of the regulation routine. */
  lemma AbsorbRest(sp: Sphere, intensity: Int32)
    requires SignalsInRange(sp)
    ensures Absorb(sp, Event(Rest, intensity)) == Regulate(sp, intensity)
  {
  }

  /** A Rest event of intensity 0 changes no signal before classification. */
  lemma RestZeroIsQuiet(sp: Sphere)
    requires SignalsInRange(sp)
    ensures Absorb(sp, Event(Rest, 0)) == sp
  {
  }

  /** On a sphere whose signals classify as Stable, Rest(0) changes nothing
      but the stored state, and a second Rest(0) changes nothing at all. */
  lemma RestZeroOnStable(sp: Sphere)
    requires SignalsInRange(sp) && Detect(sp) == Stable
    ensures Ingest(sp, Event(Rest, 0)) == sp.(state := Stable)
    ensures Ingest(Ingest(sp, Event(Rest, 0)), Event(Rest, 0)) == sp.(state := Stable)
  {
    var once := sp.(state := Stable);
    RestZeroIsQuiet(sp);
    IngestBranches(sp, Event(Rest, 0));
    assert Ingest(sp, Event(Rest, 0)) == once;
    assert Detect(once) == Stable;
    RestZeroIsQuiet(once);
    IngestBranches(once, Event(Rest, 0));
  }

  /** The driver loop: feed `events` to `sp` one after another. The run of
      a non-empty script is the run of all but its last event, followed by
      the last event. */
  function Run(sp: Sphere, events: seq<Event>): (r: Sphere)
    requires SignalsInRange(sp)
    ensures SignalsInRange(r)
    ensures SameConfig(r, sp)
    ensures |events| > 0 ==> r.state == Detect(r)
    decreases |events|
  {
    if |events| == 0 then sp
    else Ingest(Run(sp, events[..|events| - 1]), events[|events| - 1])
  }

  /** Running two scripts back to back is running their concatenation. */
  lemma {:induction false} RunAppend(sp: Sphere, first: seq<Event>, second: seq<Event>)
    requires SignalsInRange(sp)
    ensures Run(sp, first + second) == Run(Run(sp, first), second)
    decreases |second|
  {
    if |second| == 0 {
      assert first + second == first;
    } else {
      var n := |second| - 1;
      assert (first + second)[..|first + second| - 1] == first + second[..n];
      assert (first + second)[|first + second| - 1] == second[n];
      RunAppend(sp, first, second[..n]);
    }
  }

  /** One more event extends the run by one `Ingest`. */
  lemma RunStep(start: Sphere, events: seq<Event>, i: nat)
    requires SignalsInRange(start) && i < |events|
    ensures Run(start, events[..i + 1]) == Ingest(Run(start, events[..i]), events[i])
  {
    assert events[..i + 1][..i] == events[..i];
  }

  /** A script of `n` Rest events of intensity 0. */
  function Rests(n: nat): (s: seq<Event>)
    ensures |s| == n
    ensures forall k :: 0 <= k < n ==> s[k] == Event(Rest, 0)
  {
    seq(n, _ => Event(Rest, 0))
  }

  /** Any number of Rest(0) events leave a sphere that classifies as Stable
      exactly as it was, apart from recording Stable as its state. */
  lemma {:induction false} RepeatedRestZeroOnStable(sp: Sphere, n: nat)
    requires SignalsInRange(sp) && Detect(sp) == Stable && n > 0
    ensures Run(sp, Rests(n)) == sp.(state := Stable)
  {
    RestZeroOnStable(sp);
    if n == 1 {
      assert Rests(n)[..0] == [];
    } else {
      assert Rests(n)[..n - 1] == Rests(n - 1);
      RepeatedRestZeroOnStable(sp, n - 1);
    }
  }

  /** `RunStep` with the intermediate spheres named, so that a concrete
      trajectory can be chained one known step at a time. */
  lemma RunExtend(start: Sphere, events: seq<Event>, i: nat, before: Sphere, e: Event, after: Sphere)
    requires SignalsInRange(start) && i < |events|
    requires Run(start, events[..i]) == before
    requires events[i] == e && Ingest(before, e) == after
    ensures Run(start, events[..i + 1]) == after
  {
    RunStep(start, events, i);
  }

  /** The loop of the reference driver, keeping every snapshot it
      would print: `trace[k]` is the sphere after the first `k + 1` events. */
  method Simulate(start: Sphere, events: seq<Event>) returns (trace: seq<Sphere>)
    requires SignalsInRange(start)
    ensures |trace| == |events|
    ensures forall k :: 0 <= k < |trace| ==> trace[k] == Run(start, events[..k + 1])
  {
    var sp := start;
    trace := [];
    for i := 0 to |events|
      invariant |trace| == i
      invariant SignalsInRange(sp)
      invariant sp == Run(start, events[..i])
      invariant forall k :: 0 <= k < i ==> trace[k] == Run(start, events[..k + 1])
    {
      RunStep(start, events, i);
      var before := trace;
      sp := Ingest(sp, events[i]);
      trace := trace + [sp];
      forall k | 0 <= k < i + 1
        ensures trace[k] == Run(start, events[..k + 1])
      {
        if k < i {
          assert trace[k] == before[k];
        }
      }
    }
  }
}
