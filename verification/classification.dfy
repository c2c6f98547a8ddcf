/**
 Boundary detection (`detect_state` in Boundary-of-Spheres.c): a pure,
 priority-ordered classification of the current signals.
 */
module Classification {
  import opened CArith
  import opened SphereTypes

  /** `chaos`: contradiction plus pressure. */
  function Chaos(sp: Sphere): int {
    sp.contradiction + sp.pressure
  }

  /** `fixation`: meaning plus ten times the resolution. */
  function Fixation(sp: Sphere): int {
    sp.meaning + sp.resolution * 10
  }

  /** `overload`: pressure plus fatigue. */
  function Overload(sp: Sphere): int {
    sp.pressure + sp.fatigue
  }

  /** The condition under which `st` is an admissible label for `sp`,
      taken on its own, ignoring the other states. Stable always is. */
  predicate Holds(sp: Sphere, st: SphereState) {
    match st
    case Dissolve => Chaos(sp) >= sp.thDissolve
    case Freeze => Fixation(sp) >= sp.thFreeze && sp.pressure >= Quot(sp.thFreeze, 2)
    case Float => Overload(sp) >= sp.thFloat && sp.meaning >= Quot(sp.thFloat, 3)
    case Stable => true
  }

  /** Position of a state in the order the rules are tried: lower wins. */
  function Rank(st: SphereState): nat {
    match st
    case Dissolve => 0
    case Freeze => 1
    case Float => 2
    case Stable => 3
  }

  /** `detect_state`: the first state, in rank order, whose condition holds. */
  function Detect(sp: Sphere): (st: SphereState)
    ensures Holds(sp, st)
    ensures forall other :: Rank(other) < Rank(st) ==> !Holds(sp, other)
  {
    var overload := Overload(sp);
    var fixation := Fixation(sp);
    var chaos := Chaos(sp);
    if chaos >= sp.thDissolve then Dissolve
    else if fixation >= sp.thFreeze && sp.pressure >= Quot(sp.thFreeze, 2) then Freeze
    else if overload >= sp.thFloat && sp.meaning >= Quot(sp.thFloat, 3) then Float
    else Stable
  }

  /** The first-match contract pins the classification down: any label that
      holds and beats every other holding label is the one `Detect` returns. */
  lemma DetectUnique(sp: Sphere, st: SphereState)
    requires Holds(sp, st)
    requires forall other :: Rank(other) < Rank(st) ==> !Holds(sp, other)
    ensures Detect(sp) == st
  {
  }

  /** The four rules read one by one, each with the failures of the rules
      tried before it. */
  lemma DetectRules(sp: Sphere)
    ensures Detect(sp) == Dissolve <==> Chaos(sp) >= sp.thDissolve
    ensures Detect(sp) == Freeze <==>
      && Chaos(sp) < sp.thDissolve
      && Fixation(sp) >= sp.thFreeze
      && sp.pressure >= Quot(sp.thFreeze, 2)
    ensures Detect(sp) == Float <==>
      && Chaos(sp) < sp.thDissolve
      && !(Fixation(sp) >= sp.thFreeze && sp.pressure >= Quot(sp.thFreeze, 2))
      && Overload(sp) >= sp.thFloat
      && sp.meaning >= Quot(sp.thFloat, 3)
    ensures Detect(sp) == Stable <==> !Holds(sp, Dissolve) && !Holds(sp, Freeze) && !Holds(sp, Float)
  {
    var d := Detect(sp);
    assert Rank(Dissolve) < Rank(Freeze) < Rank(Float) < Rank(Stable);
    assert Holds(sp, d);
  }

  /** The `check_dissolve` sketch in the file header: `w0 = 1` when
      pressure plus contradiction reaches the dissolve threshold, else `w0 = 0`. */
  function CheckDissolve(pressure: int, contradiction: int, thresholdDissolve: int): (w: int)
    ensures w == 0 || w == 1
    ensures w == 1 <==> pressure + contradiction >= thresholdDissolve
  {
    if pressure + contradiction >= thresholdDissolve then 1 else 0
  }

  /** `detect_state`'s first rule is the header sketch: the sphere classifies
      as Dissolve exactly when `check_dissolve` answers 1. */
  lemma DetectAgreesWithSketch(sp: Sphere)
    ensures Detect(sp) == Dissolve <==> CheckDissolve(sp.pressure, sp.contradiction, sp.thDissolve) == 1
  {
    DetectRules(sp);
  }
}
