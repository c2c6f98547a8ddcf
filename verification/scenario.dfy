/**
 The reference driver of Boundary-of-Spheres.c as a fixture: its starting
 sphere, its ten-event Script and the trajectory the model computes for it,
 plus two hand-made spheres that exercise the Dissolve rebuild and the
 automatic regulation after a Rest of intensity 0.
 */
module Scenario {
  import opened SphereTypes
  import opened Classification
  import opened Ingestion

  /** The sphere `main` starts from. */
  const Initial: Sphere := Sphere("GU_BOUNDARY_CORE", 120, 40, 80, 18, 50, Stable, 900, 1400, 2100)

  /** The ten events `main` feeds in order. */
  const Script: seq<Event> := [
    Event(Info, 300),
    Event(MeaningOver, 600),
    Event(Contradiction, 700),
    Event(Threat, 500),
    Event(Info, 400),
    Event(Contradiction, 900),
    Event(Rest, 600),
    Event(MeaningOver, 800),
    Event(Info, 200),
    Event(Rest, 300)
  ]

  /** `Initial` with the given signals and stored state. */
  function Snapshot(pressure: int, contradiction: int, meaning: int, resolution: int, fatigue: int, state: SphereState): Sphere {
    Initial.(pressure := pressure, contradiction := contradiction, meaning := meaning,
             resolution := resolution, fatigue := fatigue, state := state)
  }

  /** Each event of the Script, applied to the snapshot the model computes
      for `main`'s loop before it, gives the snapshot after it. */
  lemma Step0()
    ensures Ingest(Initial, Event(Info, 300)) == Snapshot(150, 40, 80, 18, 70, Stable)
  {
  }

  lemma Step1()
    ensures Ingest(Snapshot(150, 40, 80, 18, 70, Stable), Event(MeaningOver, 600)) == Snapshot(270, 40, 380, 18, 155, Stable)
  {
  }

  lemma Step2()
    ensures Ingest(Snapshot(270, 40, 380, 18, 155, Stable), Event(Contradiction, 700)) == Snapshot(386, 273, 380, 18, 242, Stable)
  {
  }

  lemma Step3()
    ensures Ingest(Snapshot(386, 273, 380, 18, 242, Stable), Event(Threat, 500)) == Snapshot(596, 273, 463, 15, 360, Float)
  {
  }

  lemma Step4()
    ensures Ingest(Snapshot(596, 273, 463, 15, 360, Float), Event(Info, 400)) == Snapshot(596, 273, 463, 13, 338, Float)
  {
  }

  lemma Step5()
    ensures Ingest(Snapshot(596, 273, 463, 13, 338, Float), Event(Contradiction, 900)) == Snapshot(706, 573, 463, 10, 402, Float)
  {
  }

  lemma Step6()
    ensures Ingest(Snapshot(706, 573, 463, 10, 402, Float), Event(Rest, 600)) == Snapshot(606, 573, 463, 3, 282, Stable)
  {
  }

  lemma Step7()
    ensures Ingest(Snapshot(606, 573, 463, 3, 282, Stable), Event(MeaningOver, 800)) == Snapshot(726, 573, 863, 1, 348, Float)
  {
  }

  lemma Step8()
    ensures Ingest(Snapshot(726, 573, 863, 1, 348, Float), Event(Info, 200)) == Snapshot(706, 573, 863, 1, 313, Float)
  {
  }

  lemma Step9()
    ensures Ingest(Snapshot(706, 573, 863, 1, 313, Float), Event(Rest, 300)) == Snapshot(616, 573, 863, 1, 205, Stable)
  {
  }

  /** The run of the first `n` events of the Script, one lemma per `n`:
      the snapshots the model computes for `main`'s loop. */
  lemma Prefix1()
    ensures Run(Initial, Script[..1]) == Snapshot(150, 40, 80, 18, 70, Stable)
  {
    assert Script[..0] == [];
    Step0();
    RunExtend(Initial, Script, 0, Initial, Event(Info, 300), Snapshot(150, 40, 80, 18, 70, Stable));
  }

  lemma Prefix2()
    ensures Run(Initial, Script[..2]) == Snapshot(270, 40, 380, 18, 155, Stable)
  {
    Prefix1();
    Step1();
    RunExtend(Initial, Script, 1, Snapshot(150, 40, 80, 18, 70, Stable), Event(MeaningOver, 600), Snapshot(270, 40, 380, 18, 155, Stable));
  }

  lemma Prefix3()
    ensures Run(Initial, Script[..3]) == Snapshot(386, 273, 380, 18, 242, Stable)
  {
    Prefix2();
    Step2();
    RunExtend(Initial, Script, 2, Snapshot(270, 40, 380, 18, 155, Stable), Event(Contradiction, 700), Snapshot(386, 273, 380, 18, 242, Stable));
  }

  lemma Prefix4()
    ensures Run(Initial, Script[..4]) == Snapshot(596, 273, 463, 15, 360, Float)
  {
    Prefix3();
    Step3();
    RunExtend(Initial, Script, 3, Snapshot(386, 273, 380, 18, 242, Stable), Event(Threat, 500), Snapshot(596, 273, 463, 15, 360, Float));
  }

  lemma Prefix5()
    ensures Run(Initial, Script[..5]) == Snapshot(596, 273, 463, 13, 338, Float)
  {
    Prefix4();
    Step4();
    RunExtend(Initial, Script, 4, Snapshot(596, 273, 463, 15, 360, Float), Event(Info, 400), Snapshot(596, 273, 463, 13, 338, Float));
  }

  lemma Prefix6()
    ensures Run(Initial, Script[..6]) == Snapshot(706, 573, 463, 10, 402, Float)
  {
    Prefix5();
    Step5();
    RunExtend(Initial, Script, 5, Snapshot(596, 273, 463, 13, 338, Float), Event(Contradiction, 900), Snapshot(706, 573, 463, 10, 402, Float));
  }

  lemma Prefix7()
    ensures Run(Initial, Script[..7]) == Snapshot(606, 573, 463, 3, 282, Stable)
  {
    Prefix6();
    Step6();
    RunExtend(Initial, Script, 6, Snapshot(706, 573, 463, 10, 402, Float), Event(Rest, 600), Snapshot(606, 573, 463, 3, 282, Stable));
  }

  lemma Prefix8()
    ensures Run(Initial, Script[..8]) == Snapshot(726, 573, 863, 1, 348, Float)
  {
    Prefix7();
    Step7();
    RunExtend(Initial, Script, 7, Snapshot(606, 573, 463, 3, 282, Stable), Event(MeaningOver, 800), Snapshot(726, 573, 863, 1, 348, Float));
  }

  lemma Prefix9()
    ensures Run(Initial, Script[..9]) == Snapshot(706, 573, 863, 1, 313, Float)
  {
    Prefix8();
    Step8();
    RunExtend(Initial, Script, 8, Snapshot(726, 573, 863, 1, 348, Float), Event(Info, 200), Snapshot(706, 573, 863, 1, 313, Float));
  }

  lemma Prefix10()
    ensures Run(Initial, Script[..10]) == Snapshot(616, 573, 863, 1, 205, Stable)
  {
    Prefix9();
    Step9();
    RunExtend(Initial, Script, 9, Snapshot(706, 573, 863, 1, 313, Float), Event(Rest, 300), Snapshot(616, 573, 863, 1, 205, Stable));
  }

  /** The first four events leave the sphere floating, with more pressure
      and more contradiction than it started with. */
  lemma OpeningMoves()
    ensures var s := Run(Initial, Script[..4]);
      && s.state == Float
      && s.contradiction > Initial.contradiction
      && s.pressure > Initial.pressure
  {
    Prefix4();
  }

  /** The whole Script ends Stable, after two excursions into Float. */
  lemma WholeScript()
    ensures Run(Initial, Script) == Snapshot(616, 573, 863, 1, 205, Stable)
  {
    Prefix10();
    assert Script[..|Script|] == Script;
  }

  /** A heavily contradicted sphere first classifies as Dissolve, is rebuilt
      at resolution 8 with its signals halved, and comes out Stable. */
  lemma DissolveThenStable()
    ensures var sp := Initial.(contradiction := 2000);
      && Detect(Absorb(sp, Event(Contradiction, 900))) == Dissolve
      && Ingest(sp, Event(Contradiction, 900)) == Snapshot(68, 1150, 40, 8, 1, Stable)
  {
  }

  /** Rest of intensity 0 moves no signal before classification, but a
      sphere that still classifies as Float is then regulated anyway. */
  lemma RestZeroOnFloat()
    ensures var sp := Snapshot(596, 273, 463, 15, 360, Float);
      && Absorb(sp, Event(Rest, 0)) == sp
      && Ingest(sp, Event(Rest, 0)) == Snapshot(556, 273, 463, 12, 312, Stable)
  {
  }
}
