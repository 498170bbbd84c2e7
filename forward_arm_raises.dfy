/** Forward arm raises: the shoulder angle between hip and elbow. Arms down, below 30 degrees, arm the rep ("down"); raising them above 45 completes it ("up"). */
module ForwardArmRaises {
  import opened Wrappers
  import opened Scorer
  import opened ExerciseBase
  import opened AngleExercises

  /** The rep thresholds: a gap between them, so a frame never both arms and counts a rep. */
  function Rule(): (r: AngleRule)
    ensures Separated(r) && r.armed != r.done
    ensures r.armed == Down && r.done == Up
  {
    AngleRule(false, 30.0, 45.0, Down, Up, "Raise arms forward")
  }

  /** The scoring configuration: target ROM 60 degrees, 4 s per rep, acceptable sway 0.015;
      the other factors keep their defaults. */
  function Config(): (c: ExerciseConfig)
    ensures WeightsSumToOne(c) && WeightsNonNegative(c)
    ensures c.idealRepTime == 4.0 && c.targetRom == 60.0
  {
    DefaultConfig.(targetRom := 60.0, idealRepTime := 4.0, acceptableSway := 0.015,
                   weightRom := 0.45, weightStability := 0.25, weightTempo := 0.3)
  }

  method NewForwardArmRaises() returns (e: AngleExercise)
    ensures fresh(e) && fresh(e.base)
    ensures e.rule == Rule() && e.base.config == Config()
    ensures e.Valid() && e.base.Initial()
  {
    e := new AngleExercise(Rule(), Config());
  }

  /** A full rep counts once; returning between the thresholds and coming back does not count
      again; a second full rep does. */
  lemma RepCountExamples()
    ensures Run(Rule(), None, [20.0, 60.0]) == (Some(Up), 1)
    ensures Run(Rule(), None, [20.0, 60.0, 40.0, 60.0]).1 == 1
    ensures Run(Rule(), None, [20.0, 60.0, 20.0, 60.0]).1 == 2
  {
    var a, b, x := 20.0, 60.0, 40.0;
    assert [a, b, x, b][..3] == [a, b, x] && [a, b, x][..2] == [a, b] && [a, b][..1] == [a] && [a][..0] == [];
    assert [a, b, a, b][..3] == [a, b, a] && [a, b, a][..2] == [a, b];
  }

  /** A rep at the target range, without sway, at the ideal 4 s pace scores 100. */
  lemma IdealRepScoresFull()
    ensures RepScorer(Config()).ScoreRep(60.0, 0.0, 4.0, None, None).finalScore == 100.0
  {
    var s := RepScorer(Config()).ScoreRep(60.0, 0.0, 4.0, None, None);
    assert s.romScore == 100.0 && s.stabilityScore == 100.0 && s.tempoScore == 100.0;
  }
}
