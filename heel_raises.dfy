/** Heel raises: the vertical distance from the left ankle down to the left toe. A flat foot, below 0.02, is "down"; a raised heel, above 0.05, after a down frame is "up" and counts. */
module HeelRaises {
  import opened Wrappers
  import opened Geometry
  import opened ExerciseBase
  import opened DistanceExercises

  function Rule(): (r: DistanceRule)
    ensures r.low < r.high && r.armed != r.done
    ensures r.armed == Down && r.done == Up
  {
    DistanceRule(LeftFootIndex, LeftAnkle, 0.02, 0.05, Down, Up, "Raise heels slowly", "Slowly lower down")
  }

  method NewHeelRaises() returns (e: DistanceExercise)
    ensures fresh(e) && fresh(e.base)
    ensures e.rule == Rule() && e.base.Initial()
  {
    e := new DistanceExercise(Rule());
  }

  /** One arming frame and one counting frame give a rep; staying up does not recount; the
      dead band between the thresholds neither arms nor counts. */
  lemma RepCountExamples()
    ensures Run(Rule(), None, [0.01, 0.08]) == (Some(Up), 1)
    ensures Run(Rule(), None, [0.01, 0.08, 0.08, 0.03, 0.08]).1 == 1
    ensures Run(Rule(), None, [0.03, 0.08]).1 == 0
  {
    var x, y, z := 0.01, 0.08, 0.03;
    assert [x, y, y, z, y][..4] == [x, y, y, z] && [x, y, y, z][..3] == [x, y, y]
        && [x, y, y][..2] == [x, y] && [x, y][..1] == [x] && [x][..0] == [];
    assert [z, y][..1] == [z] && [z][..0] == [];
  }
}
