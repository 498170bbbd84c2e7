/** Sit-to-stand: the vertical distance from the left hip down to the left knee. Hips near knee level, below 0.1, is "seated"; hips well above the knees, above 0.3, after a seated frame is "standing" and counts. */
module SitToStand {
  import opened Wrappers
  import opened Geometry
  import opened ExerciseBase
  import opened DistanceExercises

  function Rule(): (r: DistanceRule)
    ensures r.low < r.high && r.armed != r.done
    ensures r.armed == Seated && r.done == Standing
  {
    DistanceRule(LeftKnee, LeftHip, 0.1, 0.3, Seated, Standing, "Stand up", "Good stand!")
  }

  method NewSitToStand() returns (e: DistanceExercise)
    ensures fresh(e) && fresh(e.base)
    ensures e.rule == Rule() && e.base.Initial()
  {
    e := new DistanceExercise(Rule());
  }

  /** One arming frame and one counting frame give a rep; staying up does not recount; the
      dead band between the thresholds neither arms nor counts. */
  lemma RepCountExamples()
    ensures Run(Rule(), None, [0.05, 0.4]) == (Some(Standing), 1)
    ensures Run(Rule(), None, [0.05, 0.4, 0.4, 0.2, 0.4]).1 == 1
    ensures Run(Rule(), None, [0.2, 0.4]).1 == 0
  {
    var x, y, z := 0.05, 0.4, 0.2;
    assert [x, y, y, z, y][..4] == [x, y, y, z] && [x, y, y, z][..3] == [x, y, y]
        && [x, y, y][..2] == [x, y] && [x, y][..1] == [x] && [x][..0] == [];
    assert [z, y][..1] == [z] && [z][..0] == [];
  }
}
