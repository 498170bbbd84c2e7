/** Standing hip extension: the hip angle between shoulder and ankle, with two sequential
    checks. Below 170 degrees sets "down"; above 190, or below 165 while "down", sets "up" and
    counts. Because the first check runs first, every frame below 165 counts a rep. */
module HipExtension {
  import opened Wrappers
  import opened ExerciseBase
  import Scorer

  /** The stage after the first check of a frame. */
  function AfterFirst(stage: Option<Stage>, angle: real): (s: Option<Stage>)
    ensures angle < 170.0 ==> s == Some(Down)
    ensures angle >= 170.0 ==> s == stage
  {
    if angle < 170.0 then Some(Down) else stage
  }

  /** Whether the second check fires, given the stage the first check left. */
  predicate Counts(stage: Option<Stage>, angle: real) {
    angle > 190.0 || (angle < 165.0 && AfterFirst(stage, angle) == Some(Down))
  }

  function NextStage(stage: Option<Stage>, angle: real): Option<Stage> {
    if Counts(stage, angle) then Some(Up) else AfterFirst(stage, angle)
  }

  class StandingHipExtension {
    const base: Exercise

    constructor ()
      ensures base.Valid() && base.Initial() && base.config == Scorer.DefaultConfig
      ensures fresh(base) && fresh(base.romTracker) && fresh(base.tempoTracker)
    {
      base := new Exercise(Scorer.DefaultConfig);
    }

    method Reset()
      modifies base, base.romTracker, base.tempoTracker
      ensures base.Valid() && base.Initial()
    {
      base.Reset();
    }

    /** One frame with hip angle `angle`. */
    method Process(angle: real) returns (counter: nat, stage: Option<Stage>, feedback: Cue)
      modifies base
      ensures counter == base.counter && stage == base.stage && feedback == base.feedback
      ensures base.stage == NextStage(old(base.stage), angle)
      ensures base.counter == old(base.counter) + if Counts(old(base.stage), angle) then 1 else 0
      ensures base.feedback == if Counts(old(base.stage), angle) then Say("Good backward extension!")
                               else if angle < 170.0 then Say("Kick leg backward")
                               else old(base.feedback)
      ensures base.lastRepScores == old(base.lastRepScores) && base.repCompleted == old(base.repCompleted)
    {
      if angle < 170.0 {
        base.stage := Some(Down);
        base.feedback := Say("Kick leg backward");
      }
      if angle > 190.0 || (angle < 165.0 && base.stage == Some(Down)) {
        base.stage := Some(Up);
        base.counter := base.counter + 1;
        base.feedback := Say("Good backward extension!");
      }
      counter, stage, feedback := base.counter, base.stage, base.feedback;
    }
  }

  /** Stage and rep count after a run of angles. */
  function Run(stage: Option<Stage>, angles: seq<real>): (Option<Stage>, nat) {
    if angles == [] then (stage, 0)
    else
      var (s, reps) := Run(stage, angles[..|angles| - 1]);
      var angle := angles[|angles| - 1];
      (NextStage(s, angle), reps + if Counts(s, angle) then 1 else 0)
  }

  /** The frame-level cases, for angles a 0-180 degree angle function can return. */
  lemma FrameCases(stage: Option<Stage>, angle: real)
    requires 0.0 <= angle <= 180.0
    ensures angle < 165.0 ==> Counts(stage, angle) && NextStage(stage, angle) == Some(Up)
    ensures 165.0 <= angle < 170.0 ==> !Counts(stage, angle) && NextStage(stage, angle) == Some(Down)
    ensures angle >= 170.0 ==> !Counts(stage, angle) && NextStage(stage, angle) == stage
  {
  }

  /** Holding the leg below 165 degrees counts a rep on every frame, whatever the stage. */
  lemma {:induction false} HoldingCountsEveryFrame(stage: Option<Stage>, angles: seq<real>)
    requires forall i :: 0 <= i < |angles| ==> 0.0 <= angles[i] < 165.0
    ensures Run(stage, angles).1 == |angles|
    ensures angles != [] ==> Run(stage, angles).0 == Some(Up)
  {
    if angles != [] {
      HoldingCountsEveryFrame(stage, angles[..|angles| - 1]);
    }
  }
}
