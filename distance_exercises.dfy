/** The two-threshold state machine over a vertical landmark distance (sit-to-stand, heel
    raises): a distance below `low` arms the rep; otherwise a distance above `high` while armed
    counts it. These exercises do not feed the ROM or tempo trackers and do not score reps. */
module DistanceExercises {
  import opened Wrappers
  import opened Geometry
  import opened ExerciseBase
  import Scorer

  /** The distance is `landmarks[lowerPoint].y - landmarks[upperPoint].y` (image y grows
      downwards). */
  datatype DistanceRule = DistanceRule(lowerPoint: nat, upperPoint: nat, low: real, high: real,
                                       armed: Stage, done: Stage, prompt: string, praise: string)

  predicate Covers(rule: DistanceRule, landmarks: seq<Landmark>) {
    rule.lowerPoint < |landmarks| && rule.upperPoint < |landmarks|
  }

  function Distance(rule: DistanceRule, landmarks: seq<Landmark>): real
    requires Covers(rule, landmarks)
  {
    landmarks[rule.lowerPoint].y - landmarks[rule.upperPoint].y
  }

  predicate Arms(rule: DistanceRule, d: real) {
    d < rule.low
  }

  /** Counting is the `elif` branch: it is only considered when the frame does not arm. */
  predicate Counts(rule: DistanceRule, stage: Option<Stage>, d: real) {
    !Arms(rule, d) && d > rule.high && stage == Some(rule.armed)
  }

  function NextStage(rule: DistanceRule, stage: Option<Stage>, d: real): (s: Option<Stage>)
    ensures Arms(rule, d) ==> s == Some(rule.armed)
    ensures Counts(rule, stage, d) ==> s == Some(rule.done)
    ensures !Arms(rule, d) && !Counts(rule, stage, d) ==> s == stage
  {
    if Arms(rule, d) then Some(rule.armed) else if Counts(rule, stage, d) then Some(rule.done) else stage
  }

  class DistanceExercise {
    const rule: DistanceRule
    const base: Exercise

    constructor (rule: DistanceRule)
      ensures this.rule == rule && base.config == Scorer.DefaultConfig
      ensures base.Valid() && base.Initial()
      ensures fresh(base) && fresh(base.romTracker) && fresh(base.tempoTracker)
    {
      this.rule := rule;
      base := new Exercise(Scorer.DefaultConfig);
    }

    method Reset()
      modifies base, base.romTracker, base.tempoTracker
      ensures base.Valid() && base.Initial()
    {
      base.Reset();
    }

    /** One frame. Only stage, counter and feedback can change. */
    method Process(landmarks: seq<Landmark>) returns (counter: nat, stage: Option<Stage>, feedback: Cue)
      requires Covers(rule, landmarks)
      modifies base
      ensures counter == base.counter && stage == base.stage && feedback == base.feedback
      ensures var d := Distance(rule, landmarks);
              && base.stage == NextStage(rule, old(base.stage), d)
              && base.counter == old(base.counter) + (if Counts(rule, old(base.stage), d) then 1 else 0)
              && base.feedback == (if Arms(rule, d) then Say(rule.prompt)
                                   else if Counts(rule, old(base.stage), d) then Say(rule.praise)
                                   else old(base.feedback))
      ensures base.lastRepScores == old(base.lastRepScores) && base.repCompleted == old(base.repCompleted)
    {
      var d := landmarks[rule.lowerPoint].y - landmarks[rule.upperPoint].y;
      if d < rule.low {
        base.stage := Some(rule.armed);
        base.feedback := Say(rule.prompt);
      } else if d > rule.high && base.stage == Some(rule.armed) {
        base.stage := Some(rule.done);
        base.counter := base.counter + 1;
        base.feedback := Say(rule.praise);
      }
      counter, stage, feedback := base.counter, base.stage, base.feedback;
    }
  }

  // ---------------------------------------------------------------------------------------
  // Runs of frames

  /** Stage and rep count after feeding the distances `ds` from `stage`. */
  function Run(rule: DistanceRule, stage: Option<Stage>, ds: seq<real>): (Option<Stage>, nat) {
    if ds == [] then (stage, 0)
    else
      var (s, reps) := Run(rule, stage, ds[..|ds| - 1]);
      var d := ds[|ds| - 1];
      (NextStage(rule, s, d), reps + if Counts(rule, s, d) then 1 else 0)
  }

  function ArmFrames(rule: DistanceRule, ds: seq<real>): nat {
    if ds == [] then 0
    else ArmFrames(rule, ds[..|ds| - 1]) + if Arms(rule, ds[|ds| - 1]) then 1 else 0
  }

  function Armed(rule: DistanceRule, stage: Option<Stage>): nat {
    if stage == Some(rule.armed) then 1 else 0
  }

  /** A distance between the two thresholds changes nothing. */
  lemma DeadBandIsIdle(rule: DistanceRule, stage: Option<Stage>, d: real)
    requires rule.low <= d <= rule.high
    ensures NextStage(rule, stage, d) == stage && !Counts(rule, stage, d)
  {
  }

  /** No double counting: every counted rep used up an arming frame (or the armed stage the
      run began in), so repeated frames past `high` count once. */
  lemma {:induction false} RepsBoundedByArms(rule: DistanceRule, stage: Option<Stage>, ds: seq<real>)
    requires rule.armed != rule.done
    ensures Run(rule, stage, ds).1 + Armed(rule, Run(rule, stage, ds).0) <= ArmFrames(rule, ds) + Armed(rule, stage)
  {
    if ds != [] {
      RepsBoundedByArms(rule, stage, ds[..|ds| - 1]);
    }
  }

  lemma {:induction false} ArmFramesWitness(rule: DistanceRule, ds: seq<real>)
    requires ArmFrames(rule, ds) > 0
    ensures exists i :: 0 <= i < |ds| && Arms(rule, ds[i])
  {
    var init := ds[..|ds| - 1];
    if !Arms(rule, ds[|ds| - 1]) {
      ArmFramesWitness(rule, init);
      var i :| 0 <= i < |init| && Arms(rule, init[i]);
      assert ds[i] == init[i];
    }
  }

  /** From a fresh state, no rep counts before some frame has armed one. */
  lemma FirstCountNeedsArming(rule: DistanceRule, ds: seq<real>)
    requires rule.armed != rule.done
    requires Run(rule, None, ds).1 > 0
    ensures exists i :: 0 <= i < |ds| && Arms(rule, ds[i])
  {
    RepsBoundedByArms(rule, None, ds);
    ArmFramesWitness(rule, ds);
  }
}
