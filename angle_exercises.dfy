/** The two-threshold state machine shared by the joint-angle exercises (squats, hip
    abduction, arm raises, wall push-ups, leg raises): an angle past the start threshold arms
    the rep, an angle past the completion threshold while armed counts it. */
module AngleExercises {
  import opened Wrappers
  import opened Scorer
  import opened FeatureEngine
  import opened ExerciseBase

  /** `startAbove`: the rep starts when the angle rises above `startAt` and completes when it
      falls below `completeAt`; otherwise both comparisons are reversed. */
  datatype AngleRule = AngleRule(startAbove: bool, startAt: real, completeAt: real,
                                 armed: Stage, done: Stage, prompt: string)

  predicate Starts(rule: AngleRule, angle: real) {
    if rule.startAbove then angle > rule.startAt else angle < rule.startAt
  }

  predicate Finishes(rule: AngleRule, angle: real) {
    if rule.startAbove then angle < rule.completeAt else angle > rule.completeAt
  }

  /** The stage after the start check of a frame. */
  function AfterStart(rule: AngleRule, stage: Option<Stage>, angle: real): (s: Option<Stage>)
    ensures Starts(rule, angle) ==> s == Some(rule.armed)
    ensures !Starts(rule, angle) ==> s == stage
  {
    if Starts(rule, angle) then Some(rule.armed) else stage
  }

  /** Whether this frame completes a rep: past the completion threshold while armed, where the
      start check of the same frame may have armed it. */
  predicate Completes(rule: AngleRule, stage: Option<Stage>, angle: real) {
    Finishes(rule, angle) && AfterStart(rule, stage, angle) == Some(rule.armed)
  }

  function NextStage(rule: AngleRule, stage: Option<Stage>, angle: real): (s: Option<Stage>)
    ensures Completes(rule, stage, angle) ==> s == Some(rule.done)
    ensures !Completes(rule, stage, angle) ==> s == AfterStart(rule, stage, angle)
  {
    if Completes(rule, stage, angle) then Some(rule.done) else AfterStart(rule, stage, angle)
  }

  /** The pending rep start after the start check: set to `now` only if none is pending. */
  function PendingStart(rule: AngleRule, start: Option<real>, angle: real, now: real): (p: Option<real>)
    ensures start.Some? ==> p == start
    ensures start.None? ==> (p.Some? <==> Starts(rule, angle))
  {
    if Starts(rule, angle) && start.None? then Some(now) else start
  }

  /** The thresholds leave a gap, so no angle both starts and completes a rep. */
  predicate Separated(rule: AngleRule) {
    if rule.startAbove then rule.completeAt <= rule.startAt else rule.startAt <= rule.completeAt
  }

  class AngleExercise {
    const rule: AngleRule
    const base: Exercise

    /** Every counted rep has recorded one ROM and one rep time, and an armed rep always has
        a pending start. */
    ghost predicate Valid()
      reads this, base, base.romTracker, base.tempoTracker
    {
      base.Valid()
      && |base.romTracker.repRoms| == base.counter
      && |base.tempoTracker.repTimes| == base.counter
      && (base.stage == Some(rule.armed) ==> base.tempoTracker.repStartTime.Some?)
    }

    constructor (rule: AngleRule, config: ExerciseConfig)
      ensures Valid() && base.Initial() && base.romTracker.angles == []
      ensures this.rule == rule && base.config == config
      ensures fresh(base) && fresh(base.romTracker) && fresh(base.tempoTracker)
    {
      this.rule := rule;
      base := new Exercise(config);
    }

    method Reset()
      modifies base, base.romTracker, base.tempoTracker
      ensures Valid() && base.Initial() && base.romTracker.angles == []
    {
      base.Reset();
    }

    /** One frame with joint angle `angle` read at time `now`. */
    method Process(angle: real, now: real) returns (counter: nat, stage: Option<Stage>, feedback: Cue)
      requires Valid()
      modifies base, base.romTracker, base.tempoTracker
      ensures Valid()
      ensures counter == base.counter && stage == base.stage && feedback == base.feedback
      ensures base.stage == NextStage(rule, old(base.stage), angle)
      ensures base.counter == old(base.counter) + if Completes(rule, old(base.stage), angle) then 1 else 0
      ensures base.repCompleted == Completes(rule, old(base.stage), angle)
      ensures var pending := PendingStart(rule, old(base.tempoTracker.repStartTime), angle, now);
              if Completes(rule, old(base.stage), angle) then
                var rom := RangeOf(old(base.romTracker.angles) + [angle]);
                && pending.Some?
                && base.romTracker.angles == []
                && base.romTracker.repRoms == old(base.romTracker.repRoms) + [rom]
                && base.tempoTracker.repStartTime == Some(now)
                && base.tempoTracker.repTimes == old(base.tempoTracker.repTimes) + [now - pending.value]
                && base.lastRepScores == Some(RepScorer(base.config).ScoreRep(rom, 0.0, now - pending.value, None, None))
                && base.feedback == RepDone(base.lastRepScores.value.finalScore)
              else
                && base.romTracker.angles == old(base.romTracker.angles) + [angle]
                && base.romTracker.repRoms == old(base.romTracker.repRoms)
                && base.tempoTracker.repStartTime == pending
                && base.tempoTracker.repTimes == old(base.tempoTracker.repTimes)
                && base.lastRepScores == old(base.lastRepScores)
                && base.feedback == if Starts(rule, angle) then Say(rule.prompt) else old(base.feedback)
    {
      base.romTracker.Update(angle);
      base.repCompleted := false;
      if Starts(rule, angle) {
        base.OnRepStart(now);
        base.stage := Some(rule.armed);
        base.feedback := Say(rule.prompt);
      }
      if Finishes(rule, angle) && base.stage == Some(rule.armed) {
        base.stage := Some(rule.done);
        base.counter := base.counter + 1;
        base.OnRepComplete(0.0, now);
        base.feedback := RepDone(base.lastRepScores.value.finalScore);
      }
      counter, stage, feedback := base.counter, base.stage, base.feedback;
    }
  }

  // ---------------------------------------------------------------------------------------
  // Runs of frames

  /** Stage and rep count after feeding `angles` to the state machine from `stage`. */
  function Run(rule: AngleRule, stage: Option<Stage>, angles: seq<real>): (Option<Stage>, nat) {
    if angles == [] then (stage, 0)
    else
      var (s, reps) := Run(rule, stage, angles[..|angles| - 1]);
      var angle := angles[|angles| - 1];
      (NextStage(rule, s, angle), reps + if Completes(rule, s, angle) then 1 else 0)
  }

  function StartFrames(rule: AngleRule, angles: seq<real>): nat {
    if angles == [] then 0
    else StartFrames(rule, angles[..|angles| - 1]) + if Starts(rule, angles[|angles| - 1]) then 1 else 0
  }

  function Armed(rule: AngleRule, stage: Option<Stage>): nat {
    if stage == Some(rule.armed) then 1 else 0
  }

  /** No double counting: every counted rep used up a start frame (or the armed stage the run
      began in), however long the angle lingers past the completion threshold. */
  lemma {:induction false} RepsBoundedByStarts(rule: AngleRule, stage: Option<Stage>, angles: seq<real>)
    requires rule.armed != rule.done
    ensures Run(rule, stage, angles).1 + Armed(rule, Run(rule, stage, angles).0)
            <= StartFrames(rule, angles) + Armed(rule, stage)
  {
    if angles != [] {
      RepsBoundedByStarts(rule, stage, angles[..|angles| - 1]);
    }
  }

  /** With separated thresholds a frame does at most one thing: a start frame never completes
      a rep, and a completing frame found the rep already armed. */
  lemma SeparatedFrames(rule: AngleRule, stage: Option<Stage>, angle: real)
    requires Separated(rule)
    ensures Starts(rule, angle) ==> !Finishes(rule, angle)
    ensures Completes(rule, stage, angle) ==> stage == Some(rule.armed) && !Starts(rule, angle)
  {
  }

  /** Runs compose: feeding `a` then `b` is feeding `b` from the stage `a` ends in. */
  lemma {:induction false} RunAppend(rule: AngleRule, stage: Option<Stage>, a: seq<real>, b: seq<real>)
    ensures Run(rule, stage, a + b).0 == Run(rule, Run(rule, stage, a).0, b).0
    ensures Run(rule, stage, a + b).1 == Run(rule, stage, a).1 + Run(rule, Run(rule, stage, a).0, b).1
  {
    if b == [] {
      assert a + b == a;
    } else {
      var init := b[..|b| - 1];
      assert (a + b)[..|a + b| - 1] == a + init;
      RunAppend(rule, stage, a, init);
    }
  }
}
