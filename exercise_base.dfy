/** State and rep bookkeeping shared by every exercise: counter, stage, the cue shown to the
    user, the ROM and tempo trackers, and the scores of the latest rep. */
module ExerciseBase {
  import opened Wrappers
  import opened Scorer
  import opened FeatureEngine

  /** The stage labels the exercise state machines use. */
  datatype Stage = Up | Down | Seated | Standing | LeftLifted | RightLifted

  /** The feedback text: nothing yet, a fixed prompt, or "Rep done! Score: <final score>". */
  datatype Cue = Silent | Say(text: string) | RepDone(score: real)

  /** The rep time an end of rep measures from a pending start (0 without one). */
  function RepTimeFrom(start: Option<real>, now: real): (t: real)
    ensures start.None? ==> t == 0.0
    ensures start.Some? ==> start.value + t == now
  {
    if start.None? then 0.0 else now - start.value
  }

  class Exercise {
    var counter: nat
    var stage: Option<Stage>
    var feedback: Cue
    /** The exercise's scoring configuration, which its scorer uses. */
    const config: ExerciseConfig
    const romTracker: ROMTracker
    const tempoTracker: TempoTracker
    var lastRepScores: Option<RepScores>
    /** Set on the frame a rep completes, cleared on the next frame. */
    var repCompleted: bool

    ghost predicate Valid()
      reads this, romTracker
    {
      romTracker.Valid()
    }

    /** A fresh exercise in its initial state. */
    predicate Initial()
      reads this, romTracker, tempoTracker
    {
      counter == 0 && stage.None? && feedback == Silent && lastRepScores.None? && !repCompleted
      && romTracker.repRoms == [] && tempoTracker.repStartTime.None? && tempoTracker.repTimes == []
    }

    constructor (config: ExerciseConfig)
      ensures Valid() && Initial() && romTracker.angles == []
      ensures this.config == config
      ensures fresh(romTracker) && fresh(tempoTracker)
    {
      counter, stage, feedback := 0, None, Silent;
      this.config := config;
      romTracker := new ROMTracker();
      tempoTracker := new TempoTracker();
      lastRepScores, repCompleted := None, false;
    }

    method Reset()
      modifies this, romTracker, tempoTracker
      ensures Valid() && Initial() && romTracker.angles == []
    {
      counter, stage, feedback := 0, None, Silent;
      lastRepScores, repCompleted := None, false;
      romTracker.Reset();
      tempoTracker.Reset();
    }

    /** Starts the rep timer unless a start is already pending. */
    method OnRepStart(now: real)
      modifies tempoTracker
      ensures tempoTracker.repStartTime == if old(tempoTracker.repStartTime).None? then Some(now)
                                             else old(tempoTracker.repStartTime)
      ensures tempoTracker.repTimes == old(tempoTracker.repTimes)
    {
      if tempoTracker.repStartTime.None? {
        tempoTracker.StartRep(now);
      }
    }

    /** Ends a rep: its ROM and rep time are taken from the trackers and scored with `sway`
        and no left/right angles. */
    method OnRepComplete(sway: real, now: real)
      requires Valid()
      modifies this, romTracker, tempoTracker
      ensures Valid() && romTracker.angles == []
      ensures romTracker.repRoms == old(romTracker.repRoms) + [RangeOf(old(romTracker.angles))]
      ensures tempoTracker.repStartTime == if old(tempoTracker.repStartTime).Some? then Some(now) else None
      ensures tempoTracker.repTimes ==
                old(tempoTracker.repTimes) + if old(tempoTracker.repStartTime).Some?
                                             then [RepTimeFrom(old(tempoTracker.repStartTime), now)] else []
      ensures lastRepScores == Some(RepScorer(config).ScoreRep(RangeOf(old(romTracker.angles)), sway,
                                                               RepTimeFrom(old(tempoTracker.repStartTime), now),
                                                               None, None))
      ensures repCompleted
      ensures sway == 0.0 ==> lastRepScores.value.stabilityScore == 100.0
      ensures counter == old(counter) && stage == old(stage) && feedback == old(feedback)
    {
      var rom := romTracker.CompleteRep();
      var repTime := tempoTracker.CompleteRep(now);
      lastRepScores := Some(RepScorer(config).ScoreRep(rom, sway, repTime, None, None));
      repCompleted := true;
    }
  }
}
