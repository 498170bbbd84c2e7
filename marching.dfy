/** Marching in place: a knee raised to within 0.1 (image units) below its hip is a lift; a
    rep counts each time the lifted leg alternates. */
module Marching {
  import opened Wrappers
  import opened Geometry
  import opened ExerciseBase
  import Scorer

  datatype Leg = LeftLeg | RightLeg

  function Other(leg: Leg): Leg {
    match leg
    case LeftLeg => RightLeg
    case RightLeg => LeftLeg
  }

  const LiftMargin := 0.1

  /** The leg lifted in a frame; the left leg is tested first and the right only when the
      left is down. */
  function LiftedLeg(landmarks: seq<Landmark>): (l: Option<Leg>)
    requires |landmarks| > RightKnee
    ensures l == Some(LeftLeg) <==> landmarks[LeftKnee].y < landmarks[LeftHip].y + LiftMargin
    ensures l == Some(RightLeg) <==>
              !(landmarks[LeftKnee].y < landmarks[LeftHip].y + LiftMargin)
              && landmarks[RightKnee].y < landmarks[RightHip].y + LiftMargin
  {
    if landmarks[LeftKnee].y < landmarks[LeftHip].y + LiftMargin then Some(LeftLeg)
    else if landmarks[RightKnee].y < landmarks[RightHip].y + LiftMargin then Some(RightLeg)
    else None
  }

  /** Whether a lift counts: only a lift of the leg opposite to the last one lifted. */
  predicate Alternates(last: Option<Leg>, lifted: Option<Leg>) {
    lifted.Some? && last == Some(Other(lifted.value))
  }

  /** The last lifted leg after a frame. */
  function NextLast(last: Option<Leg>, lifted: Option<Leg>): (n: Option<Leg>)
    ensures lifted.Some? ==> n == lifted
    ensures lifted.None? ==> n == last
  {
    if lifted.Some? then lifted else last
  }

  function LiftStage(leg: Leg): Stage {
    match leg
    case LeftLeg => LeftLifted
    case RightLeg => RightLifted
  }

  /** "Now lift right" after a left lift, "Now lift left" after a right one. */
  function LiftPrompt(leg: Leg): string {
    match leg
    case LeftLeg => "Now lift right"
    case RightLeg => "Now lift left"
  }

  class MarchingExercise {
    const base: Exercise
    var lastLegLifted: Option<Leg>

    constructor ()
      ensures base.Valid() && base.Initial() && base.config == Scorer.DefaultConfig && lastLegLifted.None?
      ensures fresh(base) && fresh(base.romTracker) && fresh(base.tempoTracker)
    {
      base := new Exercise(Scorer.DefaultConfig);
      lastLegLifted := None;
    }

    /** The inherited reset: it does not touch `lastLegLifted`. */
    method Reset()
      modifies base, base.romTracker, base.tempoTracker
      ensures base.Valid() && base.Initial()
    {
      base.Reset();
    }

    method Process(landmarks: seq<Landmark>) returns (counter: nat, stage: Option<Stage>, feedback: Cue)
      requires |landmarks| > RightKnee
      modifies this, base
      ensures counter == base.counter && stage == base.stage && feedback == base.feedback
      ensures var lifted := LiftedLeg(landmarks);
              && lastLegLifted == NextLast(old(lastLegLifted), lifted)
              && base.counter == old(base.counter) + (if Alternates(old(lastLegLifted), lifted) then 1 else 0)
              && (lifted.Some? && old(lastLegLifted) != lifted ==>
                    base.stage == Some(LiftStage(lifted.value)) && base.feedback == Say(LiftPrompt(lifted.value)))
              && (lifted.None? || old(lastLegLifted) == lifted ==>
                    base.stage == old(base.stage) && base.feedback == old(base.feedback))
      ensures base.lastRepScores == old(base.lastRepScores) && base.repCompleted == old(base.repCompleted)
    {
      var lHip, lKnee, rHip, rKnee := landmarks[LeftHip], landmarks[LeftKnee], landmarks[RightHip], landmarks[RightKnee];
      if lKnee.y < lHip.y + 0.1 {
        if lastLegLifted != Some(LeftLeg) {
          base.stage := Some(LeftLifted);
          base.feedback := Say("Now lift right");
          if lastLegLifted == Some(RightLeg) {
            base.counter := base.counter + 1;
          }
          lastLegLifted := Some(LeftLeg);
        }
      } else if rKnee.y < rHip.y + 0.1 {
        if lastLegLifted != Some(RightLeg) {
          base.stage := Some(RightLifted);
          base.feedback := Say("Now lift left");
          if lastLegLifted == Some(LeftLeg) {
            base.counter := base.counter + 1;
          }
          lastLegLifted := Some(RightLeg);
        }
      }
      counter, stage, feedback := base.counter, base.stage, base.feedback;
    }
  }

  // ---------------------------------------------------------------------------------------
  // Runs of frames

  /** Last lifted leg and rep count after a run of per-frame lift outcomes. */
  function Run(last: Option<Leg>, lifts: seq<Option<Leg>>): (Option<Leg>, nat) {
    if lifts == [] then (last, 0)
    else
      var (l, reps) := Run(last, lifts[..|lifts| - 1]);
      var lifted := lifts[|lifts| - 1];
      (NextLast(l, lifted), reps + if Alternates(l, lifted) then 1 else 0)
  }

  /** The leg of the `n`-th lift (from 1) when lifts alternate starting with `first`. */
  function LegAt(first: Leg, n: nat): Leg {
    if n <= 1 then first else Other(LegAt(first, n - 1))
  }

  /** One more frame after a run. */
  lemma RunSnoc(last: Option<Leg>, lifts: seq<Option<Leg>>, lifted: Option<Leg>)
    ensures Run(last, lifts + [lifted])
            == (NextLast(Run(last, lifts).0, lifted),
                Run(last, lifts).1 + if Alternates(Run(last, lifts).0, lifted) then 1 else 0)
  {
    assert (lifts + [lifted])[..|lifts|] == lifts;
  }

  /** `n` lifts alternating between the legs, starting with `first`. */
  function Alternating(first: Leg, n: nat): (s: seq<Option<Leg>>)
    ensures |s| == n
  {
    if n == 0 then [] else Alternating(first, n - 1) + [Some(LegAt(first, n))]
  }

  /** From a fresh state, `n` alternating lifts count `n - 1` reps: the first lift never
      counts, every later one does. */
  lemma {:induction false} AlternatingLiftsCount(first: Leg, n: nat)
    requires n >= 1
    ensures Run(None, Alternating(first, n)) == (Some(LegAt(first, n)), n - 1)
  {
    var cur := LegAt(first, n);
    RunSnoc(None, Alternating(first, n - 1), Some(cur));
    if n > 1 {
      AlternatingLiftsCount(first, n - 1);
      var prev := LegAt(first, n - 1);
      assert Other(cur) == prev by { match prev case LeftLeg => case RightLeg => }
    }
  }

  /** Holding the same leg up, or no leg, never counts and keeps the last leg. */
  lemma {:induction false} SameLegNeverCounts(leg: Leg, lifts: seq<Option<Leg>>)
    requires forall i :: 0 <= i < |lifts| ==> lifts[i] == Some(leg) || lifts[i].None?
    ensures Run(Some(leg), lifts) == (Some(leg), 0)
  {
    if lifts != [] {
      SameLegNeverCounts(leg, lifts[..|lifts| - 1]);
    }
  }

  /** The counter rises by at most one per frame. */
  lemma {:induction false} AtMostOnePerFrame(last: Option<Leg>, lifts: seq<Option<Leg>>)
    ensures Run(last, lifts).1 <= |lifts|
    ensures lifts != [] && last.None? ==> Run(last, lifts).1 < |lifts|
  {
    if lifts != [] {
      var init := lifts[..|lifts| - 1];
      AtMostOnePerFrame(last, init);
      if last.None? && init != [] {
        assert Run(last, init).1 < |init|;
      }
    }
  }
}
