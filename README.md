# Rehab coaching pipeline — a verified Dafny model

This project models the core of a webcam-based rehabilitation coach. Each video frame gives
pose landmarks. These are filtered for visibility, normalized to a hip-centred, torso-scaled
frame and smoothed. An exercise state machine turns a joint angle or a vertical landmark
distance into rep counts. Each completed rep is scored:

- ROM: the range of motion against a target;
- stability: sway against an acceptable sway;
- tempo: rep time against an ideal time;
- left/right asymmetry.

The score components are combined into a weighted final score. Reps are logged in a session
with averages, a summary and an export record. A rule engine produces per-frame form cues.
After a session, a text classifier comments on the averages. A cross-session controller steps
the difficulty up or down with hysteresis.

Modules, one per source file, plus three shared ones:

- Shared:
  - `Wrappers` holds `Option` and dictionary `get`.
  - `Stats` holds sum, mean and variance.
  - `Geometry` holds points, landmarks and landmark indices.
- `Scorer` (`pipeline/scorer.py`) is pure functions.
- `FeatureEngine` (`pipeline/feature_engine.py`): the ROM, velocity, sway and tempo trackers,
  as classes.
- `Sessions` (`pipeline/session.py`): a `Session` class, plus pure averages, summary and export.
- `Progression` (`pipeline/progression.py`): a `ProgressionState` class.
- `Feedback` (`pipeline/feedback.py`): rule datatypes, a stable priority insertion sort, and
  the `FeedbackEngine` class.
- `LandmarkProcessor` (`pipeline/landmark_processor.py`): loop methods proved against
  per-landmark functions.
- `Smoother` (`pipeline/smoother.py`): a class that rewrites a landmark `array` in place.
- `ExerciseBase` (`exercises/base.py`): the shared exercise state. Subclassing becomes
  composition: each exercise class holds a `base: Exercise`.
- `AngleExercises` is the generic two-threshold angle machine. The modules `Squats`,
  `HipAbduction`, `ForwardArmRaises`, `SideArmRaises`, `WallPushups` and `LegRaises` give its
  thresholds and each exercise's scoring configuration.
- `DistanceExercises` is the generic y-distance machine, with the modules `SitToStand` and
  `HeelRaises`.
- `Marching` and `HipExtension` have their own state machines.
- `Analytics` is `generate_feedback_text`.

How outside effects are modelled:

- The wall clock is an explicit `now` parameter. This also removes the two clock reads in
  `TempoTracker.complete_rep`.
- Square roots are function parameters: `std` for `np.std` and `norm` for `np.linalg.norm`.
  Properties of the standard deviation are stated through `Stats.Variance`.
- Joint angles and the torso lean angle are inputs, or a parameter `lean`.
- Reals are mathematical reals.

Behaviour of the source that the model keeps:

- The angle exercises call `_on_rep_complete()` without a sway, so their stability score is
  always 100.
- Hip extension counts a rep on every frame below 165 degrees, because its arming check runs
  first in the same frame.
- Marching's inherited `reset` keeps `last_leg_lifted`.

## Model

| member | source | states |
|---|---|---|
| Scorer.Clamp | pipeline/scorer.py:108-110 | result in [lo, hi] when lo <= hi; an in-range value is returned unchanged; below lo gives lo, above hi gives hi; with lo > hi gives lo (max is applied last) |
| Scorer.RomScore | pipeline/scorer.py:113-134 | in [0, 100]; 100 for a non-positive target; 100 at or above target; 0 for a non-positive ROM; otherwise exactly rom/target*100 |
| Scorer.StabilityScore | pipeline/scorer.py:137-162 | in [0, 100]; 100 when acceptable sway <= 0 (no penalty) and 100 when sway is 0; with a positive acceptable sway, a penalty sway * factor between 0 and 100 * acceptable sway takes exactly (sway / acceptable sway) * factor points off 100, a larger one scores 0 and a non-positive one 100 |
| Scorer.TempoScore | pipeline/scorer.py:165-201 | in [0, 100]; 100 at the ideal rep time |
| Scorer.AsymmetryScore | pipeline/scorer.py:204-225 | in [0, 100]; 100 for equal left and right angles; a penalty abs(left - right) * factor between 0 and 100 is taken off 100 exactly, a penalty of 100 or more scores 0 |
| Scorer.FinalScore | pipeline/scorer.py:228-260 | always in [0, 100] whatever the weights |
| Scorer.RepScorer.ScoreRep | pipeline/scorer.py:279-331 | all five scores in [0, 100]; each component is its compute function on the config; asymmetry is 100 unless both side angles are given; final = final score of the three components |
| Scorer.StabilityAtAcceptableSway | pipeline/scorer.py:155-162 | a sway equal to the acceptable sway scores 100 - stability factor, as the doc comment promises |
| Scorer.RomScoreExamples | pipeline/scorer.py:113-134 | 45 of 90 scores 50; 120 of 90 scores 100 |
| Scorer.RomScoreMonotone | pipeline/scorer.py:132-134 | a larger ROM never scores lower, for any target |
| Scorer.StabilityScoreMonotone | pipeline/scorer.py:158-162 | more sway never scores higher (non-negative factor) |
| Scorer.TempoScoreExamples | pipeline/scorer.py:186-201 | ideal 4, factor 20: 4 s gives 100, 1 s gives 0, 6 s gives 80, 8 s gives 60 |
| Scorer.TempoPenaltyRates | pipeline/scorer.py:194-201 | d seconds too fast cost 2*factor*d, d seconds too slow cost 0.5*factor*d (before clamping), and too fast never scores above equally too slow |
| Scorer.AsymmetryScoreSymmetric | pipeline/scorer.py:224-225 | swapping left and right gives the same score |
| Scorer.FinalScoreIsWeightedMean | pipeline/scorer.py:255-260 | with non-negative weights summing to 1 and components in [0, 100], the clamp never acts: final = the weighted sum |
| Scorer.FinalScoreIgnoresAsymmetry | pipeline/scorer.py:317-323 | the final score does not depend on the side angles |
| Stats.SumBounds | pipeline/feature_engine.py:93 | elements in [lo, hi] give a sum in [n*lo, n*hi] |
| Stats.MeanBounds | pipeline/session.py:62-65 | the mean of a non-empty sequence lies between any bounds of its elements |
| Stats.VarianceNonNegative | pipeline/analytics.py:79 | the population variance is never negative |
| Stats.ConstantHasZeroVariance | pipeline/feature_engine.py:159-160 | a constant sequence has mean c and variance 0 |
| FeatureEngine.SteadyHipHasNoSway | pipeline/feature_engine.py:159-162 | for a window whose samples are all equal and a `std` that is the non-negative root of the population variance, std is 0 and so is the sway `Update` reports for that window |
| Stats.RootComparisons | pipeline/analytics.py:80-83 | for a non-negative root r of v: r < k iff v < k*k and r > k iff v > k*k |
| FeatureEngine.SeqMax | pipeline/feature_engine.py:75 | the maximum bounds every angle and is one of them |
| FeatureEngine.SeqMin | pipeline/feature_engine.py:76 | the minimum bounds every angle and is one of them |
| FeatureEngine.ROMTracker.constructor | pipeline/feature_engine.py:63-66 | extremes at -inf/+inf, no angles, no ROMs |
| FeatureEngine.ROMTracker.Reset | pipeline/feature_engine.py:68-71 | clears the extremes and the ROM history |
| FeatureEngine.ROMTracker.Update | pipeline/feature_engine.py:73-76 | the extremes stay the max and min of every angle since the last rep or reset; history unchanged |
| FeatureEngine.ROMTracker.CompleteRep | pipeline/feature_engine.py:78-87 | returns max - min of the rep's angles (0 with none), never negative; appends exactly that ROM; re-arms the extremes |
| FeatureEngine.ROMTracker.AverageRom | pipeline/feature_engine.py:89-93 | 0 with no reps, else sum/len, which lies between the smallest and the largest ROM |
| FeatureEngine.RangeOfBounds | pipeline/feature_engine.py:78-82 | a rep's ROM is >= 0, and 0 with one update or none |
| FeatureEngine.RangeOfExample | pipeline/feature_engine.py:78-82 | angles 30 and 80 give a ROM of 50 |
| FeatureEngine.RangeOfCoversAngles | pipeline/feature_engine.py:78-82 | the ROM is at least the difference of any two angles of the rep |
| FeatureEngine.VelocityTracker.constructor | pipeline/feature_engine.py:101-104 | no previous sample, velocity 0 |
| FeatureEngine.VelocityTracker.Reset | pipeline/feature_engine.py:106-109 | no previous sample, velocity 0 |
| FeatureEngine.VelocityTracker.Update | pipeline/feature_engine.py:111-134 | 0 without a previous sample or when dt <= 1e-6, else norm(delta)/dt, non-negative for a non-negative norm; the sample is always stored as the previous one |
| FeatureEngine.Slide | pipeline/feature_engine.py:145-157 | the window after an append: never longer than its capacity, oldest sample evicted, newest last, a suffix of window + [x] |
| FeatureEngine.SwayTracker.constructor | pipeline/feature_engine.py:143-146 | empty window of the given size, sway 0 |
| FeatureEngine.SwayTracker.Reset | pipeline/feature_engine.py:148-150 | empties the window, sway 0 |
| FeatureEngine.SwayTracker.Update | pipeline/feature_engine.py:152-164 | the window is the last window-size samples; sway is std of the window with at least 5 samples, else 0 |
| FeatureEngine.SlideKeepsLastN | pipeline/feature_engine.py:145-157 | sliding the last n samples by x gives the last n samples of the extended stream |
| FeatureEngine.TempoTracker.constructor | pipeline/feature_engine.py:172-174 | no pending start, no rep times |
| FeatureEngine.TempoTracker.Reset | pipeline/feature_engine.py:176-178 | no pending start, no rep times |
| FeatureEngine.TempoTracker.StartRep | pipeline/feature_engine.py:180-182 | overwrites the start with now unconditionally |
| FeatureEngine.TempoTracker.CompleteRep | pipeline/feature_engine.py:184-191 | without a start: 0, nothing recorded; otherwise now - start is returned and appended and the timer re-armed at now |
| FeatureEngine.TempoTracker.AverageTempo | pipeline/feature_engine.py:193-197 | 0 with no reps, else the mean, between the smallest and largest rep time |
| Sessions.Column | pipeline/session.py:65 | one value per rep, in order, that rep's field |
| Sessions.Distinct | pipeline/session.py:102 | no duplicates, exactly the same set of events, never longer |
| Sessions.ExportReps | pipeline/session.py:108-121 | one export record per rep, in order, with rep = rep number and the five scores, the ROM value, the rep time and the feedback list copied unchanged |
| Sessions.Session.constructor | pipeline/session.py:28-34 | named, started at now, not ended, no reps, no events |
| Sessions.Session.AddRep | pipeline/session.py:36-51 | appends exactly one record numbered previous count + 1, missing score keys read as 0, missing feedback as []; earlier records untouched; events extended only by non-empty feedback, duplicates kept; rep numbers stay 1..n |
| Sessions.Session.EndSession | pipeline/session.py:53-55 | records the end time, nothing else changes |
| Sessions.Session.TotalReps | pipeline/session.py:57-59 | the number of records |
| Sessions.Session.Summary | pipeline/session.py:91-103 | total reps = record count, the five averages, the distinct events without duplicates, and the duration: end time minus start time, or `now` minus start time when the session has no end time or an end time of 0.0 |
| Sessions.Session.Export | pipeline/session.py:105-121 | the summary plus the per-rep export records |
| Sessions.AverageInScoreRange | pipeline/session.py:61-89 | an average of in-range scores is in [0, 100], and 0 with no reps |
| Sessions.ExportAgreesWithSummary | pipeline/session.py:105-121 | in a session's export, the rep list is as long as the summary's rep count and its final scores average to the summary's average final score |
| Sessions.ThreeRepSession | pipeline/session.py:36-65 | three reps with final scores 70, 80, 90 give 3 reps and an average of 80 |
| Sessions.EmptySession | pipeline/session.py:61-102 | a session without reps summarizes to 0 reps, all averages 0, no events |
| Progression.TrailingGood | pipeline/progression.py:25-33 | the length of the longest suffix of scores all above 85: at most the history length, every score in it above 85, the one before it not |
| Progression.ProgressionState.constructor | pipeline/progression.py:14-18 | empty history, 10 target reps, both multipliers 1.0 |
| Progression.ProgressionState.RecordSession | pipeline/progression.py:20-22 | appends the score, nothing else changes |
| Progression.ProgressionState.ConsecutiveGoodSessions | pipeline/progression.py:25-33 | the backwards counting loop with break returns a count with the three properties of `TrailingGood` |
| Progression.ProgressionState.ComputeProgression | pipeline/progression.py:35-74 | history unchanged; the action decided on it; parameters stepped by that action (upgrade, regress) or unchanged (none, maintain); new parameters reported only for upgrade and regress |
| Progression.ProgressionState.Save | pipeline/progression.py:76-85 | the saved record restores the same history and parameters |
| Progression.ProgressionState.Load | pipeline/progression.py:87-96 | a missing file leaves the state unchanged; otherwise each key is read, missing ones take the constructor defaults |
| Progression.DecideCases | pipeline/progression.py:40-74 | none iff empty history; upgrade iff a streak of 3 or more; regress iff no such streak and latest below 60; maintain otherwise (upgrade is checked first) |
| Progression.RegressWhenLatestPoor | pipeline/progression.py:59-69 | a latest score below 60 always regresses |
| Progression.DecideExamples | pipeline/progression.py:46-69 | [90, 88, 95] upgrades; [40] regresses from 10 to 8 reps; [90, 88] maintains |
| Progression.StepsStayInBounds | pipeline/progression.py:46-69 | reps in [5, 30], ROM multiplier in [0.7, 1.5] and sway multiplier in [0.5, 2.0] stay there under every action |
| Progression.UpgradedTimesClamps | pipeline/progression.py:47-49 | n upgrades without a new session move each parameter n steps or to its bound |
| Progression.UpgradesReachCeiling | pipeline/progression.py:47-49 | from any in-bounds setting 16 upgrades reach (30, 1.5, 0.5), a fixed point of upgrading |
| Progression.SaveLoadRoundTrip | pipeline/progression.py:76-96 | loading a saved record gives back the saved history and parameters |
| Progression.EmptyFileLoadsDefaults | pipeline/progression.py:93-96 | a file without keys loads as the initial state |
| Feedback.NewRule | pipeline/feedback.py:11-22 | a rule without an explicit priority gets priority 5 and keeps its name, check and message |
| Feedback.KneeValgusCheck | pipeline/feedback.py:60-64 | fails (skipped) iff the frame lacks landmark 27; otherwise fires iff knee 25 is more than 0.02 left of ankle 27 |
| Feedback.ForwardLeanCheck | pipeline/feedback.py:67-77 | fails iff the frame lacks landmark 23; otherwise fires iff the lean angle of shoulder 11 over hip 23 exceeds 25 |
| Feedback.AsymmetryCheck | pipeline/feedback.py:80-83 | never fires without `asymmetry_value`; otherwise iff it exceeds 15 |
| Feedback.PoorDepthCheck | pipeline/feedback.py:86-90 | never fires without `current_rom`; with the default target 90, iff 0 < rom < 54; with a target given, iff 0 < rom < 0.6 * target |
| Feedback.TooFastCheck | pipeline/feedback.py:93-97 | never fires without `rep_time`; with the default ideal 3, iff 0 < rep time < 1.5; with an ideal given, iff 0 < rep time < 0.5 * ideal |
| Feedback.Holds | pipeline/feedback.py:50-54 | only the two landmark checks can fail |
| Feedback.Insert | pipeline/feedback.py:33-35 | inserting adds exactly the new rule (multiset) |
| Feedback.InsertSorted | pipeline/feedback.py:33-35 | inserting into a priority-sorted list keeps it sorted |
| Feedback.SortByPriority | pipeline/feedback.py:35 | result sorted by priority and a permutation of the input |
| Feedback.SortStable | pipeline/feedback.py:35 | for every priority, the rules of that priority keep their relative order (stable sort) |
| Feedback.SortedIsFixed | pipeline/feedback.py:35 | sorting an already sorted list changes nothing |
| Feedback.FeedbackEngine.constructor | pipeline/feedback.py:30-31 | no rules |
| Feedback.FeedbackEngine.AddRule | pipeline/feedback.py:33-35 | the rules become the stable sort of old rules + [rule]: sorted, and exactly the old rules plus the new one |
| Feedback.FeedbackEngine.Evaluate | pipeline/feedback.py:37-55 | the messages of the firing rules in rule order; a failing check is skipped and later rules still run; the rule list is not modified |
| Feedback.CreateDefaultFeedbackEngine | pipeline/feedback.py:101-115 | the engine holds the five common rules in the order knee_valgus, forward_lean, asymmetry, poor_depth, too_fast |
| Feedback.FiringAppend | pipeline/feedback.py:49-55 | evaluating a concatenation of rule lists concatenates the results |
| Feedback.FiringMembers | pipeline/feedback.py:49-55 | a rule is reported iff it is in the list and its check returns true |
| Feedback.FiringSorted | pipeline/feedback.py:45-55 | at most one message per rule, and the output keeps priority order |
| Feedback.InsertStable | pipeline/feedback.py:33-35 | insertion appends the new rule after existing rules of equal priority |
| Feedback.EvaluationSkipsFaultingRules | pipeline/feedback.py:49-107 | with no landmarks, asymmetry 20 and a 1 s rep, the default rules report exactly "Distribute weight evenly" then "Slow down for controlled tempo" |
| LandmarkProcessor.Filtered | pipeline/landmark_processor.py:37-43 | coordinates kept; the landmark's visibility is kept, a missing one read as 1.0; valid iff that input visibility (1.0 when missing) >= threshold |
| LandmarkProcessor.FilterVisibility | pipeline/landmark_processor.py:31-44 | same length and order, each landmark filtered as above (coordinates and visibility kept, valid iff its visibility, 1.0 when missing, >= threshold) |
| LandmarkProcessor.Midpoint | pipeline/landmark_processor.py:47-58 | the midpoint is equally far, in the same direction, from both points |
| LandmarkProcessor.HipCenter | pipeline/landmark_processor.py:45-49 | the hip centre lies halfway between left hip 23 and right hip 24 |
| LandmarkProcessor.MidShoulder | pipeline/landmark_processor.py:52-56 | the mid-shoulder point lies halfway between left shoulder 11 and right shoulder 12 |
| LandmarkProcessor.EffectiveTorso | pipeline/landmark_processor.py:66-67 | the divisor is >= 0.01 and equals the torso length when that is >= 0.01 |
| LandmarkProcessor.Normalized | pipeline/landmark_processor.py:70-83 | validity and visibility kept; an invalid landmark unchanged; a valid one maps back to its raw position by scaling with the torso and adding the hip centre |
| LandmarkProcessor.NormalizeLandmarks | pipeline/landmark_processor.py:61-84 | same length and order, each landmark normalized as above |
| LandmarkProcessor.ProcessLandmarks | pipeline/landmark_processor.py:87-107 | hip centre and torso length from the raw landmarks regardless of visibility; output as long as the input, each landmark filtered then normalized |
| LandmarkProcessor.HipCenterIsOrigin | pipeline/landmark_processor.py:71-78 | a valid landmark at the hip centre maps to the origin |
| LandmarkProcessor.NormalizationIsScaleInvariant | pipeline/landmark_processor.py:61-107 | translating the pose and scaling it by k > 0 leaves normalized coordinates unchanged while both torsos are above the floor |
| Smoother.Positions | pipeline/smoother.py:43 | one point per landmark, in order |
| Smoother.NextState | pipeline/smoother.py:45-48 | the first frame verbatim; later each point alpha*current + (1-alpha)*state |
| Smoother.EmaLandmarkSmoother.constructor | pipeline/smoother.py:23-26 | alpha and landmark count stored, no state |
| Smoother.EmaLandmarkSmoother.Reset | pipeline/smoother.py:28-30 | clears the state, so the next frame is passed through |
| Smoother.EmaLandmarkSmoother.Smooth | pipeline/smoother.py:32-56 | a frame of another size than the state changes nothing; otherwise the state becomes the next state and each landmark receives its coordinates, every other field kept |
| Smoother.EmaBetween | pipeline/smoother.py:15-19 | for 0 <= alpha <= 1 the smoothed value lies between the sample and the old state |
| Smoother.EmaEdgeCases | pipeline/smoother.py:47-48 | alpha 1 reproduces the sample, alpha 0 the old state, and a steady point is a fixed point |
| Smoother.SmoothRunLag | pipeline/smoother.py:47-48 | holding still for n frames leaves a lag of (1-alpha)^n times the initial offset |
| ExerciseBase.RepTimeFrom | exercises/base.py:59 | 0 without a pending start, else start + time = now |
| ExerciseBase.Exercise.constructor | exercises/base.py:26-42 | counter 0, no stage, empty cue, fresh trackers, no scores, the given config |
| ExerciseBase.Exercise.Reset | exercises/base.py:44-51 | counter 0, no stage, empty cue, no scores, flag cleared, both trackers cleared, config untouched |
| ExerciseBase.Exercise.OnRepStart | exercises/base.py:68-71 | starts the timer only when none is pending, so repeated calls keep the first start |
| ExerciseBase.Exercise.OnRepComplete | exercises/base.py:53-66 | completes the ROM and tempo trackers together, stores their rep scored with the config, sets the flag; sway 0 scores stability 100 |
| AngleExercises.AfterStart | exercises/squats.py:29-32 | a start frame arms the rep, any other leaves the stage |
| AngleExercises.NextStage | exercises/squats.py:29-37 | a completing frame ends in the done stage, any other in the stage after the start check |
| AngleExercises.PendingStart | exercises/base.py:68-71 | a pending start is kept; otherwise one exists iff the frame starts a rep |
| AngleExercises.AngleExercise.constructor | exercises/base.py:26-42 | a fresh base exercise over the given rule and config |
| AngleExercises.AngleExercise.Reset | exercises/base.py:44-51 | the base reset |
| AngleExercises.AngleExercise.Process | exercises/squats.py:23-37 | ROM tracker fed and the flag cleared first; stage per `NextStage`; counter +1 and flag set iff the frame completes a rep; a completed rep records its ROM and time, is scored with sway 0 and re-arms the timer at now; invariant: counter = recorded ROMs = recorded rep times |
| AngleExercises.RepsBoundedByStarts | exercises/squats.py:29-37 | over any run, reps never exceed start frames (plus one if it began armed): no double counting |
| AngleExercises.SeparatedFrames | exercises/hip_abduction.py:29-36 | with separated thresholds a frame never both starts and completes a rep |
| AngleExercises.RunAppend | exercises/squats.py:23-37 | frame runs compose |
| Squats.Rule | exercises/squats.py:29-37 | 160/140 thresholds are separated; "up" arms, "down" counts |
| Squats.Config | exercises/squats.py:10-18 | weights 0.4+0.35+0.25 sum to 1 and are non-negative; ideal 4 s, target 70 |
| Squats.RepCountExamples | exercises/squats.py:29-37 | a full rep counts once; lingering in the gap and dipping again does not recount; two full reps count two |
| Squats.IdealRepScoresFull | exercises/squats.py:10-18 | target ROM, no sway and 4 s give final score 100 |
| Squats.NewSquats | exercises/squats.py:7-18 | a fresh squat exercise in its initial state with the squat rule and config |
| HipAbduction.Rule | exercises/hip_abduction.py:29-37 | 170/165 thresholds are disjoint; "down" arms, "up" counts |
| HipAbduction.Config | exercises/hip_abduction.py:10-18 | weights 0.35+0.4+0.25 sum to 1; ideal 4 s, target 25 |
| HipAbduction.RepCountExamples | exercises/hip_abduction.py:29-37 | as for squats |
| HipAbduction.IdealRepScoresFull | exercises/hip_abduction.py:10-18 | target ROM, no sway and 4 s give 100 |
| HipAbduction.NewStandingHipAbduction | exercises/hip_abduction.py:7-18 | a fresh exercise in its initial state with the hip-abduction rule and config |
| ForwardArmRaises.Rule | exercises/forward_arm_raises.py:29-37 | below 30 arms ("down"), above 45 counts ("up"), separated |
| ForwardArmRaises.Config | exercises/forward_arm_raises.py:10-18 | weights 0.45+0.25+0.3 sum to 1; ideal 4 s, target 60 |
| ForwardArmRaises.RepCountExamples | exercises/forward_arm_raises.py:29-37 | as for squats |
| ForwardArmRaises.IdealRepScoresFull | exercises/forward_arm_raises.py:10-18 | target ROM, no sway and 4 s give 100 |
| ForwardArmRaises.NewForwardArmRaises | exercises/forward_arm_raises.py:7-18 | a fresh exercise in its initial state with the forward-raise rule and config |
| SideArmRaises.Rule | exercises/side_arm_raises.py:29-37 | below 35 arms ("down"), above 50 counts ("up"), separated |
| SideArmRaises.Config | exercises/side_arm_raises.py:10-18 | weights sum to 1; ideal 4 s, target 55 |
| SideArmRaises.RepCountExamples | exercises/side_arm_raises.py:29-37 | 34 then 51 degrees counts one rep, a return to 42 does not recount, a second full rep counts, and 35 degrees (not below the threshold) never arms |
| SideArmRaises.IdealRepScoresFull | exercises/side_arm_raises.py:10-18 | target ROM, no sway and 4 s give 100 |
| SideArmRaises.NewSideArmRaises | exercises/side_arm_raises.py:7-18 | a fresh exercise in its initial state with the side-raise rule and config |
| WallPushups.Rule | exercises/wall_pushups.py:29-37 | above 150 arms ("up"), below 130 counts ("down"), separated |
| WallPushups.Config | exercises/wall_pushups.py:10-18 | weights sum to 1; ideal 4 s, target 60 |
| WallPushups.RepCountExamples | exercises/wall_pushups.py:29-37 | as for squats |
| WallPushups.IdealRepScoresFull | exercises/wall_pushups.py:10-18 | target ROM, no sway and 4 s give 100 |
| WallPushups.NewWallPushups | exercises/wall_pushups.py:7-18 | a fresh exercise in its initial state with the wall-pushup rule and config |
| LegRaises.Rule | exercises/leg_raises.py:29-37 | above 160 arms ("down"), below 150 counts ("up"), separated |
| LegRaises.Config | exercises/leg_raises.py:10-18 | weights 0.45+0.3+0.25 sum to 1; ideal 4 s, target 50 |
| LegRaises.RepCountExamples | exercises/leg_raises.py:29-37 | as for squats |
| LegRaises.IdealRepScoresFull | exercises/leg_raises.py:10-18 | target ROM, no sway and 4 s give 100 |
| LegRaises.NewLegRaises | exercises/leg_raises.py:7-18 | a fresh exercise in its initial state with the leg-raise rule and config |
| DistanceExercises.NextStage | exercises/sit_to_stand.py:20-26 | an arming frame arms, a counting frame ends in the done stage, any other leaves the stage |
| DistanceExercises.DistanceExercise.constructor | exercises/base.py:26-42 | a fresh base exercise with the default config |
| DistanceExercises.DistanceExercise.Reset | exercises/base.py:44-51 | the base reset |
| DistanceExercises.DistanceExercise.Process | exercises/sit_to_stand.py:10-29 | stage per `NextStage`, counter +1 iff the frame counts, prompt or praise cue; scores and flag untouched |
| DistanceExercises.DeadBandIsIdle | exercises/sit_to_stand.py:20-26 | a distance between the thresholds changes nothing |
| DistanceExercises.RepsBoundedByArms | exercises/heel_raises.py:18-24 | reps never exceed arming frames (plus one if it began armed); repeated "up" frames do not recount |
| DistanceExercises.ArmFramesWitness | exercises/sit_to_stand.py:20-22 | a positive arming-frame count has an arming frame |
| DistanceExercises.FirstCountNeedsArming | exercises/sit_to_stand.py:20-26 | from a fresh state, a rep counts only after some arming frame |
| SitToStand.Rule | exercises/sit_to_stand.py:14-26 | knee.y - hip.y, seated below 0.1, standing above 0.3 |
| SitToStand.RepCountExamples | exercises/sit_to_stand.py:20-26 | seated then standing counts one; staying up and the dead band do not count |
| SitToStand.NewSitToStand | exercises/sit_to_stand.py:4-8 | a fresh exercise in its initial state with the sit-to-stand rule |
| HeelRaises.Rule | exercises/heel_raises.py:12-24 | toe.y - ankle.y, down below 0.02, up above 0.05 |
| HeelRaises.RepCountExamples | exercises/heel_raises.py:18-24 | down then up counts one; staying up and the dead band do not count |
| HeelRaises.NewHeelRaises | exercises/heel_raises.py:4-8 | a fresh exercise in its initial state with the heel-raise rule |
| Marching.LiftedLeg | exercises/marching.py:23-30 | left lifted iff its knee is within 0.1 below its hip; right only when the left is not |
| Marching.NextLast | exercises/marching.py:23-36 | after a lift the last leg is that leg; otherwise unchanged |
| Marching.MarchingExercise.constructor | exercises/marching.py:4-8 | fresh base, no leg lifted yet |
| Marching.MarchingExercise.Reset | exercises/base.py:44-51 | the base reset; the last lifted leg is not touched |
| Marching.MarchingExercise.Process | exercises/marching.py:10-40 | last leg per `NextLast`; counter +1 iff the lift alternates; a new lift sets stage and prompt, the same leg again or no lift changes neither |
| Marching.AlternatingLiftsCount | exercises/marching.py:23-36 | n lifts alternating between the legs, from a fresh state, count n - 1 reps and leave the n-th lifted leg as the last one: the first lift never counts, every later one does |
| Marching.SameLegNeverCounts | exercises/marching.py:24-31 | re-lifting the same leg (or no leg) never counts |
| Marching.AtMostOnePerFrame | exercises/marching.py:23-36 | at most one rep per frame, and fewer reps than frames from a fresh state |
| HipExtension.AfterFirst | exercises/hip_extension.py:18-20 | below 170 sets "down", otherwise the stage is kept |
| HipExtension.StandingHipExtension.constructor | exercises/base.py:26-42 | a fresh base exercise with the default config |
| HipExtension.StandingHipExtension.Reset | exercises/base.py:44-51 | the base reset |
| HipExtension.StandingHipExtension.Process | exercises/hip_extension.py:9-29 | the two sequential checks: stage, counter and cue as they leave them |
| HipExtension.FrameCases | exercises/hip_extension.py:18-27 | for angles in [0, 180]: below 165 always counts and ends "up"; 165 to 170 sets "down" without counting; 170 and above changes nothing |
| HipExtension.HoldingCountsEveryFrame | exercises/hip_extension.py:18-27 | holding below 165 for n frames counts n reps |
| Analytics.OverallBand | pipeline/analytics.py:49-56 | exactly one band: excellent iff >= 85, good iff in [70, 85), keep practicing iff in [50, 70), starting point iff < 50 |
| Analytics.DimensionLine | pipeline/analytics.py:59-74 | at most one line: the low one iff < 60, the high one iff >= 90, none in between |
| Analytics.ConsistencyLine | pipeline/analytics.py:77-83 | nothing with fewer than 3 reps; consistent iff std < 5; uneven iff std > 15 |
| Analytics.FeedbackText | pipeline/analytics.py:40-85 | 1 to 5 messages, the first being the band |
| Analytics.GenerateFeedbackText | pipeline/analytics.py:38-85 | for a session: 1 to 5 lines, the first the band text of the average final score |
| Analytics.LinesPresent | pipeline/analytics.py:59-74 | each dimension's low message appears iff its average < 60, its high message iff >= 90 |
| Analytics.ConsistencyByVariance | pipeline/analytics.py:77-83 | with a true standard deviation: consistent iff variance < 25, uneven iff variance > 225 |
| Analytics.EqualScoresAreConsistent | pipeline/analytics.py:77-81 | three or more equal final scores are reported as consistent |
| Analytics.NoRepsFeedback | pipeline/analytics.py:40-85 | a session without reps gets the starting-point band and the three low lines |

## Left out

- Python `round(x, 1)` on scores, summary averages and export fields, `round(rep_time, 2)` in the export (pipeline/session.py:117) and `round(..., 2)` on the reported progression multipliers (pipeline/progression.py:54-55, 67-68) are not modelled; all values are unrounded reals, so `GenerateFeedbackText` classifies the unrounded averages. Float arithmetic, infinities other than the ±inf ROM sentinels, and NaN are not modelled.
- `calculate_angle_2d`/`calculate_angle_3d` and the torso-angle computation of the forward-lean rule (atan2, arccos, degrees) are not modelled: angles are inputs, the lean is a parameter.
- `np.std` and `np.linalg.norm` are parameters; what is proved about them goes through the variance or assumes the parameter is a true root/norm.
- `time.time()` is not modelled: every clock read is an explicit `now`; `duration_seconds` in the summary uses it. The default `current_time=None` path of `VelocityTracker.update` is the same clock read.
- JSON text and file I/O in `Session.save`/`to_json` and `ProgressionState.save`/`load` are not modelled; only record shapes and default-filling are. A malformed progression file raises in the source, and the model has no such input.
- Progression.ProgressionResult: the human-readable `reason` string is left out.
- Feedback rules hold a closed set of five conditions instead of arbitrary callables; the context is a map of reals, so a context value of another type (which would make a check raise) is not modelled.
- Sessions.Session.Summary: `list(set(...))` has no defined order in Python; the model returns the events in first-occurrence order and states only the set and the absence of duplicates.
- The render data (`points`, `angle`) returned by every `process` and `relevant_landmarks` are display data and not modelled; `SitToStand.seated` is never read and not modelled.
- Smoother.EmaLandmarkSmoother.Smooth: when the frame size differs from the state, numpy either raises or broadcasts a one-row frame; the model treats every size mismatch as a failure that changes nothing. Smoothing of `ProcessedLandmark` objects, which the source also accepts, is not modelled separately.
- `exercises/hip_extension.py` imports `calculate_angle` from `exercises/base.py`, which does not define it, so the package does not import; the model takes the angle as input and models the state machine on its own.
- LandmarkProcessor.HipCenter and LandmarkProcessor.MidShoulder require the frame to contain the landmarks they read; a shorter frame raises `IndexError` in the source and is not modelled.
- Exercise `process` methods read fixed landmark indices; the angle exercises, hip extension and the Process methods of the other exercises require frames containing those indices instead of modelling the `IndexError`.
- Inheritance is modelled as composition: each exercise class holds its `base` exercise state.
