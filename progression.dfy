/** Cross-session difficulty controller with hysteresis: three or more trailing sessions above
    85 step the difficulty up, a latest session below 60 steps it down, anything else keeps it. */
module Progression {
  import opened Wrappers

  datatype Action = NoAction | Upgrade | Regress | Maintain

  /** The three tuned parameters: target reps, ROM multiplier and sway-tolerance multiplier. */
  datatype Difficulty = Difficulty(targetReps: int, romMultiplier: real, swayMultiplier: real)

  const InitialDifficulty := Difficulty(10, 1.0, 1.0)

  const GoodScore := 85.0
  const PoorScore := 60.0
  const UpgradeStreak := 3

  function MinInt(a: int, b: int): int { if a <= b then a else b }
  function MaxInt(a: int, b: int): int { if a >= b then a else b }
  function MinReal(a: real, b: real): real { if a <= b then a else b }
  function MaxReal(a: real, b: real): real { if a >= b then a else b }

  /** The upgrade step: two more reps (at most 30), ROM multiplier +0.05 (at most 1.5),
      sway tolerance -0.1 (at least 0.5). */
  function Upgraded(d: Difficulty): Difficulty {
    Difficulty(MinInt(d.targetReps + 2, 30), MinReal(d.romMultiplier + 0.05, 1.5),
               MaxReal(d.swayMultiplier - 0.1, 0.5))
  }

  /** The regress step: two fewer reps (at least 5), ROM multiplier -0.05 (at least 0.7),
      sway tolerance +0.1 (at most 2.0). */
  function Regressed(d: Difficulty): Difficulty {
    Difficulty(MaxInt(d.targetReps - 2, 5), MaxReal(d.romMultiplier - 0.05, 0.7),
               MinReal(d.swayMultiplier + 0.1, 2.0))
  }

  /** Length of the longest suffix of `scores` whose every score is above 85. */
  function TrailingGood(scores: seq<real>): (n: nat)
    ensures n <= |scores|
    ensures forall k :: |scores| - n <= k < |scores| ==> scores[k] > GoodScore
    ensures n < |scores| ==> scores[|scores| - 1 - n] <= GoodScore
  {
    if scores == [] then 0
    else if scores[|scores| - 1] > GoodScore then
      var rest := scores[..|scores| - 1];
      assert forall k :: 0 <= k < |rest| ==> rest[k] == scores[k];
      TrailingGood(rest) + 1
    else 0
  }

  /** The decision `compute_progression` takes on a score history; upgrade is checked first. */
  function Decide(scores: seq<real>): Action {
    if scores == [] then NoAction
    else if TrailingGood(scores) >= UpgradeStreak then Upgrade
    else if scores[|scores| - 1] < PoorScore then Regress
    else Maintain
  }

  function Apply(action: Action, d: Difficulty): Difficulty {
    match action
    case Upgrade => Upgraded(d)
    case Regress => Regressed(d)
    case _ => d
  }

  /** The dictionary `compute_progression` returns, without its human-readable reason; the
      new parameters are present for upgrade and regress only. */
  datatype ProgressionResult = ProgressionResult(action: Action, newDifficulty: Option<Difficulty>)

  /** The persisted progression file; a missing key is `None`. */
  datatype StoredProgression = StoredProgression(
    sessionScores: Option<seq<real>>,
    targetReps: Option<int>,
    targetRomMultiplier: Option<real>,
    swayToleranceMultiplier: Option<real>)

  function Stored(scores: seq<real>, d: Difficulty): StoredProgression {
    StoredProgression(Some(scores), Some(d.targetReps), Some(d.romMultiplier), Some(d.swayMultiplier))
  }

  /** What `load` reads from a file: each missing key takes its constructor default. */
  function RestoredScores(f: StoredProgression): seq<real> { f.sessionScores.GetOr([]) }

  function RestoredDifficulty(f: StoredProgression): Difficulty {
    Difficulty(f.targetReps.GetOr(InitialDifficulty.targetReps),
               f.targetRomMultiplier.GetOr(InitialDifficulty.romMultiplier),
               f.swayToleranceMultiplier.GetOr(InitialDifficulty.swayMultiplier))
  }

  class ProgressionState {
    var sessionScores: seq<real>
    var targetReps: int
    var targetRomMultiplier: real
    var swayToleranceMultiplier: real

    function Params(): Difficulty
      reads this
    {
      Difficulty(targetReps, targetRomMultiplier, swayToleranceMultiplier)
    }

    constructor ()
      ensures sessionScores == [] && Params() == InitialDifficulty
    {
      sessionScores := [];
      targetReps, targetRomMultiplier, swayToleranceMultiplier := 10, 1.0, 1.0;
    }

    method RecordSession(avgScore: real)
      modifies this
      ensures sessionScores == old(sessionScores) + [avgScore]
      ensures Params() == old(Params())
    {
      sessionScores := sessionScores + [avgScore];
    }

    /** Counts, from the latest session backwards, the sessions above 85 until the first that
        is not. */
    method ConsecutiveGoodSessions() returns (count: nat)
      ensures count <= |sessionScores|
      ensures forall k :: |sessionScores| - count <= k < |sessionScores| ==> sessionScores[k] > GoodScore
      ensures count < |sessionScores| ==> sessionScores[|sessionScores| - 1 - count] <= GoodScore
    {
      count := 0;
      var i := |sessionScores|;
      while i > 0
        invariant 0 <= i <= |sessionScores|
        invariant count == |sessionScores| - i
        invariant forall k :: i <= k < |sessionScores| ==> sessionScores[k] > GoodScore
      {
        if sessionScores[i - 1] > GoodScore {
          count := count + 1;
          i := i - 1;
        } else {
          break;
        }
      }
    }

    method ComputeProgression() returns (result: ProgressionResult)
      modifies this
      ensures sessionScores == old(sessionScores)
      ensures result.action == Decide(sessionScores)
      ensures Params() == Apply(result.action, old(Params()))
      ensures result.newDifficulty == if result.action in {Upgrade, Regress} then Some(Params()) else None
    {
      if sessionScores == [] {
        return ProgressionResult(NoAction, None);
      }
      var latest := sessionScores[|sessionScores| - 1];
      var streak := ConsecutiveGoodSessions();
      TrailingGoodIsUnique(sessionScores, streak);
      if streak >= UpgradeStreak {
        targetReps := MinInt(targetReps + 2, 30);
        targetRomMultiplier := MinReal(targetRomMultiplier + 0.05, 1.5);
        swayToleranceMultiplier := MaxReal(swayToleranceMultiplier - 0.1, 0.5);
        return ProgressionResult(Upgrade, Some(Params()));
      }
      if latest < PoorScore {
        targetReps := MaxInt(targetReps - 2, 5);
        targetRomMultiplier := MaxReal(targetRomMultiplier - 0.05, 0.7);
        swayToleranceMultiplier := MinReal(swayToleranceMultiplier + 0.1, 2.0);
        return ProgressionResult(Regress, Some(Params()));
      }
      return ProgressionResult(Maintain, None);
    }

    /** The record `save` writes. */
    function Save(): (f: StoredProgression)
      reads this
      ensures RestoredScores(f) == sessionScores && RestoredDifficulty(f) == Params()
    {
      Stored(sessionScores, Params())
    }

    /** Reads a stored file; a missing file (`None`) leaves the state as it is. */
    method Load(file: Option<StoredProgression>)
      modifies this
      ensures file.None? ==> sessionScores == old(sessionScores) && Params() == old(Params())
      ensures file.Some? ==> sessionScores == RestoredScores(file.value) && Params() == RestoredDifficulty(file.value)
    {
      if file.None? {
        return;
      }
      var data := file.value;
      sessionScores := data.sessionScores.GetOr([]);
      targetReps := data.targetReps.GetOr(10);
      targetRomMultiplier := data.targetRomMultiplier.GetOr(1.0);
      swayToleranceMultiplier := data.swayToleranceMultiplier.GetOr(1.0);
    }
  }

  // ---------------------------------------------------------------------------------------
  // Properties

  /** The three properties of `TrailingGood` determine it: any count with them equals it. */
  lemma TrailingGoodIsUnique(scores: seq<real>, m: nat)
    requires m <= |scores|
    requires forall k :: |scores| - m <= k < |scores| ==> scores[k] > GoodScore
    requires m < |scores| ==> scores[|scores| - 1 - m] <= GoodScore
    ensures m == TrailingGood(scores)
  {
  }

  /** The action taken is exactly one of four, selected in the source's order. */
  lemma DecideCases(scores: seq<real>)
    ensures Decide(scores) == NoAction <==> scores == []
    ensures Decide(scores) == Upgrade <==> scores != [] && TrailingGood(scores) >= UpgradeStreak
    ensures Decide(scores) == Regress <==>
              scores != [] && TrailingGood(scores) < UpgradeStreak && scores[|scores| - 1] < PoorScore
    ensures Decide(scores) == Maintain <==>
              scores != [] && TrailingGood(scores) < UpgradeStreak && scores[|scores| - 1] >= PoorScore
  {
  }

  /** A latest score below 60 means it is not part of a good streak: regress never competes
      with upgrade except through the order of the checks. */
  lemma RegressWhenLatestPoor(scores: seq<real>)
    requires scores != [] && scores[|scores| - 1] < PoorScore
    ensures Decide(scores) == Regress
  {
    assert TrailingGood(scores) == 0;
  }

  lemma DecideExamples()
    ensures Decide([90.0, 88.0, 95.0]) == Upgrade
    ensures Decide([40.0]) == Regress && Regressed(InitialDifficulty).targetReps == 8
    ensures Decide([90.0, 88.0]) == Maintain
  {
    assert TrailingGood([90.0, 88.0, 95.0]) == 3 by {
      assert [90.0, 88.0, 95.0][..2] == [90.0, 88.0];
      assert [90.0, 88.0][..1] == [90.0];
      assert [90.0][..0] == [];
    }
    assert TrailingGood([90.0, 88.0]) == 2 by {
      assert [90.0, 88.0][..1] == [90.0];
      assert [90.0][..0] == [];
    }
  }

  /** The bounds a clamped difficulty stays in. */
  predicate InBounds(d: Difficulty) {
    5 <= d.targetReps <= 30 && 0.7 <= d.romMultiplier <= 1.5 && 0.5 <= d.swayMultiplier <= 2.0
  }

  /** Both steps keep a difficulty within the clamp bounds, whatever the history does. */
  lemma StepsStayInBounds(d: Difficulty, action: Action)
    requires InBounds(d)
    ensures InBounds(Apply(action, d))
  {
  }

  /** `n` consecutive upgrades (calls without a new recorded session). */
  function UpgradedTimes(d: Difficulty, n: nat): Difficulty {
    if n == 0 then d else Upgraded(UpgradedTimes(d, n - 1))
  }

  /** Each repeated upgrade steps again until the clamp: after `n` of them every parameter has
      moved `n` steps or reached its bound. */
  lemma {:induction false} UpgradedTimesClamps(d: Difficulty, n: nat)
    requires d.targetReps <= 30 && d.romMultiplier <= 1.5 && d.swayMultiplier >= 0.5
    ensures UpgradedTimes(d, n) == Difficulty(MinInt(d.targetReps + 2 * n, 30),
                                              MinReal(d.romMultiplier + 0.05 * n as real, 1.5),
                                              MaxReal(d.swayMultiplier - 0.1 * n as real, 0.5))
  {
    if n > 0 {
      UpgradedTimesClamps(d, n - 1);
      assert 0.05 * n as real == 0.05 * (n - 1) as real + 0.05;
      assert 0.1 * n as real == 0.1 * (n - 1) as real + 0.1;
    }
  }

  /** From any in-bounds difficulty, sixteen upgrades reach the hardest setting, which further
      upgrades leave unchanged. */
  lemma UpgradesReachCeiling(d: Difficulty, n: nat)
    requires InBounds(d) && n >= 16
    ensures UpgradedTimes(d, n) == Difficulty(30, 1.5, 0.5)
    ensures Upgraded(Difficulty(30, 1.5, 0.5)) == Difficulty(30, 1.5, 0.5)
  {
    UpgradedTimesClamps(d, n);
    assert 0.05 * n as real >= 0.8;
    assert 0.1 * n as real >= 1.6;
  }

  /** Saving and then loading restores the whole state. */
  lemma SaveLoadRoundTrip(scores: seq<real>, d: Difficulty)
    ensures RestoredScores(Stored(scores, d)) == scores
    ensures RestoredDifficulty(Stored(scores, d)) == d
  {
  }

  /** A file with no keys loads as the defaults of a fresh state. */
  lemma EmptyFileLoadsDefaults()
    ensures RestoredScores(StoredProgression(None, None, None, None)) == []
    ensures RestoredDifficulty(StoredProgression(None, None, None, None)) == InitialDifficulty
  {
  }
}
