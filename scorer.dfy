/** Per-repetition scoring: range of motion, stability, tempo and asymmetry scores, each in
    [0, 100], and their weighted final score. Every score here is the unrounded value. */
module Scorer {
  import opened Wrappers

  /** Tuning record of one exercise. */
  datatype ExerciseConfig = ExerciseConfig(
    targetRom: real,
    idealRepTime: real,
    acceptableSway: real,
    stabilityFactor: real,
    tempoPenaltyFactor: real,
    asymmetryPenaltyFactor: real,
    weightRom: real,
    weightStability: real,
    weightTempo: real)

  /** The constructor's defaults. */
  const DefaultConfig := ExerciseConfig(90.0, 3.0, 0.02, 100.0, 20.0, 5.0, 0.4, 0.3, 0.3)

  /** The documented (unchecked) requirement on a configuration's weights. */
  predicate WeightsSumToOne(c: ExerciseConfig) {
    c.weightRom + c.weightStability + c.weightTempo == 1.0
  }

  predicate WeightsNonNegative(c: ExerciseConfig) {
    c.weightRom >= 0.0 && c.weightStability >= 0.0 && c.weightTempo >= 0.0
  }

  predicate InScoreRange(s: real) { 0.0 <= s <= 100.0 }

  function Min(a: real, b: real): real { if a <= b then a else b }

  function Max(a: real, b: real): real { if a >= b then a else b }

  /** `max(lo, min(hi, value))`. */
  function Clamp(value: real, lo: real, hi: real): (r: real)
    ensures lo <= hi ==> lo <= r <= hi
    ensures lo <= value <= hi ==> r == value
    ensures lo <= hi && value <= lo ==> r == lo
    ensures lo <= hi && value >= hi ==> r == hi
    ensures lo > hi ==> r == lo
  {
    Max(lo, Min(hi, value))
  }

  /** Achieved fraction of the target range, in percent and clamped; a non-positive target
      asks for nothing and scores 100. */
  function RomScore(userRom: real, targetRom: real): (r: real)
    ensures InScoreRange(r)
    ensures targetRom <= 0.0 ==> r == 100.0
    ensures targetRom > 0.0 && userRom >= targetRom ==> r == 100.0
    ensures targetRom > 0.0 && userRom <= 0.0 ==> r == 0.0
    ensures targetRom > 0.0 && 0.0 <= userRom <= targetRom ==> r * targetRom == userRom * 100.0
  {
    if targetRom <= 0.0 then 100.0 else Clamp((userRom / targetRom) * 100.0, 0.0, 100.0)
  }

  /** 100 minus the sway, measured in units of the acceptable sway, times the stability
      factor, clamped; a non-positive acceptable sway disables the penalty. */
  function StabilityScore(sway: real, acceptableSway: real, stabilityFactor: real): (r: real)
    ensures InScoreRange(r)
    ensures acceptableSway <= 0.0 ==> r == 100.0
    ensures sway == 0.0 ==> r == 100.0
    ensures acceptableSway > 0.0 && 0.0 <= sway * stabilityFactor <= 100.0 * acceptableSway ==>
              (100.0 - r) * acceptableSway == sway * stabilityFactor
    ensures acceptableSway > 0.0 && sway * stabilityFactor >= 100.0 * acceptableSway ==> r == 0.0
    ensures acceptableSway > 0.0 && sway * stabilityFactor <= 0.0 ==> r == 100.0
  {
    var normalized := if acceptableSway <= 0.0 then 0.0 else sway / acceptableSway;
    if acceptableSway > 0.0 then
      NormalizedPenalty(sway, acceptableSway, stabilityFactor);
      Clamp(100.0 - normalized * stabilityFactor, 0.0, 100.0)
    else
      Clamp(100.0 - normalized * stabilityFactor, 0.0, 100.0)
  }

  /** The sway penalty `(sway / acceptableSway) * factor`, scaled back by the acceptable sway. */
  lemma NormalizedPenalty(sway: real, acceptableSway: real, factor: real)
    requires acceptableSway > 0.0
    ensures (sway / acceptableSway) * factor * acceptableSway == sway * factor
    ensures (sway / acceptableSway) * factor <= 100.0 <==> sway * factor <= 100.0 * acceptableSway
    ensures (sway / acceptableSway) * factor >= 0.0 <==> sway * factor >= 0.0
  {
    var p := (sway / acceptableSway) * factor;
    assert p * acceptableSway == sway * factor;
    ScaleOrder(p, 100.0, acceptableSway);
    ScaleOrder(0.0, p, acceptableSway);
  }

  /** Multiplying both sides by a positive number keeps their order, in both directions. */
  lemma ScaleOrder(a: real, b: real, k: real)
    requires k > 0.0
    ensures a <= b <==> a * k <= b * k
  {
    if a <= b {
      assert (b - a) * k >= 0.0;
    } else {
      assert (a - b) * k > 0.0;
    }
  }

  function Abs(x: real): real { if x < 0.0 then -x else x }

  /** 100 minus a penalty per second of deviation from the ideal duration: twice the factor
      when the rep was too fast, half of it when too slow; clamped. */
  function TempoScore(repTime: real, idealRepTime: real, penaltyFactor: real): (r: real)
    ensures InScoreRange(r)
    ensures repTime == idealRepTime ==> r == 100.0
  {
    var diff := repTime - idealRepTime;
    if diff < 0.0 then Clamp(100.0 - Abs(diff) * penaltyFactor * 2.0, 0.0, 100.0)
    else Clamp(100.0 - Abs(diff) * penaltyFactor * 0.5, 0.0, 100.0)
  }

  /** 100 minus the left/right difference times the penalty factor, clamped. */
  function AsymmetryScore(leftAngle: real, rightAngle: real, penaltyFactor: real): (r: real)
    ensures InScoreRange(r)
    ensures leftAngle == rightAngle ==> r == 100.0
    ensures 0.0 <= Abs(leftAngle - rightAngle) * penaltyFactor <= 100.0 ==>
              r == 100.0 - Abs(leftAngle - rightAngle) * penaltyFactor
    ensures Abs(leftAngle - rightAngle) * penaltyFactor >= 100.0 ==> r == 0.0
  {
    Clamp(100.0 - Abs(leftAngle - rightAngle) * penaltyFactor, 0.0, 100.0)
  }

  /** The unclamped weighted sum of the three scored components. */
  function WeightedSum(romScore: real, stabilityScore: real, tempoScore: real, config: ExerciseConfig): real {
    config.weightRom * romScore + config.weightStability * stabilityScore + config.weightTempo * tempoScore
  }

  function FinalScore(romScore: real, stabilityScore: real, tempoScore: real, config: ExerciseConfig): (r: real)
    ensures InScoreRange(r)
  {
    Clamp(WeightedSum(romScore, stabilityScore, tempoScore, config), 0.0, 100.0)
  }

  /** The five scores of one rep (`score_rep`'s dictionary). */
  datatype RepScores = RepScores(
    romScore: real,
    stabilityScore: real,
    tempoScore: real,
    asymmetryScore: real,
    finalScore: real)

  predicate AllInRange(s: RepScores) {
    InScoreRange(s.romScore) && InScoreRange(s.stabilityScore) && InScoreRange(s.tempoScore)
    && InScoreRange(s.asymmetryScore) && InScoreRange(s.finalScore)
  }

  datatype RepScorer = RepScorer(config: ExerciseConfig) {

    /** Scores one completed rep; the asymmetry score is computed only when both side angles
        are given and never enters the final score. */
    function ScoreRep(userRom: real, sway: real, repTime: real,
                      leftAngle: Option<real>, rightAngle: Option<real>): (s: RepScores)
      ensures AllInRange(s)
      ensures s.romScore == RomScore(userRom, config.targetRom)
      ensures s.stabilityScore == StabilityScore(sway, config.acceptableSway, config.stabilityFactor)
      ensures s.tempoScore == TempoScore(repTime, config.idealRepTime, config.tempoPenaltyFactor)
      ensures !(leftAngle.Some? && rightAngle.Some?) ==> s.asymmetryScore == 100.0
      ensures leftAngle.Some? && rightAngle.Some? ==>
                s.asymmetryScore == AsymmetryScore(leftAngle.value, rightAngle.value, config.asymmetryPenaltyFactor)
      ensures s.finalScore == FinalScore(s.romScore, s.stabilityScore, s.tempoScore, config)
    {
      var rom := RomScore(userRom, config.targetRom);
      var stability := StabilityScore(sway, config.acceptableSway, config.stabilityFactor);
      var tempo := TempoScore(repTime, config.idealRepTime, config.tempoPenaltyFactor);
      var asymmetry :=
        if leftAngle.Some? && rightAngle.Some?
        then AsymmetryScore(leftAngle.value, rightAngle.value, config.asymmetryPenaltyFactor)
        else 100.0;
      RepScores(rom, stability, tempo, asymmetry, FinalScore(rom, stability, tempo, config))
    }
  }

  // ---------------------------------------------------------------------------------------
  // Properties

  /** A stability penalty of exactly the acceptable sway costs `stabilityFactor` points. */
  lemma StabilityAtAcceptableSway(acceptableSway: real, stabilityFactor: real)
    requires acceptableSway > 0.0 && 0.0 <= stabilityFactor <= 100.0
    ensures StabilityScore(acceptableSway, acceptableSway, stabilityFactor) == 100.0 - stabilityFactor
  {
    assert acceptableSway / acceptableSway == 1.0;
  }

  lemma MulMonotone(k: real, a: real, b: real)
    requires k >= 0.0 && a <= b
    ensures k * a <= k * b
  {
    assert k * b - k * a == k * (b - a);
  }

  /** The term `w * score` of a weighted sum, with its bound `w * 100`. */
  lemma WeightedTerm(w: real, score: real) returns (term: real, bound: real)
    requires w >= 0.0 && InScoreRange(score)
    ensures term == w * score && bound == w * 100.0
    ensures 0.0 <= term <= bound
  {
    term, bound := w * score, w * 100.0;
    assert 0.0 <= score <= 100.0;
    MulMonotone(w, 0.0, score);
    assert w * 0.0 == 0.0;
    assert 0.0 <= term;
    MulMonotone(w, score, 100.0);
    assert term <= bound;
  }

  lemma BoundedTermsSum(w1: real, w2: real, w3: real, a: real, b: real, c: real, ha: real, hb: real, hc: real)
    requires w1 + w2 + w3 == 1.0
    requires ha == w1 * 100.0 && hb == w2 * 100.0 && hc == w3 * 100.0
    requires 0.0 <= a <= ha && 0.0 <= b <= hb && 0.0 <= c <= hc
    ensures 0.0 <= a + b + c <= 100.0
  {
  }

  lemma ClampMonotone(v1: real, v2: real, lo: real, hi: real)
    requires v1 <= v2
    ensures Clamp(v1, lo, hi) <= Clamp(v2, lo, hi)
  {
  }

  lemma DivMonotone(a: real, b: real, d: real)
    requires d > 0.0 && a <= b
    ensures a / d <= b / d
  {
    var qa, qb := a / d, b / d;
    assert qa * d == a && qb * d == b;
  }

  lemma RomScoreExamples()
    ensures RomScore(45.0, 90.0) == 50.0
    ensures RomScore(120.0, 90.0) == 100.0
  {
  }

  /** More range of motion never lowers the ROM score. */
  lemma RomScoreMonotone(rom1: real, rom2: real, targetRom: real)
    requires rom1 <= rom2
    ensures RomScore(rom1, targetRom) <= RomScore(rom2, targetRom)
  {
    if targetRom > 0.0 {
      DivMonotone(rom1, rom2, targetRom);
    }
  }

  /** More sway never raises the stability score (for a non-negative factor). */
  lemma StabilityScoreMonotone(sway1: real, sway2: real, acceptableSway: real, stabilityFactor: real)
    requires sway1 <= sway2 && stabilityFactor >= 0.0
    ensures StabilityScore(sway2, acceptableSway, stabilityFactor) <= StabilityScore(sway1, acceptableSway, stabilityFactor)
  {
    if acceptableSway > 0.0 {
      var n1, n2 := sway1 / acceptableSway, sway2 / acceptableSway;
      DivMonotone(sway1, sway2, acceptableSway);
      MulMonotone(stabilityFactor, n1, n2);
      assert 100.0 - n2 * stabilityFactor <= 100.0 - n1 * stabilityFactor;
      ClampMonotone(100.0 - n2 * stabilityFactor, 100.0 - n1 * stabilityFactor, 0.0, 100.0);
    }
  }

  lemma TempoScoreExamples()
    ensures TempoScore(4.0, 4.0, 20.0) == 100.0
    ensures TempoScore(1.0, 4.0, 20.0) == 0.0
    ensures TempoScore(6.0, 4.0, 20.0) == 80.0
    ensures TempoScore(8.0, 4.0, 20.0) == 60.0
  {
  }

  /** The asymmetric penalty: `d` seconds too fast cost `2 * factor * d` points, `d` seconds
      too slow cost `factor * d / 2`, as long as the score has not reached 0. */
  lemma TempoPenaltyRates(idealRepTime: real, penaltyFactor: real, d: real)
    requires d > 0.0 && penaltyFactor >= 0.0
    ensures 2.0 * penaltyFactor * d <= 100.0 ==>
              TempoScore(idealRepTime - d, idealRepTime, penaltyFactor) == 100.0 - 2.0 * penaltyFactor * d
    ensures 0.5 * penaltyFactor * d <= 100.0 ==>
              TempoScore(idealRepTime + d, idealRepTime, penaltyFactor) == 100.0 - 0.5 * penaltyFactor * d
    ensures TempoScore(idealRepTime - d, idealRepTime, penaltyFactor)
              <= TempoScore(idealRepTime + d, idealRepTime, penaltyFactor)
  {
    var fast := (idealRepTime - d) - idealRepTime;
    var slow := (idealRepTime + d) - idealRepTime;
    assert fast == -d && Abs(fast) == d;
    assert slow == d && Abs(slow) == d;
    assert d * penaltyFactor * 2.0 == 2.0 * penaltyFactor * d;
    assert d * penaltyFactor * 0.5 == 0.5 * penaltyFactor * d;
    assert 0.5 * penaltyFactor * d <= 2.0 * penaltyFactor * d;
  }

  lemma AsymmetryScoreSymmetric(leftAngle: real, rightAngle: real, penaltyFactor: real)
    ensures AsymmetryScore(leftAngle, rightAngle, penaltyFactor) == AsymmetryScore(rightAngle, leftAngle, penaltyFactor)
  {
    assert Abs(leftAngle - rightAngle) == Abs(rightAngle - leftAngle);
  }

  /** With non-negative weights summing to 1 and components in [0, 100] the clamp is inactive:
      the final score is exactly the weighted mean of the components. */
  lemma FinalScoreIsWeightedMean(romScore: real, stabilityScore: real, tempoScore: real, config: ExerciseConfig)
    requires WeightsNonNegative(config) && WeightsSumToOne(config)
    requires InScoreRange(romScore) && InScoreRange(stabilityScore) && InScoreRange(tempoScore)
    ensures FinalScore(romScore, stabilityScore, tempoScore, config) == WeightedSum(romScore, stabilityScore, tempoScore, config)
  {
    var a, ha := WeightedTerm(config.weightRom, romScore);
    var b, hb := WeightedTerm(config.weightStability, stabilityScore);
    var c, hc := WeightedTerm(config.weightTempo, tempoScore);
    assert WeightedSum(romScore, stabilityScore, tempoScore, config) == a + b + c;
    BoundedTermsSum(config.weightRom, config.weightStability, config.weightTempo, a, b, c, ha, hb, hc);
  }

  /** The asymmetry inputs change only the asymmetry score. */
  lemma FinalScoreIgnoresAsymmetry(scorer: RepScorer, userRom: real, sway: real, repTime: real,
                                   left1: Option<real>, right1: Option<real>,
                                   left2: Option<real>, right2: Option<real>)
    ensures scorer.ScoreRep(userRom, sway, repTime, left1, right1).finalScore
         == scorer.ScoreRep(userRom, sway, repTime, left2, right2).finalScore
  {
  }
}
