/** Post-session text feedback: an overall band, one optional line per score dimension and an
    optional consistency line, chosen by thresholds on the session's averages. */
module Analytics {
  import opened Stats
  import opened Sessions

  /** The messages `generate_feedback_text` can emit. */
  datatype Message =
    | Excellent | GoodSession | KeepPracticing | StartingPoint
    | RomLow | RomHigh | StabilityLow | StabilityHigh | TempoLow | TempoHigh
    | Consistent | Uneven

  function Text(m: Message): string {
    match m
    case Excellent => "🏆 Excellent session! Your form is consistently strong."
    case GoodSession => "👍 Good session! Some room for improvement."
    case KeepPracticing => "💪 Keep practicing! Focus on the weaker areas below."
    case StartingPoint => "🎯 This is a starting point — every rep builds strength."
    case RomLow => "📐 ROM: Try to increase your range of motion gradually."
    case RomHigh => "📐 ROM: Great range of motion — full movement achieved!"
    case StabilityLow => "⚖️ Stability: Focus on keeping your body still during the exercise."
    case StabilityHigh => "⚖️ Stability: Excellent balance and control!"
    case TempoLow => "⏱️ Tempo: Try to maintain a slow, controlled pace (~4 seconds per rep)."
    case TempoHigh => "⏱️ Tempo: Perfect controlled rhythm!"
    case Consistent => "📊 Consistency: Very consistent performance across all reps!"
    case Uneven => "📊 Consistency: Try to maintain more even quality across reps."
  }

  function Texts(ms: seq<Message>): (t: seq<string>)
    ensures |t| == |ms| && forall i :: 0 <= i < |ms| ==> t[i] == Text(ms[i])
  {
    seq(|ms|, i requires 0 <= i < |ms| => Text(ms[i]))
  }

  /** The overall band of the average final score: 85 and up, 70, 50, below 50. */
  function OverallBand(avgFinal: real): (m: Message)
    ensures m == Excellent <==> avgFinal >= 85.0
    ensures m == GoodSession <==> 70.0 <= avgFinal < 85.0
    ensures m == KeepPracticing <==> 50.0 <= avgFinal < 70.0
    ensures m == StartingPoint <==> avgFinal < 50.0
  {
    if avgFinal >= 85.0 then Excellent
    else if avgFinal >= 70.0 then GoodSession
    else if avgFinal >= 50.0 then KeepPracticing
    else StartingPoint
  }

  /** A dimension's line: the low message below 60, the high message from 90, else none. */
  function DimensionLine(avg: real, low: Message, high: Message): (l: seq<Message>)
    ensures |l| <= 1
    ensures l == [] <==> 60.0 <= avg < 90.0
    ensures low != high ==> (l == [low] <==> avg < 60.0) && (l == [high] <==> avg >= 90.0)
  {
    if avg < 60.0 then [low] else if avg >= 90.0 then [high] else []
  }

  /** The consistency line, only with at least 3 reps; `std` is the population standard
      deviation of the final scores. */
  function ConsistencyLine(finalScores: seq<real>, std: seq<real> -> real): (l: seq<Message>)
    ensures |l| <= 1
    ensures |finalScores| < 3 ==> l == []
    ensures l == [Consistent] <==> |finalScores| >= 3 && std(finalScores) < 5.0
    ensures l == [Uneven] <==> |finalScores| >= 3 && std(finalScores) > 15.0
  {
    if |finalScores| >= 3 then
      if std(finalScores) < 5.0 then [Consistent]
      else if std(finalScores) > 15.0 then [Uneven]
      else []
    else []
  }

  function FeedbackText(avgFinal: real, avgRom: real, avgStability: real, avgTempo: real,
                        finalScores: seq<real>, std: seq<real> -> real): (f: seq<Message>)
    ensures 1 <= |f| <= 5
    ensures f[0] == OverallBand(avgFinal)
  {
    [OverallBand(avgFinal)]
    + DimensionLine(avgRom, RomLow, RomHigh)
    + DimensionLine(avgStability, StabilityLow, StabilityHigh)
    + DimensionLine(avgTempo, TempoLow, TempoHigh)
    + ConsistencyLine(finalScores, std)
  }

  /** The feedback for a session, from its (unrounded) averages and its reps' final scores. */
  function GenerateFeedbackText(session: Session, std: seq<real> -> real): (f: seq<string>)
    reads session
    ensures 1 <= |f| <= 5
    ensures f[0] == Text(OverallBand(session.AvgFinalScore()))
  {
    Texts(FeedbackText(session.AvgFinalScore(), session.AvgRomScore(), session.AvgStabilityScore(),
                 session.AvgTempoScore(), Column(session.reps, (r: RepRecord) => r.finalScore), std))
  }

  // ---------------------------------------------------------------------------------------
  // Properties

  /** Which lines appear: each dimension's low line exactly below 60 and its high line exactly
      from 90, and the one band line is the first message. */
  lemma LinesPresent(avgFinal: real, avgRom: real, avgStability: real, avgTempo: real,
                     finalScores: seq<real>, std: seq<real> -> real)
    ensures var f := FeedbackText(avgFinal, avgRom, avgStability, avgTempo, finalScores, std);
            && (RomLow in f <==> avgRom < 60.0) && (RomHigh in f <==> avgRom >= 90.0)
            && (StabilityLow in f <==> avgStability < 60.0) && (StabilityHigh in f <==> avgStability >= 90.0)
            && (TempoLow in f <==> avgTempo < 60.0) && (TempoHigh in f <==> avgTempo >= 90.0)
  {
    var band := [OverallBand(avgFinal)];
    var rom := DimensionLine(avgRom, RomLow, RomHigh);
    var stab := DimensionLine(avgStability, StabilityLow, StabilityHigh);
    var tempo := DimensionLine(avgTempo, TempoLow, TempoHigh);
    var cons := ConsistencyLine(finalScores, std);
    var f := band + rom + stab + tempo + cons;
    assert f == band + (rom + (stab + (tempo + cons)));
    assert forall m :: m in f <==> m in band || m in rom || m in stab || m in tempo || m in cons;
  }

  /** The consistency thresholds on the standard deviation are thresholds on the variance:
      below 5 is a variance below 25, above 15 a variance above 225. */
  lemma ConsistencyByVariance(finalScores: seq<real>, std: seq<real> -> real)
    requires |finalScores| >= 3
    requires std(finalScores) >= 0.0 && std(finalScores) * std(finalScores) == Variance(finalScores)
    ensures ConsistencyLine(finalScores, std) == [Consistent] <==> Variance(finalScores) < 25.0
    ensures ConsistencyLine(finalScores, std) == [Uneven] <==> Variance(finalScores) > 225.0
  {
    RootComparisons(std(finalScores), Variance(finalScores), 5.0);
    RootComparisons(std(finalScores), Variance(finalScores), 15.0);
  }

  /** Equal final scores on three or more reps are always reported as consistent. */
  lemma EqualScoresAreConsistent(finalScores: seq<real>, c: real, std: seq<real> -> real)
    requires |finalScores| >= 3 && forall i :: 0 <= i < |finalScores| ==> finalScores[i] == c
    requires std(finalScores) >= 0.0 && std(finalScores) * std(finalScores) == Variance(finalScores)
    ensures ConsistencyLine(finalScores, std) == [Consistent]
  {
    ConstantHasZeroVariance(finalScores, c);
    ConsistencyByVariance(finalScores, std);
  }

  /** A session without reps averages 0 everywhere: the starting-point band and the three low
      lines, and no consistency line. */
  lemma NoRepsFeedback(std: seq<real> -> real)
    ensures FeedbackText(0.0, 0.0, 0.0, 0.0, [], std) == [StartingPoint, RomLow, StabilityLow, TempoLow]
  {
  }
}
