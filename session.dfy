/** One exercise session: an append-only log of completed reps, the feedback seen, the
    on-demand averages, the summary record and the per-rep export record. */
module Sessions {
  import opened Wrappers
  import opened Stats

  /** A completed rep, created once and never changed. */
  datatype RepRecord = RepRecord(
    repNumber: int,
    romScore: real,
    stabilityScore: real,
    tempoScore: real,
    asymmetryScore: real,
    finalScore: real,
    romValue: real,
    repTime: real,
    feedback: seq<string>)

  /** One field of every rep, in rep order. */
  function Column(reps: seq<RepRecord>, field: RepRecord -> real): (col: seq<real>)
    ensures |col| == |reps|
    ensures forall i :: 0 <= i < |reps| ==> col[i] == field(reps[i])
  {
    seq(|reps|, i requires 0 <= i < |reps| => field(reps[i]))
  }

  /** Rep numbers are 1, 2, ..., n in insertion order. */
  predicate NumberedInOrder(reps: seq<RepRecord>) {
    forall i :: 0 <= i < |reps| ==> reps[i].repNumber == i + 1
  }

  predicate NoDuplicates(s: seq<string>) {
    forall i, j :: 0 <= i < j < |s| ==> s[i] != s[j]
  }

  /** The distinct elements of `s`, each kept at its first occurrence. */
  function Distinct(s: seq<string>): (r: seq<string>)
    ensures NoDuplicates(r)
    ensures forall x :: x in r <==> x in s
    ensures |r| <= |s|
  {
    if s == [] then []
    else
      var rest := Distinct(s[..|s| - 1]);
      assert forall x :: x in s <==> x in s[..|s| - 1] || x == s[|s| - 1] by {
        assert s == s[..|s| - 1] + [s[|s| - 1]];
      }
      if s[|s| - 1] in rest then rest else rest + [s[|s| - 1]]
  }

  /** The fixed-shape record `summary()` returns (before rounding). */
  datatype SessionSummary = SessionSummary(
    exercise: string,
    totalReps: nat,
    avgFinalScore: real,
    avgRomScore: real,
    avgStabilityScore: real,
    avgTempoScore: real,
    avgAsymmetryScore: real,
    durationSeconds: real,
    feedbackEvents: seq<string>)

  /** One entry of the exported `reps` list. */
  datatype RepExport = RepExport(
    rep: int,
    romScore: real,
    stabilityScore: real,
    tempoScore: real,
    asymmetryScore: real,
    finalScore: real,
    romValue: real,
    repTime: real,
    feedback: seq<string>)

  /** The persisted session: the summary plus the per-rep list. */
  datatype SessionExport = SessionExport(summary: SessionSummary, reps: seq<RepExport>)

  function ExportRep(r: RepRecord): RepExport {
    RepExport(r.repNumber, r.romScore, r.stabilityScore, r.tempoScore, r.asymmetryScore,
              r.finalScore, r.romValue, r.repTime, r.feedback)
  }

  function ExportReps(reps: seq<RepRecord>): (out: seq<RepExport>)
    ensures |out| == |reps|
    ensures forall i :: 0 <= i < |reps| ==>
              out[i].rep == reps[i].repNumber && out[i].finalScore == reps[i].finalScore
              && out[i].romScore == reps[i].romScore && out[i].stabilityScore == reps[i].stabilityScore
              && out[i].tempoScore == reps[i].tempoScore && out[i].asymmetryScore == reps[i].asymmetryScore
              && out[i].romValue == reps[i].romValue && out[i].repTime == reps[i].repTime
              && out[i].feedback == reps[i].feedback
  {
    seq(|reps|, i requires 0 <= i < |reps| => ExportRep(reps[i]))
  }

  /** `feedback or []`. */
  function FeedbackOrEmpty(feedback: Option<seq<string>>): seq<string> {
    if feedback.Some? then feedback.value else []
  }

  class Session {
    var exerciseName: string
    var startTime: real
    var endTime: Option<real>
    var reps: seq<RepRecord>
    var feedbackEvents: seq<string>

    ghost predicate Valid()
      reads this
    {
      NumberedInOrder(reps)
    }

    constructor (exerciseName: string, now: real)
      ensures Valid()
      ensures this.exerciseName == exerciseName && startTime == now && endTime == None
      ensures reps == [] && feedbackEvents == []
    {
      this.exerciseName := exerciseName;
      startTime, endTime := now, None;
      reps, feedbackEvents := [], [];
    }

    /** Appends one record numbered after the existing ones; a missing score is 0 and a missing
        feedback list is empty. The rep's feedback also joins the session's event list. */
    method AddRep(scores: map<string, real>, romValue: real, repTime: real, feedback: Option<seq<string>>)
      requires Valid()
      modifies this
      ensures Valid()
      ensures reps == old(reps) + [RepRecord(
                |old(reps)| + 1,
                Get(scores, "rom_score", 0.0),
                Get(scores, "stability_score", 0.0),
                Get(scores, "tempo_score", 0.0),
                Get(scores, "asymmetry_score", 0.0),
                Get(scores, "final_score", 0.0),
                romValue, repTime, FeedbackOrEmpty(feedback))]
      ensures feedbackEvents == old(feedbackEvents) + FeedbackOrEmpty(feedback)
      ensures exerciseName == old(exerciseName) && startTime == old(startTime) && endTime == old(endTime)
    {
      var rep := RepRecord(
        |reps| + 1,
        Get(scores, "rom_score", 0.0),
        Get(scores, "stability_score", 0.0),
        Get(scores, "tempo_score", 0.0),
        Get(scores, "asymmetry_score", 0.0),
        Get(scores, "final_score", 0.0),
        romValue, repTime, FeedbackOrEmpty(feedback));
      reps := reps + [rep];
      if feedback.Some? && feedback.value != [] {
        feedbackEvents := feedbackEvents + feedback.value;
      }
    }

    method EndSession(now: real)
      modifies this
      ensures endTime == Some(now)
      ensures exerciseName == old(exerciseName) && startTime == old(startTime)
      ensures reps == old(reps) && feedbackEvents == old(feedbackEvents)
    {
      endTime := Some(now);
    }

    function TotalReps(): (n: nat)
      reads this
      ensures n == |reps|
    {
      |reps|
    }

    function AvgFinalScore(): real reads this { Mean(Column(reps, (r: RepRecord) => r.finalScore)) }

    function AvgRomScore(): real reads this { Mean(Column(reps, (r: RepRecord) => r.romScore)) }

    function AvgStabilityScore(): real reads this { Mean(Column(reps, (r: RepRecord) => r.stabilityScore)) }

    function AvgTempoScore(): real reads this { Mean(Column(reps, (r: RepRecord) => r.tempoScore)) }

    function AvgAsymmetryScore(): real reads this { Mean(Column(reps, (r: RepRecord) => r.asymmetryScore)) }

    /** The summary record; `now` stands in for the clock while the session is still open
        (an end time of 0.0 is falsy and also falls back to `now`). */
    function Summary(now: real): (s: SessionSummary)
      reads this
      ensures s.exercise == exerciseName && s.totalReps == |reps|
      ensures s.avgFinalScore == AvgFinalScore() && s.avgRomScore == AvgRomScore()
      ensures s.avgStabilityScore == AvgStabilityScore() && s.avgTempoScore == AvgTempoScore()
      ensures s.avgAsymmetryScore == AvgAsymmetryScore()
      ensures NoDuplicates(s.feedbackEvents)
      ensures forall e :: e in s.feedbackEvents <==> e in feedbackEvents
      ensures endTime.Some? && endTime.value != 0.0 ==> s.durationSeconds == endTime.value - startTime
      ensures endTime.None? || endTime.value == 0.0 ==> s.durationSeconds == now - startTime
    {
      var end := if endTime.Some? && endTime.value != 0.0 then endTime.value else now;
      SessionSummary(exerciseName, TotalReps(), AvgFinalScore(), AvgRomScore(), AvgStabilityScore(),
                     AvgTempoScore(), AvgAsymmetryScore(), end - startTime, Distinct(feedbackEvents))
    }

    /** The record `to_json` serialises. */
    function Export(now: real): (e: SessionExport)
      reads this
      ensures e.summary == Summary(now)
      ensures e.reps == ExportReps(reps)
    {
      SessionExport(Summary(now), ExportReps(reps))
    }
  }

  // ---------------------------------------------------------------------------------------
  // Properties

  /** A mean of scores that all lie in [0, 100] lies in [0, 100], 0.0 for no reps. */
  lemma AverageInScoreRange(reps: seq<RepRecord>, field: RepRecord -> real)
    requires forall i :: 0 <= i < |reps| ==> 0.0 <= field(reps[i]) <= 100.0
    ensures 0.0 <= Mean(Column(reps, field)) <= 100.0
    ensures reps == [] ==> Mean(Column(reps, field)) == 0.0
  {
    if reps != [] {
      MeanBounds(Column(reps, field), 0.0, 100.0);
    }
  }

  /** The exported rep list carries the information the summary beside it is computed from:
      its length is the rep count and the mean of its final scores is the average final score. */
  lemma ExportAgreesWithSummary(session: Session, now: real)
    ensures var e := session.Export(now);
            |e.reps| == e.summary.totalReps
            && Mean(seq(|e.reps|, i requires 0 <= i < |e.reps| => e.reps[i].finalScore))
               == e.summary.avgFinalScore
  {
    var e := session.Export(now);
    var a := seq(|e.reps|, i requires 0 <= i < |e.reps| => e.reps[i].finalScore);
    var b := Column(session.reps, (r: RepRecord) => r.finalScore);
    assert a == b;
  }

  /** Three reps with final scores 70, 80 and 90 average to 80. */
  method ThreeRepSession() returns (total: nat, average: real)
    ensures total == 3 && average == 80.0
  {
    var session := new Session("Squats", 0.0);
    session.AddRep(map["final_score" := 70.0], 0.0, 0.0, None);
    session.AddRep(map["final_score" := 80.0], 0.0, 0.0, None);
    session.AddRep(map["final_score" := 90.0], 0.0, 0.0, None);
    var finals := Column(session.reps, (r: RepRecord) => r.finalScore);
    assert finals == [70.0, 80.0, 90.0];
    assert finals[..2] == [70.0, 80.0] && finals[..2][..1] == [70.0];
    assert Sum([70.0]) == 70.0 by { assert [70.0][..0] == []; }
    assert Sum([70.0, 80.0]) == 150.0;
    assert Sum(finals) == 240.0;
    total, average := session.TotalReps(), session.AvgFinalScore();
  }

  /** An empty session averages 0.0 on every dimension. */
  method EmptySession() returns (summary: SessionSummary)
    ensures summary.totalReps == 0
    ensures summary.avgFinalScore == 0.0 && summary.avgRomScore == 0.0 && summary.avgStabilityScore == 0.0
    ensures summary.avgTempoScore == 0.0 && summary.avgAsymmetryScore == 0.0
    ensures summary.feedbackEvents == []
  {
    var session := new Session("Squats", 0.0);
    summary := session.Summary(0.0);
  }
}
