/** Stateful per-frame feature trackers: range of motion, velocity, hip sway and tempo.
    The joint-angle helpers are not part of this model: angles arrive as inputs. */
module FeatureEngine {
  import opened Wrappers
  import opened Stats
  import opened Geometry

  // ---------------------------------------------------------------------------------------
  // Range of motion

  /** A running extreme: the -inf / +inf sentinels of an empty rep, or a finite angle. */
  datatype Extreme = NegInf | Finite(v: real) | PosInf

  /** `max(current, angle)` with `-inf` below and `+inf` above every angle. */
  function MaxWith(current: Extreme, angle: real): Extreme {
    match current
    case NegInf => Finite(angle)
    case PosInf => PosInf
    case Finite(v) => Finite(if angle > v then angle else v)
  }

  /** `min(current, angle)`. */
  function MinWith(current: Extreme, angle: real): Extreme {
    match current
    case NegInf => NegInf
    case PosInf => Finite(angle)
    case Finite(v) => Finite(if angle < v then angle else v)
  }

  function SeqMax(s: seq<real>): (m: real)
    requires s != []
    ensures forall i :: 0 <= i < |s| ==> s[i] <= m
    ensures exists i :: 0 <= i < |s| && s[i] == m
  {
    if |s| == 1 then s[0]
    else
      var rest := SeqMax(s[..|s| - 1]);
      assert forall i :: 0 <= i < |s| - 1 ==> s[..|s| - 1][i] == s[i];
      if s[|s| - 1] > rest then s[|s| - 1] else rest
  }

  function SeqMin(s: seq<real>): (m: real)
    requires s != []
    ensures forall i :: 0 <= i < |s| ==> m <= s[i]
    ensures exists i :: 0 <= i < |s| && s[i] == m
  {
    if |s| == 1 then s[0]
    else
      var rest := SeqMin(s[..|s| - 1]);
      assert forall i :: 0 <= i < |s| - 1 ==> s[..|s| - 1][i] == s[i];
      if s[|s| - 1] < rest then s[|s| - 1] else rest
  }

  /** The range of motion of one rep: the spread of its angles, 0 for a rep without frames. */
  function RangeOf(angles: seq<real>): real {
    if angles == [] then 0.0 else SeqMax(angles) - SeqMin(angles)
  }

  class ROMTracker {
    var currentMax: Extreme
    var currentMin: Extreme
    var repRoms: seq<real>
    /** The angles fed in since the last completed rep or reset. */
    ghost var angles: seq<real>

    ghost predicate Valid()
      reads this
    {
      (angles == [] ==> currentMax == NegInf && currentMin == PosInf) &&
      (angles != [] ==> currentMax == Finite(SeqMax(angles)) && currentMin == Finite(SeqMin(angles)))
    }

    constructor ()
      ensures Valid() && angles == [] && repRoms == []
    {
      currentMax, currentMin, repRoms := NegInf, PosInf, [];
      angles := [];
    }

    method Reset()
      modifies this
      ensures Valid() && angles == [] && repRoms == []
    {
      currentMax, currentMin, repRoms := NegInf, PosInf, [];
      angles := [];
    }

    method Update(angle: real)
      requires Valid()
      modifies this
      ensures Valid()
      ensures angles == old(angles) + [angle] && repRoms == old(repRoms)
    {
      currentMax := MaxWith(currentMax, angle);
      currentMin := MinWith(currentMin, angle);
      angles := angles + [angle];
      assert angles[..|angles| - 1] == old(angles);
    }

    /** Ends the rep: returns its range of motion, records it and re-arms the extremes. */
    method CompleteRep() returns (rom: real)
      requires Valid()
      modifies this
      ensures Valid() && angles == []
      ensures rom == RangeOf(old(angles)) && rom >= 0.0
      ensures repRoms == old(repRoms) + [rom]
    {
      if currentMax.Finite? && currentMin.Finite? {
        rom := currentMax.v - currentMin.v;
      } else {
        // -inf - (+inf) is -inf, floored below
        rom := 0.0;
      }
      if rom < 0.0 {
        rom := 0.0;
      }
      repRoms := repRoms + [rom];
      currentMax, currentMin := NegInf, PosInf;
      angles := [];
    }

    function AverageRom(): (r: real)
      reads this
      ensures repRoms == [] ==> r == 0.0
      ensures repRoms != [] ==> r == Sum(repRoms) / |repRoms| as real
      ensures repRoms != [] ==> SeqMin(repRoms) <= r <= SeqMax(repRoms)
    {
      if repRoms == [] then 0.0
      else
        MeanBounds(repRoms, SeqMin(repRoms), SeqMax(repRoms));
        Mean(repRoms)
    }
  }

  /** A rep's range of motion is never negative; with one frame or none it is 0. */
  lemma RangeOfBounds(angles: seq<real>)
    ensures RangeOf(angles) >= 0.0
    ensures |angles| <= 1 ==> RangeOf(angles) == 0.0
  {
    if angles != [] {
      assert SeqMin(angles) <= angles[0] <= SeqMax(angles);
    }
  }

  lemma RangeOfExample()
    ensures RangeOf([30.0, 80.0]) == 50.0
  {
    assert SeqMax([30.0, 80.0]) == 80.0 by {
      assert [30.0, 80.0][..1] == [30.0];
    }
    assert SeqMin([30.0, 80.0]) == 30.0 by {
      assert [30.0, 80.0][..1] == [30.0];
    }
  }

  /** Every angle of the rep lies within the reported range of motion of every other one. */
  lemma RangeOfCoversAngles(angles: seq<real>, i: int, j: int)
    requires 0 <= i < |angles| && 0 <= j < |angles|
    ensures angles[i] - angles[j] <= RangeOf(angles)
  {
  }

  // ---------------------------------------------------------------------------------------
  // Velocity

  /** `dt` at or below this counts as no elapsed time. */
  const MinElapsed: real := 0.000001

  /** A norm function never returns a negative length. */
  ghost predicate NonNegativeNorm(norm: Vec3 -> real) {
    forall v :: norm(v) >= 0.0
  }

  class VelocityTracker {
    var prevPosition: Option<Vec3>
    var prevTime: Option<real>
    var currentVelocity: real

    constructor ()
      ensures prevPosition == None && prevTime == None && currentVelocity == 0.0
    {
      prevPosition, prevTime, currentVelocity := None, None, 0.0;
    }

    method Reset()
      modifies this
      ensures prevPosition == None && prevTime == None && currentVelocity == 0.0
    {
      prevPosition, prevTime, currentVelocity := None, None, 0.0;
    }

    /** Speed of `landmark` since the previous sample, `norm(delta) / dt`; 0 without a previous
        sample or when no time has passed. The norm (Euclidean length) is a parameter. */
    method Update(landmark: Landmark, currentTime: real, norm: Vec3 -> real) returns (velocity: real)
      modifies this
      ensures velocity == currentVelocity
      ensures prevPosition == Some(Position(landmark)) && prevTime == Some(currentTime)
      ensures (old(prevPosition).None? || old(prevTime).None?) ==> velocity == 0.0
      ensures old(prevPosition).Some? && old(prevTime).Some? && currentTime - old(prevTime).value <= MinElapsed ==>
                velocity == 0.0
      ensures old(prevPosition).Some? && old(prevTime).Some? && currentTime - old(prevTime).value > MinElapsed ==>
                velocity == norm(Sub(Position(landmark), old(prevPosition).value)) / (currentTime - old(prevTime).value)
      ensures NonNegativeNorm(norm) ==> velocity >= 0.0
    {
      var position := Position(landmark);
      if prevPosition.Some? && prevTime.Some? {
        var dt := currentTime - prevTime.value;
        if dt > MinElapsed {
          var delta := Sub(position, prevPosition.value);
          currentVelocity := norm(delta) / dt;
          assert NonNegativeNorm(norm) ==> norm(delta) >= 0.0;
        } else {
          currentVelocity := 0.0;
        }
      } else {
        currentVelocity := 0.0;
      }
      prevPosition := Some(position);
      prevTime := Some(currentTime);
      velocity := currentVelocity;
    }
  }

  // ---------------------------------------------------------------------------------------
  // Sway

  /** Fewer samples than this report no sway. */
  const MinSwaySamples := 5

  /** A bounded deque's `append`: the new sample goes last, the oldest is evicted when the
      window is full (a zero-capacity window keeps nothing). */
  function Slide(window: seq<real>, x: real, capacity: nat): (w: seq<real>)
    requires |window| <= capacity
    ensures |w| <= capacity
    ensures |w| == if |window| < capacity then |window| + 1 else capacity
    ensures capacity > 0 ==> w[|w| - 1] == x
    ensures w == (window + [x])[|window| + 1 - |w|..]
  {
    var extended := window + [x];
    if |extended| > capacity then extended[1..] else extended
  }

  /** The last `n` elements of `s` (all of them when there are fewer). */
  function LastN(s: seq<real>, n: nat): (r: seq<real>)
    ensures |r| <= n
  {
    if |s| <= n then s else s[|s| - n..]
  }

  class SwayTracker {
    const windowSize: nat
    var hipXHistory: seq<real>
    var currentSway: real
    /** Every sample fed in since construction or the last reset. */
    ghost var samples: seq<real>

    ghost predicate Valid()
      reads this
    {
      hipXHistory == LastN(samples, windowSize)
    }

    constructor (windowSize: nat)
      ensures Valid() && this.windowSize == windowSize
      ensures samples == [] && hipXHistory == [] && currentSway == 0.0
    {
      this.windowSize := windowSize;
      hipXHistory, currentSway := [], 0.0;
      samples := [];
    }

    method Reset()
      modifies this
      ensures Valid() && samples == [] && hipXHistory == [] && currentSway == 0.0
    {
      hipXHistory, currentSway := [], 0.0;
      samples := [];
    }

    /** Slides the window and reports the standard deviation `std` of its samples, or 0 while it
        holds fewer than five. */
    method Update(hipCenterX: real, std: seq<real> -> real) returns (sway: real)
      requires Valid()
      modifies this
      ensures Valid() && samples == old(samples) + [hipCenterX]
      ensures hipXHistory == Slide(old(hipXHistory), hipCenterX, windowSize)
      ensures |hipXHistory| <= windowSize
      ensures sway == currentSway
      ensures sway == if |hipXHistory| >= MinSwaySamples then std(hipXHistory) else 0.0
    {
      SlideKeepsLastN(samples, hipCenterX, windowSize);
      hipXHistory := Slide(hipXHistory, hipCenterX, windowSize);
      samples := samples + [hipCenterX];
      if |hipXHistory| >= MinSwaySamples {
        currentSway := std(hipXHistory);
      } else {
        currentSway := 0.0;
      }
      sway := currentSway;
    }
  }

  /** Sliding the last-`n` window by one sample gives the last `n` of the extended stream:
      the window always holds exactly the most recent samples. */
  lemma SlideKeepsLastN(s: seq<real>, x: real, n: nat)
    ensures Slide(LastN(s, n), x, n) == LastN(s + [x], n)
  {
    var w := LastN(s, n);
    if |s| + 1 > n && |s| >= n {
      assert w == s[|s| - n..];
      assert (w + [x])[1..] == (s + [x])[|s| + 1 - n..];
    }
  }

  /** A hip that holds still sways 0: when every sample in the window is the same and `std` is
      the non-negative root of the population variance (numpy's `np.std`), the sway is 0, and
      so is the sway `Update` reports for that window, however many samples it holds. */
  lemma SteadyHipHasNoSway(window: seq<real>, c: real, std: seq<real> -> real)
    requires forall i :: 0 <= i < |window| ==> window[i] == c
    requires std(window) >= 0.0 && std(window) * std(window) == Variance(window)
    ensures std(window) == 0.0
    ensures (if |window| >= MinSwaySamples then std(window) else 0.0) == 0.0
  {
    ConstantHasZeroVariance(window, c);
    RootComparisons(std(window), Variance(window), 0.0);
  }

  // ---------------------------------------------------------------------------------------
  // Tempo

  class TempoTracker {
    var repStartTime: Option<real>
    var repTimes: seq<real>

    constructor ()
      ensures repStartTime == None && repTimes == []
    {
      repStartTime, repTimes := None, [];
    }

    method Reset()
      modifies this
      ensures repStartTime == None && repTimes == []
    {
      repStartTime, repTimes := None, [];
    }

    /** Starts the rep timer at `now`, overwriting any pending start. */
    method StartRep(now: real)
      modifies this
      ensures repStartTime == Some(now) && repTimes == old(repTimes)
    {
      repStartTime := Some(now);
    }

    /** Without a pending start: 0 and nothing recorded. Otherwise the elapsed time is
        recorded and returned, and the timer re-armed at `now` for the next rep. */
    method CompleteRep(now: real) returns (repTime: real)
      modifies this
      ensures old(repStartTime).None? ==> repTime == 0.0 && repStartTime == None && repTimes == old(repTimes)
      ensures old(repStartTime).Some? ==>
                repTime == now - old(repStartTime).value
                && repTimes == old(repTimes) + [repTime]
                && repStartTime == Some(now)
    {
      if repStartTime.None? {
        return 0.0;
      }
      repTime := now - repStartTime.value;
      repTimes := repTimes + [repTime];
      repStartTime := Some(now);
    }

    function AverageTempo(): (r: real)
      reads this
      ensures repTimes == [] ==> r == 0.0
      ensures repTimes != [] ==> r == Sum(repTimes) / |repTimes| as real
      ensures repTimes != [] ==> SeqMin(repTimes) <= r <= SeqMax(repTimes)
    {
      if repTimes == [] then 0.0
      else
        MeanBounds(repTimes, SeqMin(repTimes), SeqMax(repTimes));
        Mean(repTimes)
    }
  }
}
