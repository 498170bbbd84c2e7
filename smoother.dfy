/** Exponential moving average over every landmark coordinate:
    S(t) = alpha * X(t) + (1 - alpha) * S(t - 1), seeded with the first frame. */
module Smoother {
  import opened Wrappers
  import opened Geometry

  function Ema(alpha: real, current: real, previous: real): real {
    alpha * current + (1.0 - alpha) * previous
  }

  function EmaVec(alpha: real, current: Vec3, previous: Vec3): Vec3 {
    Vec3(Ema(alpha, current.x, previous.x), Ema(alpha, current.y, previous.y), Ema(alpha, current.z, previous.z))
  }

  function Positions(landmarks: seq<Landmark>): (p: seq<Vec3>)
    ensures |p| == |landmarks| && forall i :: 0 <= i < |p| ==> p[i] == Position(landmarks[i])
  {
    seq(|landmarks|, i requires 0 <= i < |landmarks| => Position(landmarks[i]))
  }

  /** The next state: the first frame itself, or each point blended with its previous state. */
  function NextState(alpha: real, current: seq<Vec3>, state: Option<seq<Vec3>>): (s: seq<Vec3>)
    requires state.Some? ==> |state.value| == |current|
    ensures |s| == |current|
    ensures state.None? ==> s == current
    ensures state.Some? ==> forall i :: 0 <= i < |s| ==> s[i] == EmaVec(alpha, current[i], state.value[i])
  {
    match state
    case None => current
    case Some(prev) => seq(|current|, i requires 0 <= i < |current| => EmaVec(alpha, current[i], prev[i]))
  }

  /** A landmark carrying new coordinates; everything else about it is kept. */
  function Moved(lm: Landmark, p: Vec3): Landmark {
    lm.(x := p.x, y := p.y, z := p.z)
  }

  class EmaLandmarkSmoother {
    const alpha: real
    const numLandmarks: nat
    var state: Option<seq<Vec3>>

    constructor (alpha: real, numLandmarks: nat)
      ensures this.alpha == alpha && this.numLandmarks == numLandmarks && state.None?
    {
      this.alpha := alpha;
      this.numLandmarks := numLandmarks;
      state := None;
    }

    method Reset()
      modifies this
      ensures state.None?
    {
      state := None;
    }

    /** Smooths a frame in place: the landmarks receive the new state's coordinates. A frame
        whose size differs from the stored state fails (`ok` false) and changes nothing. */
    method Smooth(landmarks: array<Landmark>) returns (ok: bool)
      modifies this, landmarks
      ensures ok <==> old(state).None? || |old(state).value| == landmarks.Length
      ensures !ok ==> state == old(state) && landmarks[..] == old(landmarks[..])
      ensures ok ==> state == Some(NextState(alpha, Positions(old(landmarks[..])), old(state)))
      ensures ok ==> forall i :: 0 <= i < landmarks.Length ==>
                       landmarks[i] == Moved(old(landmarks[i]), state.value[i])
    {
      var current := Positions(landmarks[..]);
      if state.Some? && |state.value| != landmarks.Length {
        return false;
      }
      var next := NextState(alpha, current, state);
      state := Some(next);
      var i := 0;
      while i < landmarks.Length
        invariant 0 <= i <= landmarks.Length
        invariant forall k :: 0 <= k < i ==> landmarks[k] == Moved(old(landmarks[k]), next[k])
        invariant forall k :: i <= k < landmarks.Length ==> landmarks[k] == old(landmarks[k])
        modifies landmarks
      {
        landmarks[i] := Moved(landmarks[i], next[i]);
        i := i + 1;
      }
      return true;
    }
  }

  // ---------------------------------------------------------------------------------------
  // Properties

  /** With 0 <= alpha <= 1 the smoothed value lies between the new sample and the old state. */
  lemma EmaBetween(alpha: real, current: real, previous: real)
    requires 0.0 <= alpha <= 1.0
    ensures current <= previous ==> current <= Ema(alpha, current, previous) <= previous
    ensures previous <= current ==> previous <= Ema(alpha, current, previous) <= current
  {
    var e := Ema(alpha, current, previous);
    assert e - previous == alpha * (current - previous);
    assert current - e == (1.0 - alpha) * (current - previous);
    if current <= previous {
      ProductNonNegative(alpha, previous - current);
      ProductNonNegative(1.0 - alpha, previous - current);
    } else {
      ProductNonNegative(alpha, current - previous);
      ProductNonNegative(1.0 - alpha, current - previous);
    }
  }

  lemma ProductNonNegative(a: real, b: real)
    requires a >= 0.0 && b >= 0.0
    ensures a * b >= 0.0
  {
  }

  /** alpha = 1 disables smoothing; a steady point is a fixed point for every alpha. */
  lemma EmaEdgeCases(alpha: real, current: real, previous: real)
    ensures Ema(1.0, current, previous) == current
    ensures Ema(alpha, current, current) == current
    ensures Ema(0.0, current, previous) == previous
  {
  }

  function Pow(b: real, n: nat): real {
    if n == 0 then 1.0 else b * Pow(b, n - 1)
  }

  /** `n` frames of the same sample `x`, starting from state `s`. */
  function SmoothRun(alpha: real, x: real, s: real, n: nat): real {
    if n == 0 then s else Ema(alpha, x, SmoothRun(alpha, x, s, n - 1))
  }

  /** Holding still, the distance from the state to the true position shrinks by (1 - alpha)
      every frame: the lag the smoothing factor trades against noise. */
  lemma {:induction false} SmoothRunLag(alpha: real, x: real, s: real, n: nat)
    ensures SmoothRun(alpha, x, s, n) - x == Pow(1.0 - alpha, n) * (s - x)
  {
    if n > 0 {
      SmoothRunLag(alpha, x, s, n - 1);
      LagNext(alpha, x, s, n);
    }
  }

  /** The inductive step of `SmoothRunLag`. */
  lemma LagNext(alpha: real, x: real, s: real, n: nat)
    requires n > 0
    requires SmoothRun(alpha, x, s, n - 1) - x == Pow(1.0 - alpha, n - 1) * (s - x)
    ensures SmoothRun(alpha, x, s, n) - x == Pow(1.0 - alpha, n) * (s - x)
  {
    LagStep(alpha, x, SmoothRun(alpha, x, s, n - 1), Pow(1.0 - alpha, n - 1), s - x);
  }

  /** One smoothing step toward a steady sample scales the offset by (1 - alpha). */
  lemma LagStep(alpha: real, x: real, prev: real, p: real, d: real)
    requires prev - x == p * d
    ensures Ema(alpha, x, prev) - x == ((1.0 - alpha) * p) * d
  {
    assert Ema(alpha, x, prev) - x == (1.0 - alpha) * (prev - x);
    assert (1.0 - alpha) * (p * d) == ((1.0 - alpha) * p) * d;
  }
}
