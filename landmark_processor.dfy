/** Per-frame landmark preprocessing: visibility flags, then hip-centred coordinates scaled by
    torso length so that the features do not depend on camera distance. */
module LandmarkProcessor {
  import opened Wrappers
  import opened Geometry

  const VisibilityThreshold := 0.5

  /** Smallest torso length used as a divisor. */
  const MinTorsoLength := 0.01

  datatype ProcessedLandmark = ProcessedLandmark(x: real, y: real, z: real, visibility: real, valid: bool)

  function ProcessedPosition(p: ProcessedLandmark): Vec3 { Vec3(p.x, p.y, p.z) }

  /** One landmark after visibility filtering; a missing visibility counts as 1.0. */
  function Filtered(lm: Landmark, threshold: real): (p: ProcessedLandmark)
    ensures ProcessedPosition(p) == Position(lm)
    ensures lm.visibility.None? ==> p.visibility == 1.0
    ensures lm.visibility.Some? ==> p.visibility == lm.visibility.value
    ensures p.valid <==> p.visibility >= threshold
    ensures p.valid <==> (lm.visibility.None? && 1.0 >= threshold)
                         || (lm.visibility.Some? && lm.visibility.value >= threshold)
  {
    var vis := lm.visibility.GetOr(1.0);
    ProcessedLandmark(lm.x, lm.y, lm.z, vis, vis >= threshold)
  }

  method FilterVisibility(landmarks: seq<Landmark>, threshold: real) returns (processed: seq<ProcessedLandmark>)
    ensures |processed| == |landmarks|
    ensures forall i :: 0 <= i < |landmarks| ==> processed[i] == Filtered(landmarks[i], threshold)
  {
    processed := [];
    var i := 0;
    while i < |landmarks|
      invariant 0 <= i <= |landmarks|
      invariant |processed| == i
      invariant forall k :: 0 <= k < i ==> processed[k] == Filtered(landmarks[k], threshold)
    {
      var lm := landmarks[i];
      var vis := lm.visibility.GetOr(1.0);
      var valid := vis >= threshold;
      processed := processed + [ProcessedLandmark(lm.x, lm.y, lm.z, vis, valid)];
      i := i + 1;
    }
  }

  /** Midpoint of two points: equally far from both. */
  function Midpoint(a: Vec3, b: Vec3): (m: Vec3)
    ensures Sub(m, a) == Sub(b, m)
  {
    Vec3((a.x + b.x) / 2.0, (a.y + b.y) / 2.0, (a.z + b.z) / 2.0)
  }

  /** The hip centre: halfway between the left and right hip. */
  function HipCenter(landmarks: seq<Landmark>): (c: Vec3)
    requires |landmarks| > RightHip
    ensures Sub(c, Position(landmarks[LeftHip])) == Sub(Position(landmarks[RightHip]), c)
  {
    Midpoint(Position(landmarks[LeftHip]), Position(landmarks[RightHip]))
  }

  /** The mid-shoulder point: halfway between the left and right shoulder. */
  function MidShoulder(landmarks: seq<Landmark>): (c: Vec3)
    requires |landmarks| > RightShoulder
    ensures Sub(c, Position(landmarks[LeftShoulder])) == Sub(Position(landmarks[RightShoulder]), c)
  {
    Midpoint(Position(landmarks[LeftShoulder]), Position(landmarks[RightShoulder]))
  }

  /** The divisor actually used: the torso length, raised to 0.01 when shorter. */
  function EffectiveTorso(torsoLength: real): (d: real)
    ensures d >= MinTorsoLength
    ensures torsoLength >= MinTorsoLength ==> d == torsoLength
  {
    if torsoLength < MinTorsoLength then MinTorsoLength else torsoLength
  }

  /** One landmark in the body frame: valid ones are moved to the hip origin and divided by the
      torso length, invalid ones keep their raw coordinates. */
  function Normalized(p: ProcessedLandmark, hipCenter: Vec3, torsoLength: real): (n: ProcessedLandmark)
    ensures n.valid == p.valid && n.visibility == p.visibility
    ensures !p.valid ==> n == p
    ensures p.valid ==>
              Add(Scale(EffectiveTorso(torsoLength), ProcessedPosition(n)), hipCenter) == ProcessedPosition(p)
  {
    var d := EffectiveTorso(torsoLength);
    if p.valid then
      var n := ProcessedLandmark((p.x - hipCenter.x) / d, (p.y - hipCenter.y) / d, (p.z - hipCenter.z) / d,
                                 p.visibility, true);
      assert d * n.x == p.x - hipCenter.x && d * n.y == p.y - hipCenter.y && d * n.z == p.z - hipCenter.z;
      n
    else
      p
  }

  method NormalizeLandmarks(processed: seq<ProcessedLandmark>, hipCenter: Vec3, torsoLength: real)
    returns (normalized: seq<ProcessedLandmark>)
    ensures |normalized| == |processed|
    ensures forall i :: 0 <= i < |processed| ==> normalized[i] == Normalized(processed[i], hipCenter, torsoLength)
  {
    var d := torsoLength;
    if d < MinTorsoLength {
      d := MinTorsoLength;
    }
    normalized := [];
    var i := 0;
    while i < |processed|
      invariant 0 <= i <= |processed|
      invariant |normalized| == i
      invariant forall k :: 0 <= k < i ==> normalized[k] == Normalized(processed[k], hipCenter, torsoLength)
    {
      var lm := processed[i];
      if lm.valid {
        normalized := normalized + [ProcessedLandmark((lm.x - hipCenter.x) / d, (lm.y - hipCenter.y) / d,
                                                      (lm.z - hipCenter.z) / d, lm.visibility, true)];
      } else {
        normalized := normalized + [ProcessedLandmark(lm.x, lm.y, lm.z, lm.visibility, false)];
      }
      i := i + 1;
    }
  }

  /** The full step: filter, take the hip centre and the torso length from the raw landmarks,
      normalize. `norm` is the Euclidean length. */
  method ProcessLandmarks(raw: seq<Landmark>, norm: Vec3 -> real)
    returns (normalized: seq<ProcessedLandmark>, hipCenter: Vec3, torsoLength: real)
    requires |raw| > RightHip
    ensures hipCenter == HipCenter(raw)
    ensures torsoLength == norm(Sub(MidShoulder(raw), HipCenter(raw)))
    ensures |normalized| == |raw|
    ensures forall i :: 0 <= i < |raw| ==>
              normalized[i] == Normalized(Filtered(raw[i], VisibilityThreshold), hipCenter, torsoLength)
  {
    var processed := FilterVisibility(raw, VisibilityThreshold);
    hipCenter := HipCenter(raw);
    var midShoulder := MidShoulder(raw);
    torsoLength := norm(Sub(midShoulder, hipCenter));
    normalized := NormalizeLandmarks(processed, hipCenter, torsoLength);
  }

  // ---------------------------------------------------------------------------------------
  // Properties

  /** The hip centre itself normalizes to the origin. */
  lemma HipCenterIsOrigin(hipCenter: Vec3, visibility: real, torsoLength: real)
    ensures var p := ProcessedLandmark(hipCenter.x, hipCenter.y, hipCenter.z, visibility, true);
            ProcessedPosition(Normalized(p, hipCenter, torsoLength)) == Vec3(0.0, 0.0, 0.0)
  {
  }

  lemma ScaledOffset(a: real, h: real, k: real, t: real, d: real)
    requires k > 0.0 && d > 0.0
    ensures ((k * a + t) - (k * h + t)) / (k * d) == (a - h) / d
  {
    var q := (a - h) / d;
    assert q * d == a - h;
    assert (k * a + t) - (k * h + t) == k * (a - h);
    assert (k * d) * q == k * (a - h);
  }

  /** Device independence: moving the camera (translation `t`) or changing the subject's
      distance (scale `k`) leaves a valid landmark's normalized coordinates unchanged, as long
      as both torso lengths are above the 0.01 floor. */
  lemma NormalizationIsScaleInvariant(p: ProcessedLandmark, hipCenter: Vec3, torsoLength: real, k: real, t: Vec3)
    requires p.valid && k > 0.0
    requires torsoLength >= MinTorsoLength && k * torsoLength >= MinTorsoLength
    ensures var moved := ProcessedLandmark(k * p.x + t.x, k * p.y + t.y, k * p.z + t.z, p.visibility, true);
            Normalized(moved, Add(Scale(k, hipCenter), t), k * torsoLength) == Normalized(p, hipCenter, torsoLength)
  {
    ScaledOffset(p.x, hipCenter.x, k, t.x, torsoLength);
    ScaledOffset(p.y, hipCenter.y, k, t.y, torsoLength);
    ScaledOffset(p.z, hipCenter.z, k, t.z, torsoLength);
  }
}
