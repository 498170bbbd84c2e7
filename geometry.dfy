/** Points and pose landmarks as the pose estimator delivers them. */
module Geometry {
  import opened Wrappers

  datatype Vec3 = Vec3(x: real, y: real, z: real)

  function Add(a: Vec3, b: Vec3): Vec3 { Vec3(a.x + b.x, a.y + b.y, a.z + b.z) }

  function Sub(a: Vec3, b: Vec3): Vec3 { Vec3(a.x - b.x, a.y - b.y, a.z - b.z) }

  function Scale(k: real, a: Vec3): Vec3 { Vec3(k * a.x, k * a.y, k * a.z) }

  /** One pose landmark; a landmark object without a `visibility` attribute has `None`. */
  datatype Landmark = Landmark(x: real, y: real, z: real, visibility: Option<real>)

  function Position(lm: Landmark): Vec3 { Vec3(lm.x, lm.y, lm.z) }

  /** Indices of the pose model's 33 landmarks used by the core. */
  const LeftShoulder := 11
  const RightShoulder := 12
  const LeftHip := 23
  const RightHip := 24
  const LeftKnee := 25
  const RightKnee := 26
  const LeftAnkle := 27
  const LeftFootIndex := 31
}
