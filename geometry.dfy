/** The engine's spatial value types, with `f32` components taken as reals. */
module Geometry {
  import opened Wrappers

  datatype Vec3 = Vec3(x: real, y: real, z: real)

  /** A rotation quaternion; the model never computes with it, it only carries it. */
  datatype Quat = Quat(x: real, y: real, z: real, w: real)

  datatype Transform = Transform(translation: Vec3, rotation: Quat, scale: Vec3)

  const Zero := Vec3(0.0, 0.0, 0.0)
  const IdentityRotation := Quat(0.0, 0.0, 0.0, 1.0)
  const UnitScale := Vec3(1.0, 1.0, 1.0)

  /** `Transform::from_translation`: no rotation, unit scale. */
  function FromTranslation(v: Vec3): Transform
  {
    Transform(v, IdentityRotation, UnitScale)
  }

  /** An axis-aligned bounding box in the mesh's own (local) coordinates. */
  datatype Aabb = Aabb(center: Vec3, halfExtents: Vec3)

  /** A mesh in an asset store: either one of the loaded scene's meshes, whose bounding
      box (`Mesh::compute_aabb`) is an input of the model and is absent when the mesh has
      no positions, or a box built with `shape::Box::new(x, y, z)`. */
  datatype Mesh = SceneMesh(aabb: Option<Aabb>) | BoxMesh(size: Vec3)

  /** `Mesh::compute_aabb`: a box of the given size is centred on its local origin. */
  function ComputeAabb(m: Mesh): (r: Option<Aabb>)
    ensures m.SceneMesh? ==> r == m.aabb
    ensures m.BoxMesh? ==> r.Some? && r.value.center == Zero
    ensures m.BoxMesh? ==> r.value.halfExtents.x * 2.0 == m.size.x && r.value.halfExtents.y * 2.0 == m.size.y && r.value.halfExtents.z * 2.0 == m.size.z
  {
    match m
    case SceneMesh(a) => a
    case BoxMesh(s) => Some(Aabb(Zero, Vec3(s.x / 2.0, s.y / 2.0, s.z / 2.0)))
  }
}
