// The `Ray` record of `trace.rs` and its change of frame.

module Rays {
  import opened Vectors
  import opened Geometry

  /** `RAY_EPS`, the default near distance of a ray. */
  const RayEps: real := 0.0001

  /** `f32::MAX`, the default far distance of a ray. */
  const FloatMax: real := 340282346638528859811704183484516925440.0

  datatype Ray = Ray(origin: Vec3, direction: Vec3, tmin: real, tmax: real)

  /** `Ray::default`: from the origin along +z over `[RAY_EPS, f32::MAX]`. */
  function DefaultRay(): Ray
  {
    Ray(Zero3(), Vec3(0.0, 0.0, 1.0), RayEps, FloatMax)
  }

  /** `Ray::new`: the given origin and direction with the default distances. */
  function NewRay(origin: Vec3, direction: Vec3): Ray
  {
    DefaultRay().(origin := origin, direction := direction)
  }

  /** `Ray::transform`: the origin as a point, the direction as a vector (not
      renormalised); the distance range is reset to the default one. */
  function TransformRay(f: Frame, r: Ray): Ray
  {
    NewRay(TransformPoint(f, r.origin), TransformVector(f, r.direction))
  }

  /** Taking a ray into a non-singular frame and back with the non-rigid inverse
      (as `intersect_instance` does) restores its origin and direction. */
  lemma TransformRayRoundTrip(f: Frame, r: Ray)
    requires Determinant(f) != 0.0
    ensures TransformRay(InverseFrame(f, true), TransformRay(f, r)) == NewRay(r.origin, r.direction)
  {
    NonRigidInverseRoundTrip(f, r.origin);
    NonRigidInverseVector(f, r.direction);
  }
}
