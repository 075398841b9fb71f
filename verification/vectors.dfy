/** Three-component vectors over exact reals: particle positions and velocities. */
module Vectors {

  datatype Vec3 = Vec3(x: real, y: real, z: real)

  const Zero: Vec3 := Vec3(0.0, 0.0, 0.0)

  function Add(a: Vec3, b: Vec3): Vec3 {
    Vec3(a.x + b.x, a.y + b.y, a.z + b.z)
  }

  function Sub(a: Vec3, b: Vec3): Vec3 {
    Vec3(a.x - b.x, a.y - b.y, a.z - b.z)
  }

  function Scale(k: real, v: Vec3): Vec3 {
    Vec3(k * v.x, k * v.y, k * v.z)
  }

  /** Squared Euclidean length; the model never takes a square root. */
  function Norm2(v: Vec3): (n: real)
    ensures n >= 0.0
  {
    v.x * v.x + v.y * v.y + v.z * v.z
  }

  /** `s` is the (non-negative) Euclidean length of `v`. */
  predicate IsMagnitude(s: real, v: Vec3) {
    s >= 0.0 && s * s == Norm2(v)
  }

  lemma Norm2Scale(k: real, v: Vec3)
    ensures Norm2(Scale(k, v)) == k * k * Norm2(v)
  {
    calc {
      Norm2(Scale(k, v));
      (k * v.x) * (k * v.x) + (k * v.y) * (k * v.y) + (k * v.z) * (k * v.z);
      k * k * (v.x * v.x) + k * k * (v.y * v.y) + k * k * (v.z * v.z);
    }
  }
}
