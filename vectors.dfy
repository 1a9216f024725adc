/**
 * The value types of the renderer: 2D, 3D and homogeneous 4D points, with
 * the `vec3` sum and difference the avatar step uses. Coordinates are
 * `real`: the model only copies them or forms sums, products and `1 - y`, so
 * single-precision rounding is not modelled.
 */
module Vectors {

  datatype Vec2 = Vec2(x: real, y: real)

  datatype Vec3 = Vec3(x: real, y: real, z: real)

  /** A point in homogeneous coordinates; `w == 1` is a point, `w == 0` a direction. */
  datatype Vec4 = Vec4(x: real, y: real, z: real, w: real)

  function Add(a: Vec3, b: Vec3): Vec3 { Vec3(a.x + b.x, a.y + b.y, a.z + b.z) }

  function Sub(a: Vec3, b: Vec3): Vec3 { Vec3(a.x - b.x, a.y - b.y, a.z - b.z) }

  /** Dropping `w` gives back the Cartesian part of a homogeneous point. */
  function Cartesian(h: Vec4): Vec3 { Vec3(h.x, h.y, h.z) }
}
