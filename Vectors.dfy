/** Stand-ins for the three.js vector records that the scene data carries.
    Components are exact reals; the registry never computes with them. */
module Vectors {
  datatype Vec3 = Vec3(x: real, y: real, z: real)
  datatype Vec4 = Vec4(x: real, y: real, z: real, w: real)

  const XHat := Vec3(1.0, 0.0, 0.0)
  const YHat := Vec3(0.0, 1.0, 0.0)
  const ZHat := Vec3(0.0, 0.0, 1.0)
  const Origin := Vec3(0.0, 0.0, 0.0)

  const White := Vec4(1.0, 1.0, 1.0, 1.0)
  const Black := Vec4(0.0, 0.0, 0.0, 1.0)
  const Red := Vec4(1.0, 0.0, 0.0, 1.0)

  /** A grey colour factor that multiplies red, green and blue by the same
      coefficient and leaves alpha opaque. */
  function CoefficientToColourFactor(c: real): (f: Vec4)
    ensures f.x == f.y == f.z == c
    ensures f.w == 1.0
  {
    Vec4(c, c, c, 1.0)
  }
}
