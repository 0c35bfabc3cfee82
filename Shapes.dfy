/** The shape records as the registry stores them. Their construction
    (normalising and orthogonalising the frame vectors) is floating-point
    work that is not part of this model: a record here is the finished value,
    and the registry never looks inside it. */
module Shapes {
  import opened Vectors

  datatype RectangleShape = RectangleShape(corner: Vec3, span1: Vec3, span2: Vec3, nNormal: Vec3)

  datatype SphereShape = SphereShape(centre: Vec3, radius: real, radius2: real,
                                     nTheta0: Vec3, nPhi0: Vec3, nPhi90: Vec3)

  datatype CylinderMantleShape = CylinderMantleShape(centre: Vec3, radius: real, radius2: real, length: real,
                                                     nAxis: Vec3, nPhi0: Vec3, nPhi90: Vec3)

  /** The unit square in the z = 0 plane, centred on the origin: the fill of
      unused rectangle slots. */
  const ZRectangleShape := RectangleShape(Vec3(-0.5, -0.5, 0.0), XHat, YHat, ZHat)

  /** The unit sphere at the origin, north pole along z: the fill of unused
      sphere slots. */
  const UnitSphereShape := SphereShape(Origin, 1.0, 1.0, ZHat, XHat, YHat)

  /** A unit-radius, unit-length cylinder mantle along x: the fill of unused
      cylinder-mantle slots. */
  const XCylinderMantleShape := CylinderMantleShape(Origin, 1.0, 1.0, 1.0, XHat, YHat, ZHat)
}
