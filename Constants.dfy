/** The compile-time constants shared between the host-side registry and the
    shading kernel: slot capacities, type tags, optical enums and the default
    transmission coefficients. */
module Constants {
  import opened Wrappers
  import opened Vectors

  // Capacities of the registry's slot arrays.
  const MaxSceneObjects: nat := 50
  const MaxRectangleShapes: nat := 50
  const MaxSphereShapes: nat := 10
  const MaxCylinderMantleShapes: nat := 10
  const MaxColourSurfaces: nat := 10
  const MaxMirrorSurfaces: nat := 10
  const MaxThinFocussingSurfaces: nat := 10
  const MaxCheckerboardSurfaces: nat := 2

  // Shape type tags.
  const RectangleShapeTag := 0
  const SphereShapeTag := 1
  const CylinderMantleShapeTag := 2

  // Surface type tags.
  const ColourSurfaceTag := 0
  const MirrorSurfaceTag := 1
  const ThinFocussingSurfaceTag := 2
  const CheckerboardSurfaceTag := 3

  // Refraction types of a thin focussing surface.
  const IdealRefractionType := 0
  const PhaseHologramRefractionType := 1

  // Focussing types of a thin focussing surface.
  const SphericalFocussingType := 0
  const CylindricalFocussingType := 1
  const ToricFocussingType := 2

  /** Transmission coefficient of one, and of two, air-glass interfaces. */
  const OneSurfaceTransmissionCoefficient: real := 0.96
  const TwoSurfaceTransmissionCoefficient: real := 0.9216

  const OneSurfaceColourFactor := Vec4(OneSurfaceTransmissionCoefficient, OneSurfaceTransmissionCoefficient,
                                       OneSurfaceTransmissionCoefficient, 1.0)
  const TwoSurfaceColourFactor := Vec4(TwoSurfaceTransmissionCoefficient, TwoSurfaceTransmissionCoefficient,
                                       TwoSurfaceTransmissionCoefficient, 1.0)

  /** The closed set of shape kinds, one registry array each. */
  datatype ShapeKind = Rectangle | Sphere | CylinderMantle

  /** The closed set of surface kinds, one registry array each. */
  datatype SurfaceKind = Colour | Mirror | ThinFocussing | Checkerboard

  function ShapeTag(k: ShapeKind): (t: int)
    ensures 0 <= t < 3
  {
    match k
    case Rectangle => RectangleShapeTag
    case Sphere => SphereShapeTag
    case CylinderMantle => CylinderMantleShapeTag
  }

  /** Decodes a scene object's shape tag; exactly the tags 0, 1, 2 name a kind,
      and each names the kind whose tag it is. */
  function ShapeKindOf(t: int): (k: Option<ShapeKind>)
    ensures k.Some? <==> 0 <= t < 3
    ensures k.Some? ==> ShapeTag(k.value) == t
  {
    if t == RectangleShapeTag then Some(Rectangle)
    else if t == SphereShapeTag then Some(Sphere)
    else if t == CylinderMantleShapeTag then Some(CylinderMantle)
    else None
  }

  function SurfaceTag(k: SurfaceKind): (t: int)
    ensures 0 <= t < 4
  {
    match k
    case Colour => ColourSurfaceTag
    case Mirror => MirrorSurfaceTag
    case ThinFocussing => ThinFocussingSurfaceTag
    case Checkerboard => CheckerboardSurfaceTag
  }

  /** Decodes a scene object's surface tag; exactly the tags 0..3 name a kind. */
  function SurfaceKindOf(t: int): (k: Option<SurfaceKind>)
    ensures k.Some? <==> 0 <= t < 4
    ensures k.Some? ==> SurfaceTag(k.value) == t
  {
    if t == ColourSurfaceTag then Some(Colour)
    else if t == MirrorSurfaceTag then Some(Mirror)
    else if t == ThinFocussingSurfaceTag then Some(ThinFocussing)
    else if t == CheckerboardSurfaceTag then Some(Checkerboard)
    else None
  }

  function ShapeCapacity(k: ShapeKind): (n: nat)
    ensures n > 0
  {
    match k
    case Rectangle => MaxRectangleShapes
    case Sphere => MaxSphereShapes
    case CylinderMantle => MaxCylinderMantleShapes
  }

  function SurfaceCapacity(k: SurfaceKind): (n: nat)
    ensures n > 0
  {
    match k
    case Colour => MaxColourSurfaces
    case Mirror => MaxMirrorSurfaces
    case ThinFocussing => MaxThinFocussingSurfaces
    case Checkerboard => MaxCheckerboardSurfaces
  }

  /** Every slot array has room for at least one record. */
  lemma CapacitiesPositive()
    ensures MaxSceneObjects > 0
    ensures forall k: ShapeKind :: ShapeCapacity(k) > 0
    ensures forall k: SurfaceKind :: SurfaceCapacity(k) > 0
    ensures MaxCheckerboardSurfaces == 2 && MaxRectangleShapes == MaxSceneObjects == 50
  {
  }

  /** Distinct kinds carry distinct tags, so a tag selects one array. */
  lemma TagsDistinct(a: ShapeKind, b: ShapeKind, c: SurfaceKind, d: SurfaceKind)
    ensures a != b ==> ShapeTag(a) != ShapeTag(b)
    ensures c != d ==> SurfaceTag(c) != SurfaceTag(d)
  {
  }

  lemma OpticalTypesDistinct()
    ensures IdealRefractionType != PhaseHologramRefractionType
    ensures SphericalFocussingType != CylindricalFocussingType
    ensures SphericalFocussingType != ToricFocussingType
    ensures CylindricalFocussingType != ToricFocussingType
  {
  }

  /** Two interfaces transmit the square of what one transmits (exact over
      the reals), and both colour factors are the grey factors of their
      coefficients. */
  lemma TransmissionCoefficients()
    ensures TwoSurfaceTransmissionCoefficient == OneSurfaceTransmissionCoefficient * OneSurfaceTransmissionCoefficient
    ensures OneSurfaceColourFactor == CoefficientToColourFactor(OneSurfaceTransmissionCoefficient)
    ensures TwoSurfaceColourFactor == CoefficientToColourFactor(TwoSurfaceTransmissionCoefficient)
  {
  }
}
