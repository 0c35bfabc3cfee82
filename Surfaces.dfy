/** The surface records as the registry stores them: plain material data that
    only the shading kernel interprets. */
module Surfaces {
  import opened Vectors
  import Constants

  datatype ColourSurface = ColourSurface(colourFactor: Vec4, semitransparent: bool)

  datatype MirrorSurface = MirrorSurface(colourFactor: Vec4)

  datatype ThinFocussingSurface = ThinFocussingSurface(
    principalPoint: Vec3,
    opticalPower: real,
    focussingType: int,           // one of the focussing-type constants
    nOpticalPowerDirection: Vec3,
    reflective: bool,
    refractionType: int,          // one of the refraction-type constants
    colourFactor: Vec4)

  datatype CheckerboardSurface = CheckerboardSurface(
    width1: real, width2: real,
    colourFactor1: Vec4, colourFactor2: Vec4,
    semitransparent1: bool, semitransparent2: bool)

  /** Opaque white: the fill of unused colour slots. */
  const WhiteSurface := ColourSurface(White, false)
  const RedSurface := ColourSurface(Red, false)

  /** A loss-free mirror: the fill of unused mirror slots. */
  const PerfectMirrorSurface := MirrorSurface(White)

  /** A unit-power spherical ideal thin lens transmitting through two
      interfaces: the fill of unused thin-focussing slots. */
  const IdealThinLensSurface := ThinFocussingSurface(
    Origin, 1.0, Constants.SphericalFocussingType, XHat, false,
    Constants.IdealRefractionType, Constants.TwoSurfaceColourFactor)

  /** Opaque unit black-and-white checkers: the fill of unused checkerboard
      slots. */
  const BlackWhiteCheckers := CheckerboardSurface(1.0, 1.0, White, Black, false, false)
}
