/**
 * The renderer's light builders: a default light, and four named lights
 * that each start from the default and overwrite a few fields.
 *
 * `DiffFields` is the reference against which each builder is stated: the
 * exact set of fields in which two lights differ.
 */
module RendererLights {
  import opened ShaderTypes

  /**
   * `Float.pi` read as a real: pi rounded toward zero to single precision,
   * 0x1.921fb4p1, whose decimal expansion is exact.
   */
  const Pi: real := 3.141592502593994140625

  /** `Float(d).degreesToRadians`. */
  function Radians(degrees: real): real {
    degrees * Pi / 180.0
  }

  datatype LightField =
    Position | Color | SpecularColor | Intensity | Attenuation | Kind | ConeAngle | ConeDirection | ConeAttenuation

  /** The fields in which `a` and `b` differ. */
  function DiffFields(a: Light, b: Light): set<LightField> {
    (if a.position != b.position then {Position} else {})
    + (if a.color != b.color then {Color} else {})
    + (if a.specularColor != b.specularColor then {SpecularColor} else {})
    + (if a.intensity != b.intensity then {Intensity} else {})
    + (if a.attenuation != b.attenuation then {Attenuation} else {})
    + (if a.kind != b.kind then {Kind} else {})
    + (if a.coneAngle != b.coneAngle then {ConeAngle} else {})
    + (if a.coneDirection != b.coneDirection then {ConeDirection} else {})
    + (if a.coneAttenuation != b.coneAttenuation then {ConeAttenuation} else {})
  }

  /**
   * `buildDefaultLight()`: a Sunlight at the origin with white colour,
   * grey (0.6) specular colour, intensity 1 and attenuation (1, 0, 0). The
   * assignment of the origin to `position` leaves it as it was.
   */
  function BuildDefaultLight(): (l: Light)
    ensures l.kind == Sunlight && l.position == Origin
    ensures l.color == Float3(1.0, 1.0, 1.0) && l.specularColor == Float3(0.6, 0.6, 0.6)
    ensures l.intensity == 1.0 && l.attenuation == Float3(1.0, 0.0, 0.0)
    ensures DiffFields(l, ZeroLight) == {Color, SpecularColor, Intensity, Attenuation, Kind}
  {
    ZeroLight.(
      position := Float3(0.0, 0.0, 0.0),
      color := Float3(1.0, 1.0, 1.0),
      specularColor := Float3(0.6, 0.6, 0.6),
      intensity := 1.0,
      attenuation := Float3(1.0, 0.0, 0.0),
      kind := Sunlight)
  }

  /** `sunlight`: the default light moved to (1, 2, -2). */
  function BuildSunlight(): (l: Light)
    ensures DiffFields(l, BuildDefaultLight()) == {Position}
    ensures l.position == Float3(1.0, 2.0, -2.0) && l.kind == Sunlight
  {
    BuildDefaultLight().(position := Float3(1.0, 2.0, -2.0))
  }

  /** `ambientLight`: green-yellow ambient light of intensity 0.15. */
  function BuildAmbientLight(): (l: Light)
    ensures DiffFields(l, BuildDefaultLight()) == {Color, Intensity, Kind}
    ensures l.color == Float3(0.5, 1.0, 0.0) && l.intensity == 0.15 && l.kind == Ambientlight
  {
    BuildDefaultLight().(color := Float3(0.5, 1.0, 0.0), intensity := 0.15, kind := Ambientlight)
  }

  /** `redLight`: a red point light with attenuation (1, 3, 4). */
  function BuildRedLight(): (l: Light)
    ensures DiffFields(l, BuildDefaultLight()) == {Position, Color, Attenuation, Kind}
    ensures l.position == Float3(0.0, 0.5, -0.5) && l.color == Float3(1.0, 0.0, 0.0)
    ensures l.attenuation == Float3(1.0, 3.0, 4.0) && l.kind == Pointlight
  {
    BuildDefaultLight().(
      position := Float3(-0.0, 0.5, -0.5),
      color := Float3(1.0, 0.0, 0.0),
      attenuation := Float3(1.0, 3.0, 4.0),
      kind := Pointlight)
  }

  /** `spotlight`: a magenta spot light with a 40 degree cone. */
  function BuildSpotlight(): (l: Light)
    ensures DiffFields(l, BuildDefaultLight())
         == {Position, Color, Attenuation, Kind, ConeAngle, ConeDirection, ConeAttenuation}
    ensures l.position == Float3(0.4, 0.8, 1.0) && l.color == Float3(1.0, 0.0, 1.0)
    ensures l.attenuation == Float3(1.0, 0.5, 0.0) && l.kind == Spotlight
    ensures l.coneAngle == Radians(40.0) && l.coneDirection == Float3(-2.0, 0.0, -1.5)
    ensures l.coneAttenuation == 12.0
  {
    BuildDefaultLight().(
      position := Float3(0.4, 0.8, 1.0),
      color := Float3(1.0, 0.0, 1.0),
      attenuation := Float3(1.0, 0.5, 0.0),
      kind := Spotlight,
      coneAngle := Radians(40.0),
      coneDirection := Float3(-2.0, 0.0, -1.5),
      coneAttenuation := 12.0)
  }
}
