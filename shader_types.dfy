/**
 * The values the CPU side shares with the shaders: the light record, the
 * per-model vertex uniforms and the per-frame fragment uniforms.
 *
 * Floating-point scalars are modelled as exact reals; vectors as triples.
 * Matrix contents are kept opaque: a 4x4 matrix is its upper-left 3x3 block
 * together with its seven remaining entries, and only the identity of these
 * parts is observable.
 */
module ShaderTypes {

  datatype Float3 = Float3(x: real, y: real, z: real)

  const Origin: Float3 := Float3(0.0, 0.0, 0.0)

  /** Opaque matrix entries; `Zero` is the all-zero content of a fresh C struct. */
  datatype Opaque = Zero | Token(id: nat)

  datatype Float3x3 = Float3x3(entries: Opaque)

  /** A 4x4 matrix: its upper-left 3x3 block and the other entries. */
  datatype Float4x4 = Float4x4(upperLeft: Float3x3, otherEntries: Opaque)

  const Zero4x4: Float4x4 := Float4x4(Float3x3(Zero), Zero)

  /** The light kinds; `Unused` is the enumeration's zero value. */
  datatype LightType = Unused | Sunlight | Spotlight | Pointlight | Ambientlight

  /** The shader-side light record (its `type` field is called `kind` here). */
  datatype Light = Light(
    position: Float3,
    color: Float3,
    specularColor: Float3,
    intensity: real,
    attenuation: Float3,
    kind: LightType,
    coneAngle: real,
    coneDirection: Float3,
    coneAttenuation: real)

  /** `Light()`: every field zero-initialised. */
  const ZeroLight: Light :=
    Light(Origin, Origin, Origin, 0.0, Origin, Unused, 0.0, Origin, 0.0)

  /** Per-model vertex uniforms. */
  datatype Uniforms = Uniforms(
    modelMatrix: Float4x4,
    viewMatrix: Float4x4,
    projectionMatrix: Float4x4,
    normalMatrix: Float3x3)

  /** `Uniforms()`: every matrix zero. */
  const ZeroUniforms: Uniforms :=
    Uniforms(Zero4x4, Zero4x4, Zero4x4, Float3x3(Zero))

  /** Per-frame fragment uniforms. */
  datatype FragmentUniforms = FragmentUniforms(lightCount: nat, cameraPosition: Float3)

  /** `FragmentUniforms()`: zero light count, camera at the origin. */
  const ZeroFragmentUniforms: FragmentUniforms := FragmentUniforms(0, Origin)

  /** Largest value a `UInt32` holds. */
  const MaxUInt32: nat := 0xFFFF_FFFF
}
