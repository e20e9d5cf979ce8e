/**
 The records kept by the scene manager's two tag-keyed registries, the result of
 decoding an image file, and the named uniform values the scene manager hands to
 the shader manager.

 Floating-point values are only copied and compared in the modelled code, so they
 are modelled as `real`.
 */
module SceneTypes {

  /** An OpenGL texture name (`GLuint`), an unsigned 32-bit integer. */
  newtype uint32 = x: int | 0 <= x < 0x1_0000_0000

  /**
   The value an `int` variable receives when a `GLuint` is assigned to it: names
   at or above 2^31 wrap around to negative numbers (two's complement).
   */
  function ToInt(id: uint32): (r: int)
    ensures -0x8000_0000 <= r < 0x8000_0000
    ensures r % 0x1_0000_0000 == id as int
    ensures id < 0x8000_0000 ==> r == id as int
  {
    if id < 0x8000_0000 then id as int else id as int - 0x1_0000_0000
  }

  /** One entry of the texture registry: the GL texture name and its tag. */
  datatype TextureRecord = TextureRecord(id: uint32, tag: string)

  /** An RGB colour (`glm::vec3`). */
  datatype Vec3 = Vec3(r: real, g: real, b: real)

  /** `glm::vec3(x)`: all three components set to `x`. */
  function Splat(x: real): Vec3
  {
    Vec3(x, x, x)
  }

  /** One entry of the material registry (`OBJECT_MATERIAL`). */
  datatype ObjectMaterial = ObjectMaterial(
    tag: string,
    ambientColor: Vec3,
    ambientStrength: real,
    diffuseColor: Vec3,
    specularColor: Vec3,
    shininess: real)

  /**
   What the image decoder reports for one file: either nothing could be read,
   or an image with the given number of colour channels.
   */
  datatype DecodeResult = DecodeFailed | Decoded(channels: int)

  /** The texture loader only uploads RGB (3 channels) and RGBA (4 channels) images. */
  predicate Accepts(image: DecodeResult)
  {
    image.Decoded? && (image.channels == 3 || image.channels == 4)
  }

  /** A value written to a named shader uniform, tagged by the setter used. */
  datatype UniformValue =
    | IntValue(i: int)
    | FloatValue(f: real)
    | Vec2Value(u: real, v: real)
    | Vec3Value(v3: Vec3)
    | Vec4Value(x: real, y: real, z: real, w: real)
    | Sampler2DValue(unit: int)

  /** One write to the shader manager: the uniform's name and the value written. */
  datatype UniformWrite = UniformWrite(name: string, value: UniformValue)

  /** One texture binding made by the binding pass: a texture unit and a GL texture name. */
  datatype TextureBinding = TextureBinding(unit: nat, id: uint32)
}
