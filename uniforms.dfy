/**
 The shader-uniform side of the scene manager. The shader manager is an outside
 collaborator; here it is a sink that records every named value written to it,
 in order. The functions below give the writes each uniform setter of the scene
 manager makes, and the lemmas state which names they write.
 */
module Uniforms {
  import opened SceneTypes

  /** Uniform names used by the scene manager. */
  const ColorValueName: string := "objectColor"
  const TextureValueName: string := "objectTexture"
  const UseTextureName: string := "bUseTexture"
  const UVScaleName: string := "UVscale"
  const MaterialNames: seq<string> := [
    "material.ambientColor", "material.ambientStrength", "material.diffuseColor",
    "material.specularColor", "material.shininess"]

  /** The shader manager, reduced to the log of uniform writes it has received. */
  class ShaderManager {
    var writes: seq<UniformWrite>

    constructor ()
      ensures writes == []
    {
      writes := [];
    }

    /** Uploads `value` under `name`: one more entry at the end of the log. */
    method SetValue(name: string, value: UniformValue)
      modifies this
      ensures writes == old(writes) + [UniformWrite(name, value)]
    {
      writes := writes + [UniformWrite(name, value)];
    }
  }

  /** The names of a sequence of writes, in order. */
  function Names(ws: seq<UniformWrite>): (names: seq<string>)
    ensures |names| == |ws|
    ensures forall i | 0 <= i < |ws| :: names[i] == ws[i].name
  {
    if ws == [] then [] else [ws[0].name] + Names(ws[1..])
  }

  /** A boolean passed to an integer uniform: `false` is 0, `true` is 1. */
  function BoolToInt(b: bool): int
  {
    if b then 1 else 0
  }

  /** Flat colour: texture sampling off, then the colour. */
  function ColorWrites(red: real, green: real, blue: real, alpha: real): seq<UniformWrite>
  {
    [UniformWrite(UseTextureName, IntValue(BoolToInt(false))),
     UniformWrite(ColorValueName, Vec4Value(red, green, blue, alpha))]
  }

  /** Texturing: texture sampling on, then the texture unit (which may be -1). */
  function TextureWrites(slot: int): seq<UniformWrite>
  {
    [UniformWrite(UseTextureName, IntValue(BoolToInt(true))),
     UniformWrite(TextureValueName, Sampler2DValue(slot))]
  }

  /** The texture-coordinate scale. */
  function UVScaleWrites(u: real, v: real): seq<UniformWrite>
  {
    [UniformWrite(UVScaleName, Vec2Value(u, v))]
  }

  /** The five lighting properties of a material, under the `material.*` names. */
  function MaterialWrites(m: ObjectMaterial): seq<UniformWrite>
  {
    [UniformWrite(MaterialNames[0], Vec3Value(m.ambientColor)),
     UniformWrite(MaterialNames[1], FloatValue(m.ambientStrength)),
     UniformWrite(MaterialNames[2], Vec3Value(m.diffuseColor)),
     UniformWrite(MaterialNames[3], Vec3Value(m.specularColor)),
     UniformWrite(MaterialNames[4], FloatValue(m.shininess))]
  }

  /**
   The names and flag values of the colour and texture writes, read off the two
   write lists: both write `bUseTexture` first, with opposite values.
   */
  lemma ColorAndTextureToggleSampling(red: real, green: real, blue: real, alpha: real, slot: int)
    ensures Names(ColorWrites(red, green, blue, alpha)) == [UseTextureName, ColorValueName]
    ensures Names(TextureWrites(slot)) == [UseTextureName, TextureValueName]
    ensures ColorWrites(red, green, blue, alpha)[0].value == IntValue(0)
    ensures TextureWrites(slot)[0].value == IntValue(1)
  {
  }

  /**
   The names and values of a material upload, read off the write list: the five
   `material.*` names in order (pairwise distinct), each with the material's
   own value.
   */
  lemma MaterialWritesAllFields(m: ObjectMaterial)
    ensures Names(MaterialWrites(m)) == MaterialNames
    ensures forall i, j | 0 <= i < j < |MaterialNames| :: MaterialNames[i] != MaterialNames[j]
    ensures MaterialWrites(m)[0].value == Vec3Value(m.ambientColor)
    ensures MaterialWrites(m)[1].value == FloatValue(m.ambientStrength)
    ensures MaterialWrites(m)[2].value == Vec3Value(m.diffuseColor)
    ensures MaterialWrites(m)[3].value == Vec3Value(m.specularColor)
    ensures MaterialWrites(m)[4].value == FloatValue(m.shininess)
  {
  }
}
