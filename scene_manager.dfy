/**
 The scene manager's registries and the uniform setters that read them.

 The texture registry is a fixed array of 16 records and a count of the records
 in use; the material registry is a growable list. Lookups scan front to back
 and stop at the first record whose tag matches. OpenGL calls and image decoding
 are outside the model: the decoder's verdict and the fresh GL texture name are
 arguments, and the binding pass returns the (unit, name) pairs it binds.
 */
module Scene {
  import opened SceneTypes
  import opened Registry
  import opened Uniforms

  class SceneManager {
    /** `m_pShaderManager`: the uniform sink, possibly null. */
    const shaderManager: ShaderManager?
    /** `m_textureIDs`: the texture registry's storage. */
    const textures: array<TextureRecord>
    /** `m_loadedTextures`: how many records of `textures` are in use. */
    var loadedTextures: nat
    /** `m_objectMaterials`: the material registry. */
    var materials: seq<ObjectMaterial>

    ghost predicate Valid()
      reads this
    {
      textures.Length == Capacity && loadedTextures <= Capacity
    }

    /** The registered textures, in registration order. */
    ghost function Textures(): seq<TextureRecord>
      reads this, textures
      requires Valid()
    {
      textures[..loadedTextures]
    }

    constructor (shader: ShaderManager?)
      ensures Valid() && fresh(textures)
      ensures shaderManager == shader
      ensures Textures() == [] && materials == []
    {
      shaderManager := shader;
      textures := new TextureRecord[Capacity](_ => TextureRecord(0, ""));
      loadedTextures := 0;
      materials := [];
    }

    /**
     Registers a decoded image under `tag` with the GL texture name `generatedID`.
     Only an image that was decoded and has 3 or 4 channels is registered; its
     record goes to the first unused position. The registry has no capacity check
     of its own, so a caller must not register a 17th texture.
     */
    method CreateGLTexture(tag: string, image: DecodeResult, generatedID: uint32) returns (ok: bool)
      requires Valid()
      requires Accepts(image) ==> loadedTextures < Capacity
      modifies this`loadedTextures, textures
      ensures Valid()
      ensures ok <==> Accepts(image)
      ensures ok ==> loadedTextures == old(loadedTextures) + 1
      ensures Textures() == if ok then old(Textures()) + [TextureRecord(generatedID, tag)] else old(Textures())
    {
      if image.Decoded? {
        if image.channels == 3 {
        } else if image.channels == 4 {
        } else {
          return false;
        }
        textures[loadedTextures] := TextureRecord(generatedID, tag);
        loadedTextures := loadedTextures + 1;
        return true;
      }
      return false;
    }

    /** Binds texture unit `i` to the `i`-th registered texture, for every registered texture. */
    method BindGLTextures() returns (bound: seq<TextureBinding>)
      requires Valid()
      ensures |bound| == loadedTextures
      ensures forall i | 0 <= i < loadedTextures :: bound[i] == TextureBinding(i, textures[i].id)
      ensures bound == Bindings(Textures())
    {
      bound := [];
      for i := 0 to loadedTextures
        invariant |bound| == i
        invariant forall j | 0 <= j < i :: bound[j] == TextureBinding(j, textures[j].id)
      {
        bound := bound + [TextureBinding(i, textures[i].id)];
      }
    }

    /**
     Gives every registered texture a newly generated GL name in place of its
     old one (the old names are not released). Tags and count are unchanged.
     */
    method DestroyGLTextures(regenerated: seq<uint32>)
      requires Valid()
      requires |regenerated| >= loadedTextures
      modifies textures
      ensures Valid()
      ensures TextureTags(Textures()) == old(TextureTags(Textures()))
      ensures loadedTextures == old(loadedTextures)
      ensures forall i | 0 <= i < loadedTextures :: textures[i].id == regenerated[i]
      ensures forall i | loadedTextures <= i < textures.Length :: textures[i] == old(textures[i])
    {
      for i := 0 to loadedTextures
        invariant forall j | 0 <= j < i :: textures[j] == TextureRecord(regenerated[j], old(textures[j].tag))
        invariant forall j | i <= j < textures.Length :: textures[j] == old(textures[j])
      {
        textures[i] := textures[i].(id := regenerated[i]);
      }
    }

    /** The texture unit (registration index) of the first texture tagged `tag`, or -1. */
    method FindTextureSlot(tag: string) returns (slot: int)
      requires Valid()
      ensures -1 <= slot < loadedTextures
      ensures slot == -1 <==> forall j | 0 <= j < loadedTextures :: textures[j].tag != tag
      ensures slot != -1 ==> textures[slot].tag == tag && forall j | 0 <= j < slot :: textures[j].tag != tag
      ensures slot == FirstIndex(TextureTags(Textures()), tag)
    {
      slot := -1;
      var index := 0;
      var found := false;
      while index < loadedTextures && !found
        invariant 0 <= index <= loadedTextures
        invariant forall j | 0 <= j < index :: textures[j].tag != tag
        invariant found ==> index < loadedTextures && textures[index].tag == tag && slot == index
        invariant !found ==> slot == -1
        decreases loadedTextures - index, if found then 0 else 1
      {
        if textures[index].tag == tag {
          slot := index;
          found := true;
        } else {
          index := index + 1;
        }
      }
      FirstIndexOfScan(TextureTags(Textures()), tag, index);
    }

    /** The GL name, as an `int`, of the first texture tagged `tag`, or -1. */
    method FindTextureID(tag: string) returns (id: int)
      requires Valid()
      ensures var slot := FirstIndex(TextureTags(Textures()), tag);
        id == if slot == -1 then -1 else ToInt(textures[slot].id)
      ensures id == IdOf(Textures(), tag)
    {
      id := -1;
      var index := 0;
      var found := false;
      while index < loadedTextures && !found
        invariant 0 <= index <= loadedTextures
        invariant forall j | 0 <= j < index :: textures[j].tag != tag
        invariant found ==> index < loadedTextures && textures[index].tag == tag && id == ToInt(textures[index].id)
        invariant !found ==> id == -1
        decreases loadedTextures - index, if found then 0 else 1
      {
        if textures[index].tag == tag {
          id := ToInt(textures[index].id);
          found := true;
        } else {
          index := index + 1;
        }
      }
      FirstIndexOfScan(TextureTags(Textures()), tag, index);
      IdOfIsIdAtSlot(Textures(), tag);
    }

    /**
     Looks up the first material tagged `tag` and copies its five lighting
     properties into the caller's record `material`, returned as `out`. Reports
     `false` only when the material list is empty: a miss in a non-empty list
     still reports `true`, with `out` left as `material` was.
     */
    method FindMaterial(tag: string, material: ObjectMaterial) returns (found: bool, out: ObjectMaterial)
      ensures found <==> |materials| > 0
      ensures out.tag == material.tag
      ensures out == MaterialLookup(materials, tag, material)
    {
      if |materials| == 0 {
        return false, material;
      }
      out := material;
      var index := 0;
      var matched := false;
      while index < |materials| && !matched
        invariant 0 <= index <= |materials|
        invariant forall j | 0 <= j < index :: materials[j].tag != tag
        invariant matched ==>
          index < |materials| && materials[index].tag == tag && out == CopyProperties(materials[index], material)
        invariant !matched ==> out == material
        decreases |materials| - index, if matched then 0 else 1
      {
        if materials[index].tag == tag {
          matched := true;
          out := CopyProperties(materials[index], material);
        } else {
          index := index + 1;
        }
      }
      FirstIndexOfScan(MaterialTags(materials), tag, index);
      found := true;
    }

    /** Appends the six catalog materials, in catalog order, after any materials already defined. */
    method DefineObjectMaterials()
      modifies this`materials
      ensures materials == old(materials) + Catalog()
    {
      var ambC, ambS, difC, specC, shin := AmbientColor, AmbientStrength, DiffuseColor, SpecularColor, Shininess;
      var ceramic := ObjectMaterial("ceramic", Splat(ambC), ambS, Splat(difC), Splat(specC), shin);
      materials := materials + [ceramic];
      var porcelain := ObjectMaterial("porcelain", Splat(ambC), ambS, Splat(difC), Splat(specC), shin);
      materials := materials + [porcelain];
      var metal := ObjectMaterial("metal", Splat(ambC), ambS, Splat(difC), Splat(specC), shin);
      materials := materials + [metal];
      var paper := ObjectMaterial("paper", Splat(ambC), ambS, Splat(difC), Splat(specC), shin);
      materials := materials + [paper];
      var plastic := ObjectMaterial("plastic", Splat(ambC), ambS, Splat(difC), Splat(specC), shin);
      materials := materials + [plastic];
      var drywall := ObjectMaterial("drywall", Splat(ambC), ambS, Splat(difC), Splat(specC), shin);
      materials := materials + [drywall];
    }

    /** Switches the shader to a flat colour; nothing is written without a shader manager. */
    method SetShaderColor(red: real, green: real, blue: real, alpha: real)
      modifies shaderManager
      ensures shaderManager != null ==>
        shaderManager.writes == old(shaderManager.writes) + ColorWrites(red, green, blue, alpha)
    {
      if shaderManager != null {
        shaderManager.SetValue(UseTextureName, IntValue(BoolToInt(false)));
        shaderManager.SetValue(ColorValueName, Vec4Value(red, green, blue, alpha));
      }
    }

    /**
     Switches the shader to the texture registered under `textureTag`: the
     sampler receives the tag's texture unit, or -1 when the tag is unknown.
     Nothing is written without a shader manager.
     */
    method SetShaderTexture(textureTag: string)
      requires Valid()
      modifies shaderManager
      ensures shaderManager != null ==>
        shaderManager.writes == old(shaderManager.writes) + TextureWrites(FirstIndex(TextureTags(Textures()), textureTag))
    {
      if shaderManager != null {
        shaderManager.SetValue(UseTextureName, IntValue(BoolToInt(true)));
        var textureID := -1;
        textureID := FindTextureSlot(textureTag);
        shaderManager.SetValue(TextureValueName, Sampler2DValue(textureID));
      }
    }

    /** Sets the texture-coordinate scale; nothing is written without a shader manager. */
    method SetTextureUVScale(u: real, v: real)
      modifies shaderManager
      ensures shaderManager != null ==> shaderManager.writes == old(shaderManager.writes) + UVScaleWrites(u, v)
    {
      if shaderManager != null {
        shaderManager.SetValue(UVScaleName, Vec2Value(u, v));
      }
    }

    /**
     Uploads the material registered under `materialTag`. With no materials
     defined nothing is written. Otherwise all five `material.*` uniforms are
     written, because the lookup reports success even on a miss; on a miss they
     carry the values of the uninitialised local record, here `scratch`. The
     shader manager is used without a null check.
     */
    method SetShaderMaterial(materialTag: string, scratch: ObjectMaterial)
      requires |materials| > 0 ==> shaderManager != null
      modifies shaderManager
      ensures shaderManager != null ==>
        shaderManager.writes == old(shaderManager.writes) +
          (if |materials| > 0 then MaterialWrites(MaterialLookup(materials, materialTag, scratch)) else [])
    {
      if |materials| > 0 {
        var material := scratch;
        var bReturn := false;
        bReturn, material := FindMaterial(materialTag, material);
        if bReturn {
          shaderManager.SetValue(MaterialNames[0], Vec3Value(material.ambientColor));
          shaderManager.SetValue(MaterialNames[1], FloatValue(material.ambientStrength));
          shaderManager.SetValue(MaterialNames[2], Vec3Value(material.diffuseColor));
          shaderManager.SetValue(MaterialNames[3], Vec3Value(material.specularColor));
          shaderManager.SetValue(MaterialNames[4], FloatValue(material.shininess));
        }
      }
    }
  }

  /**
   With materials defined, a tag that names none of them still produces all five
   material uploads, carrying the values the caller's record held before.
   */
  lemma MaterialMissUploadsScratch(materials: seq<ObjectMaterial>, tag: string, scratch: ObjectMaterial)
    requires |materials| > 0 && tag !in MaterialTags(materials)
    ensures MaterialWrites(MaterialLookup(materials, tag, scratch)) == MaterialWrites(scratch)
    ensures Names(MaterialWrites(MaterialLookup(materials, tag, scratch))) == MaterialNames
  {
    MaterialWritesAllFields(scratch);
  }

  /**
   A texture tag that is not registered reaches the sampler uniform unchanged as
   -1; a registered one reaches it as the unit its texture is bound to.
   */
  lemma TextureSamplerUnit(records: seq<TextureRecord>, tag: string)
    ensures tag !in TextureTags(records) ==>
      TextureWrites(FirstIndex(TextureTags(records), tag))[1] == UniformWrite(TextureValueName, Sampler2DValue(-1))
    ensures tag in TextureTags(records) ==>
      var unit := TextureWrites(FirstIndex(TextureTags(records), tag))[1].value.unit;
      0 <= unit < |Bindings(records)| && Bindings(records)[unit].unit == unit &&
      ToInt(Bindings(records)[unit].id) == IdOf(records, tag)
  {
    if tag in TextureTags(records) {
      SlotIsBoundToFoundTexture(records, tag);
    }
  }
}
