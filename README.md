# Scene manager registries

A Dafny model of the bookkeeping in the `SceneManager` of a small OpenGL scene
(`Projects/7-1_FinalProjectMilestones/Source/SceneManager.cpp`). The model covers
its two tag-keyed registries and the shader-uniform setters that read them:

- the **texture registry** (`m_textureIDs`, `m_loadedTextures`): a fixed array of
  16 `{ID, tag}` records and a count of the records in use. Registering a decoded
  image appends one record. The binding pass binds texture unit `i` to the `i`-th
  record. The slot and name lookups scan front to back and return -1 on a miss.
- the **material registry** (`m_objectMaterials`): a growable list. The catalog
  definition appends six materials. The material lookup copies the five lighting
  properties of the first match into the caller's record.
- the **uniform setters** (`SetShaderColor`, `SetShaderTexture`,
  `SetTextureUVScale`, `SetShaderMaterial`): each appends named values to the
  shader manager. Here the shader manager is a sink that logs every
  `(name, value)` write in order.

Layout:

- `scene_types.dfy` (module `SceneTypes`): the records, the 32-bit GL texture
  name and its conversion to `int`, the decoder's verdict, and uniform values.
- `registry.dfy` (module `Registry`): reference functions for the first-match
  lookup (`FirstIndex`), the name lookup (`IdOf`), the bindings, the material
  lookup and the material catalog, with the lemmas about them.
- `uniforms.dfy` (module `Uniforms`): the logging shader manager, the writes
  each setter makes, and the names they use.
- `scene_manager.dfy` (module `Scene`): class `SceneManager`, whose methods
  keep the source's loops and in-place updates. They are proved against the
  reference functions.

Modelling choices:

- Image decoding (`stbi_load`) is an argument `DecodeResult`: either a failure
  or an image with a channel count. The GL name from `glGenTextures` is an
  argument `generatedID`.
- `BindGLTextures` returns the `(unit, name)` pairs it binds, in order, in
  place of the `glActiveTexture`/`glBindTexture` calls.
- GL names are `GLuint`. `FindTextureID` stores them in an `int`, so `ToInt`
  models that conversion: names at or above 2^31 wrap to negative values. A
  name of `0xFFFFFFFF` therefore comes back as -1, the same value as a miss.
- Colours and strengths are `real`: the modelled code only copies them. The
  catalog constants (0.1, 0.75, 0.25, 0.75, 16.0) are their exact decimal
  values, not the `float` roundings the source stores (`float ambC = .1;`).
- `FindMaterial` takes the caller's record by reference. Here the record is
  passed in and returned as `out`. It overwrites the five lighting properties
  and never the tag.
- `SetShaderMaterial` declares its local `OBJECT_MATERIAL` without
  initialising it. The parameter `scratch` stands for whatever that record
  holds.
- `SetShaderMaterial` uses `m_pShaderManager` without a null check, unlike the
  other setters. The model therefore requires a shader manager whenever
  materials are defined.
- `CreateGLTexture` never checks capacity before writing at index
  `m_loadedTextures`. The model requires a free slot only for an image that
  will be registered. Failed loads stay callable when the registry is full.
- The constructor shown at SceneManager.cpp:34-38 does not set
  `m_loadedTextures`; the model assumes it starts at 0. `SceneManager.h` is not
  part of this model. The model's constructor starts with an empty texture
  registry and an empty material list.
- `FindMaterial` returns `true` on a miss as written (the comment at line 241
  notes the line was `return true`, not `return bFound`); the model keeps that
  behaviour. `Scene.MaterialMissUploadsScratch` shows the consequence: a miss
  uploads the uninitialised local record.

## Model

| member | source | states |
|---|---|---|
| SceneTypes.ToInt | Projects/7-1_FinalProjectMilestones/Source/SceneManager.cpp:164-172 | The `GLuint` name stored into the `int` result is its two's-complement value: the same residue modulo 2^32, within the 32-bit signed range, and unchanged when below 2^31 |
| Registry.FirstIndex | Projects/7-1_FinalProjectMilestones/Source/SceneManager.cpp:188-206 | The first-match scan yields -1 exactly when the tag is absent; otherwise it yields a position holding the tag with no earlier occurrence |
| Registry.FirstIndexOfScan | Projects/7-1_FinalProjectMilestones/Source/SceneManager.cpp:194-203 | A scan that stops at a match with no match before it, or runs off the end, has found exactly the first index, or -1 |
| Registry.IdOfIsIdAtSlot | Projects/7-1_FinalProjectMilestones/Source/SceneManager.cpp:162-206 | The name lookup returns the name stored at the slot the slot lookup finds, converted to `int`, and returns -1 when the slot lookup misses |
| Registry.RegisterFreshTag | Projects/7-1_FinalProjectMilestones/Source/SceneManager.cpp:113-117 | After a tag not yet present is registered, the slot lookup returns its registration index and the name lookup returns the name it was registered with |
| Registry.RegisterKeepsLookups | Projects/7-1_FinalProjectMilestones/Source/SceneManager.cpp:168-177 | Registering a record changes no other tag's slot or name, and a later duplicate tag is shadowed because the first match wins |
| Registry.Bindings | Projects/7-1_FinalProjectMilestones/Source/SceneManager.cpp:134-139 | The binding pass binds exactly one unit per registered texture, unit `i` to the name of record `i` |
| Registry.SlotIsBoundToFoundTexture | Projects/7-1_FinalProjectMilestones/Source/SceneManager.cpp:132-140 | For a registered tag, the texture unit the slot lookup returns is bound to the texture whose name the name lookup returns |
| Registry.MaterialLookup | Projects/7-1_FinalProjectMilestones/Source/SceneManager.cpp:223-239 | After a lookup, the caller's record keeps its own tag. On a miss it is unchanged. On a hit it carries the five lighting properties of the first material with that tag |
| Registry.CatalogInOrder | Projects/7-1_FinalProjectMilestones/Source/SceneManager.cpp:418-481 | The catalog is six materials with distinct tags ceramic, porcelain, metal, paper, plastic, drywall in that order, all with the same lighting values |
| Registry.LookupAfterCatalog | Projects/7-1_FinalProjectMilestones/Source/SceneManager.cpp:418-481 | Once the catalog is appended to a list without its tags, looking up any catalog tag fills the caller's record with that entry's lighting values |
| Uniforms.ColorAndTextureToggleSampling | Projects/7-1_FinalProjectMilestones/Source/SceneManager.cpp:302-325 | The colour setter writes `bUseTexture` = 0 then `objectColor`. The texture setter writes `bUseTexture` = 1 then `objectTexture` |
| Uniforms.MaterialWritesAllFields | Projects/7-1_FinalProjectMilestones/Source/SceneManager.cpp:359-363 | A material upload writes each of the five distinct `material.*` names once, in source order, each with the material's own value |
| Scene.SceneManager.constructor | Projects/7-1_FinalProjectMilestones/Source/SceneManager.cpp:34-38 | The manager keeps the given shader manager, possibly null, and starts with a fresh 16-slot texture array, no textures and no materials |
| Scene.SceneManager.CreateGLTexture | Projects/7-1_FinalProjectMilestones/Source/SceneManager.cpp:60-124 | Succeeds exactly when the image decoded with 3 or 4 channels. On success `{ID, tag}` is appended at index `m_loadedTextures` and the count rises by one, earlier records unchanged. On failure the registry and count are unchanged |
| Scene.SceneManager.BindGLTextures | Projects/7-1_FinalProjectMilestones/Source/SceneManager.cpp:132-140 | Makes one binding per registered texture, unit `i` to the name of record `i`, in registration order |
| Scene.SceneManager.DestroyGLTextures | Projects/7-1_FinalProjectMilestones/Source/SceneManager.cpp:148-154 | Every registered record's name is replaced by a newly generated one. Tags, count and unused slots are unchanged |
| Scene.SceneManager.FindTextureSlot | Projects/7-1_FinalProjectMilestones/Source/SceneManager.cpp:188-206 | Returns the smallest index below the count whose tag matches, or -1 exactly when none does. The result lies in [-1, count) and the registry is not modified |
| Scene.SceneManager.FindTextureID | Projects/7-1_FinalProjectMilestones/Source/SceneManager.cpp:162-180 | Returns the name, as `int`, stored at the slot the slot lookup finds, or -1 when the slot lookup misses |
| Scene.SceneManager.FindMaterial | Projects/7-1_FinalProjectMilestones/Source/SceneManager.cpp:214-242 | Returns false exactly when the material list is empty, true otherwise even on a miss. The out-record keeps its tag; a hit copies the first match's five properties; otherwise it is unchanged |
| Scene.SceneManager.DefineObjectMaterials | Projects/7-1_FinalProjectMilestones/Source/SceneManager.cpp:418-481 | Appends exactly the six catalog materials, in catalog order, after any existing entries |
| Scene.SceneManager.SetShaderColor | Projects/7-1_FinalProjectMilestones/Source/SceneManager.cpp:288-307 | With a shader manager, appends `bUseTexture` = false then `objectColor`. Without one it writes nothing |
| Scene.SceneManager.SetShaderTexture | Projects/7-1_FinalProjectMilestones/Source/SceneManager.cpp:315-326 | With a shader manager, appends `bUseTexture` = true then `objectTexture` = the slot lookup's result, -1 passed through on a miss. Without one it writes nothing |
| Scene.SceneManager.SetTextureUVScale | Projects/7-1_FinalProjectMilestones/Source/SceneManager.cpp:334-340 | With a shader manager, appends one `UVscale` write of `(u, v)`. Without one it writes nothing |
| Scene.SceneManager.SetShaderMaterial | Projects/7-1_FinalProjectMilestones/Source/SceneManager.cpp:348-366 | Writes nothing when no materials are defined. Otherwise appends all five `material.*` writes of the looked-up record, because the lookup always reports success there |
| Scene.MaterialMissUploadsScratch | Projects/7-1_FinalProjectMilestones/Source/SceneManager.cpp:351-364 | With materials defined, an unknown material tag still uploads all five `material.*` names, carrying the local record's prior contents |
| Scene.TextureSamplerUnit | Projects/7-1_FinalProjectMilestones/Source/SceneManager.cpp:318-325 | An unknown texture tag reaches the sampler uniform as -1. A known one reaches it as the unit its texture is bound to |

## Left out

- OpenGL calls are not modelled: `glGenTextures`, `glBindTexture`, `glTexParameteri`, `glTexImage2D`, `glGenerateMipmap` and `glActiveTexture` (lines 83-110, 137-138). They are foreign calls. Their only visible results, the fresh name and the bindings, are an argument and a return value.
- Image decoding is not modelled: `stbi_set_flip_vertically_on_load`, `stbi_load` and `stbi_image_free` (lines 68-76, 109). The decoder is a foreign library; its verdict is an argument.
- Scene.SceneManager.CreateGLTexture: on the unsupported-channel path the source returns without freeing the decoded image or the generated GL texture (lines 99-103). The leak is a GL and heap effect, so the model does not show it.
- Scene.SceneManager.DestroyGLTextures: it generates new names and releases none (line 152). Releasing GL names is outside the model, so the contract only says that the names are replaced.
- `SetTransformations` (lines 250-280) is left out: glm matrix and trigonometry work in floating point over a library that is not part of this model.
- `SetupSceneLights` (lines 489-523) is left out: it writes fixed float constants to four `lightSources[i]` groups with no logic to verify.
- `LoadSceneTextures`, `PrepareScene` and `RenderScene` (lines 383-410, 533-778) are left out: fixed call scripts with float constants and calls into the `ShapeMeshes` library, which is not part of this model.
- Console logging (lines 81, 101, 120) and the destructor's pointer handling (lines 45-50) are left out: they have no effect on the registries.
- Scene.SceneManager.SetShaderMaterial: with materials defined and a null shader manager, the source dereferences the null pointer (line 359), which is undefined behaviour; the precondition `|materials| > 0 ==> shaderManager != null` excludes that case.
- The C++ capacity overflow is not modelled: writing a 17th texture is undefined behaviour. `CreateGLTexture` instead requires a free slot for an image it will register.
