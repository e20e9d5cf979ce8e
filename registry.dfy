/**
 Reference definitions for the two tag-keyed registries: the first-match lookup
 by tag, the texture-name lookup, the material lookup with its copy into the
 caller's record, the binding of registered textures to texture units, and the
 fixed material catalog. The scene manager's methods are proved against these
 functions, and the lemmas below state what the registries promise.
 */
module Registry {
  import opened SceneTypes

  /** Capacity of the texture registry (`m_textureIDs`) and number of texture units used. */
  const Capacity: nat := 16

  /**
   The tags of a texture registry, in registration order. The material registry
   has its own projection below: the two record types share no common type, so
   each needs its own `tag` projection before the one `FirstIndex` serves both.
   */
  function TextureTags(records: seq<TextureRecord>): (tags: seq<string>)
    ensures |tags| == |records|
    ensures forall i | 0 <= i < |records| :: tags[i] == records[i].tag
  {
    if records == [] then [] else [records[0].tag] + TextureTags(records[1..])
  }

  /** The tags of a material registry, in insertion order (see `TextureTags`). */
  function MaterialTags(materials: seq<ObjectMaterial>): (tags: seq<string>)
    ensures |tags| == |materials|
    ensures forall i | 0 <= i < |materials| :: tags[i] == materials[i].tag
  {
    if materials == [] then [] else [materials[0].tag] + MaterialTags(materials[1..])
  }

  /**
   The position of the first occurrence of `tag` in `tags`, or -1 when there is
   none: the result of a front-to-back scan that stops at the first match.
   */
  function FirstIndex(tags: seq<string>, tag: string): (r: int)
    ensures -1 <= r < |tags|
    ensures tag !in tags ==> r == -1
    ensures tag in tags ==> 0 <= r < |tags| && tags[r] == tag && tag !in tags[..r]
  {
    if tags == [] then -1
    else if tags[0] == tag then 0
    else
      var rest := FirstIndex(tags[1..], tag);
      if rest == -1 then -1 else rest + 1
  }

  /**
   A scan that stops at position `k` (a match there, no match before) or runs off
   the end (`k == |tags|`, no match anywhere) has found exactly `FirstIndex`.
   */
  lemma FirstIndexOfScan(tags: seq<string>, tag: string, k: int)
    requires 0 <= k <= |tags|
    requires forall j | 0 <= j < k :: tags[j] != tag
    requires k < |tags| ==> tags[k] == tag
    ensures FirstIndex(tags, tag) == if k < |tags| then k else -1
  {
  }

  /**
   The texture name registered for `tag`, as an `int`, or -1: an independent
   front-to-back scan that returns the name of the first record with that tag.
   */
  function IdOf(records: seq<TextureRecord>, tag: string): int
  {
    if records == [] then -1
    else if records[0].tag == tag then ToInt(records[0].id)
    else IdOf(records[1..], tag)
  }

  /** The name lookup agrees with the slot lookup: it is the name stored at the slot, or -1 on a miss. */
  lemma {:induction false} IdOfIsIdAtSlot(records: seq<TextureRecord>, tag: string)
    ensures var slot := FirstIndex(TextureTags(records), tag);
      IdOf(records, tag) == if slot == -1 then -1 else ToInt(records[slot].id)
    decreases |records|
  {
    if records != [] && records[0].tag != tag {
      var tags := TextureTags(records);
      assert tags[1..] == TextureTags(records[1..]);
      IdOfIsIdAtSlot(records[1..], tag);
    }
  }

  /** Registering a tag that is not yet present makes it findable at the new slot, with the new name. */
  lemma RegisterFreshTag(records: seq<TextureRecord>, added: TextureRecord)
    requires added.tag !in TextureTags(records)
    ensures FirstIndex(TextureTags(records + [added]), added.tag) == |records|
    ensures IdOf(records + [added], added.tag) == ToInt(added.id)
  {
    var tags := TextureTags(records + [added]);
    assert forall j | 0 <= j < |records| :: tags[j] == TextureTags(records)[j];
    FirstIndexOfScan(tags, added.tag, |records|);
    IdOfIsIdAtSlot(records + [added], added.tag);
  }

  /**
   Registering a record changes no other lookup: a tag other than the new one,
   or a tag that was already present (the new record is shadowed because the
   first match wins), is found at the same slot with the same name as before.
   */
  lemma RegisterKeepsLookups(records: seq<TextureRecord>, added: TextureRecord, tag: string)
    requires tag != added.tag || tag in TextureTags(records)
    ensures FirstIndex(TextureTags(records + [added]), tag) == FirstIndex(TextureTags(records), tag)
    ensures IdOf(records + [added], tag) == IdOf(records, tag)
  {
    var before := TextureTags(records);
    var after := TextureTags(records + [added]);
    var k := FirstIndex(before, tag);
    assert forall j | 0 <= j < |records| :: after[j] == before[j];
    if k == -1 {
      assert after[|records|] != tag;
      FirstIndexOfScan(after, tag, |records| + 1);
    } else {
      FirstIndexOfScan(before, tag, k);
      assert forall j | 0 <= j < k :: before[j] != tag by {
        forall j | 0 <= j < k ensures before[j] != tag {
          assert before[..k][j] == before[j];
        }
      }
      FirstIndexOfScan(after, tag, k);
    }
    IdOfIsIdAtSlot(records, tag);
    IdOfIsIdAtSlot(records + [added], tag);
  }

  /**
   The texture-unit bindings made for a registry: unit `i` is bound to the
   texture name of the `i`-th record.
   */
  function Bindings(records: seq<TextureRecord>): (bindings: seq<TextureBinding>)
    ensures |bindings| == |records|
    ensures forall i | 0 <= i < |records| :: bindings[i] == TextureBinding(i, records[i].id)
  {
    if records == [] then []
    else Bindings(records[..|records| - 1]) + [TextureBinding(|records| - 1, records[|records| - 1].id)]
  }

  /**
   For a registered tag, the unit the slot lookup reports is bound to the very
   texture whose name the name lookup reports.
   */
  lemma SlotIsBoundToFoundTexture(records: seq<TextureRecord>, tag: string)
    requires tag in TextureTags(records)
    ensures var slot := FirstIndex(TextureTags(records), tag);
      0 <= slot < |Bindings(records)| && Bindings(records)[slot].unit == slot &&
      ToInt(Bindings(records)[slot].id) == IdOf(records, tag)
  {
    IdOfIsIdAtSlot(records, tag);
  }

  /**
   `into` with its five lighting properties replaced by those of `from`; the tag
   of `into` is kept (the lookup copies the properties, not the tag).
   */
  function CopyProperties(from: ObjectMaterial, into: ObjectMaterial): ObjectMaterial
  {
    into.(ambientColor := from.ambientColor,
          ambientStrength := from.ambientStrength,
          diffuseColor := from.diffuseColor,
          specularColor := from.specularColor,
          shininess := from.shininess)
  }

  /** `a` and `b` carry the same five lighting properties. */
  predicate SameProperties(a: ObjectMaterial, b: ObjectMaterial)
  {
    a.ambientColor == b.ambientColor && a.ambientStrength == b.ambientStrength &&
    a.diffuseColor == b.diffuseColor && a.specularColor == b.specularColor &&
    a.shininess == b.shininess
  }

  /**
   The caller's record after a material lookup for `tag`: on a hit it carries
   the properties of the first material with that tag, on a miss it is left as
   it was, and its tag is never changed.
   */
  function MaterialLookup(materials: seq<ObjectMaterial>, tag: string, into: ObjectMaterial): (out: ObjectMaterial)
    ensures out.tag == into.tag
    ensures tag !in MaterialTags(materials) ==> out == into
    ensures forall i | 0 <= i < |materials| && materials[i].tag == tag && tag !in MaterialTags(materials)[..i] ::
      SameProperties(out, materials[i])
  {
    var i := FirstIndex(MaterialTags(materials), tag);
    if i == -1 then into else CopyProperties(materials[i], into)
  }

  /**
   The lighting values every catalog material is given, as exact decimals (the
   source stores their `float` roundings).
   */
  const AmbientColor: real := 0.1
  const AmbientStrength: real := 0.75
  const DiffuseColor: real := 0.25
  const SpecularColor: real := 0.75
  const Shininess: real := 16.0

  /** The tags of the material catalog, in the order they are defined. */
  const CatalogTags: seq<string> := ["ceramic", "porcelain", "metal", "paper", "plastic", "drywall"]

  /** A catalog material: the shared lighting values under the given tag. */
  function CatalogMaterial(tag: string): ObjectMaterial
  {
    ObjectMaterial(tag, Splat(AmbientColor), AmbientStrength, Splat(DiffuseColor),
                   Splat(SpecularColor), Shininess)
  }

  /** The six catalog materials, in definition order. */
  function Catalog(): seq<ObjectMaterial>
  {
    seq(|CatalogTags|, i requires 0 <= i < |CatalogTags| => CatalogMaterial(CatalogTags[i]))
  }

  /**
   The catalog holds six materials with pairwise distinct tags, in the order
   ceramic, porcelain, metal, paper, plastic, drywall, all with the same
   lighting values.
   */
  lemma CatalogInOrder()
    ensures MaterialTags(Catalog()) == CatalogTags
    ensures |CatalogTags| == 6
    ensures forall i, j | 0 <= i < j < |CatalogTags| :: CatalogTags[i] != CatalogTags[j]
    ensures forall i | 0 <= i < |Catalog()| :: SameProperties(Catalog()[i], CatalogMaterial(""))
  {
  }

  /**
   After the catalog is appended to a material list that holds none of its tags,
   looking up the `k`-th catalog tag hits the `k`-th catalog entry: the caller's
   record receives the shared lighting values.
   */
  lemma LookupAfterCatalog(existing: seq<ObjectMaterial>, k: nat, into: ObjectMaterial)
    requires k < |CatalogTags|
    requires forall t | t in CatalogTags :: t !in MaterialTags(existing)
    ensures MaterialLookup(existing + Catalog(), CatalogTags[k], into) ==
      CopyProperties(CatalogMaterial(CatalogTags[k]), into)
  {
    CatalogInOrder();
    var all := existing + Catalog();
    var tags := MaterialTags(all);
    var tag := CatalogTags[k];
    assert tag in CatalogTags;
    forall j | 0 <= j < |existing| + k ensures tags[j] != tag {
      if j < |existing| {
        assert all[j] == existing[j];
        assert MaterialTags(existing)[j] == existing[j].tag;
      } else {
        assert all[j] == Catalog()[j - |existing|];
        assert Catalog()[j - |existing|].tag == CatalogTags[j - |existing|];
      }
    }
    assert all[|existing| + k] == Catalog()[k];
    FirstIndexOfScan(tags, tag, |existing| + k);
  }
}
