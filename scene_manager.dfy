/**
 * The scene manager's resource registry and shader-state bridge:
 *  - a fixed-capacity texture registry (an array of {ID, tag} entries and a
 *    count), filled by CreateGLTexture and searched by FindTextureID and
 *    FindTextureSlot;
 *  - a material catalog filled by DefineObjectMaterials and searched by
 *    FindMaterial;
 *  - the setters that push colour, texture, UV scale, material and model
 *    matrix state into the shader manager, modelled as a write log.
 * OpenGL device effects are not modelled: a texture handle is an opaque
 * GLuint supplied by the caller, and binding produces a list of
 * (unit, handle) pairs.
 */
module Scene {
  import opened TagLookup
  import opened ShaderSink

  /** The number of texture slots of the registry. */
  const MaxTextures: nat := 16

  /** An OpenGL object name (unsigned 32-bit). */
  type GLuint = x: int | 0 <= x < 0x1_0000_0000
  const MaxGLuint: GLuint := 0xFFFF_FFFF

  /** One registry entry: the device handle and the tag it was loaded under. */
  datatype TextureInfo = TextureInfo(id: GLuint, tag: string)

  /** OBJECT_MATERIAL: five lighting parameters under a tag. */
  datatype Material = Material(
    ambientColor: Vec3,
    ambientStrength: real,
    diffuseColor: Vec3,
    specularColor: Vec3,
    shininess: real,
    tag: string)

  /** What the image decoder reports for one file. */
  datatype Decoded = DecodeFailed | Decoded(width: int, height: int, channels: int)

  /** Texture unit `unit` has the texture `handle` bound to it. */
  datatype Binding = Binding(unit: int, handle: GLuint)

  // Uniform names the scene manager writes.
  const ModelName := "model"
  const ColorValueName := "objectColor"
  const TextureValueName := "objectTexture"
  const UseTextureName := "bUseTexture"
  const UVScaleName := "UVscale"
  const AmbientColorName := "material.ambientColor"
  const AmbientStrengthName := "material.ambientStrength"
  const DiffuseColorName := "material.diffuseColor"
  const SpecularColorName := "material.specularColor"
  const ShininessName := "material.shininess"

  /** Images with 3 (RGB) or 4 (RGBA) channels are the only ones uploaded. */
  predicate SupportedChannels(channels: int)
  {
    channels == 3 || channels == 4
  }

  // ---------------------------------------------------------------------
  // Texture registry: specification functions and their lemmas
  // ---------------------------------------------------------------------

  function TextureTag(e: TextureInfo): string
  {
    e.tag
  }

  /** The tags FindTextureID and FindTextureSlot compare, in slot order. */
  function TextureTags(entries: seq<TextureInfo>): seq<string>
  {
    Tags(entries, TextureTag)
  }

  /** The C++ conversion of a GLuint to int: the same 32 bits read as two's complement. */
  function AsInt(id: GLuint): (r: int)
    ensures -0x8000_0000 <= r < 0x8000_0000
    ensures r % 0x1_0000_0000 == id
    ensures r >= 0 ==> r == id
    ensures r == -1 <==> id == MaxGLuint
  {
    if id < 0x8000_0000 then id else id - 0x1_0000_0000
  }

  /** The answer FindTextureID gives on `entries`: the handle of the first entry tagged `tag`, or -1. */
  function TextureIDOf(entries: seq<TextureInfo>, tag: string): int
  {
    var slot := FirstMatch(TextureTags(entries), tag);
    if slot == -1 then -1 else AsInt(entries[slot].id)
  }

  /** FindTextureID and FindTextureSlot agree: the ID is -1 exactly when the
      slot is -1 (as long as no handle is the all-ones name, whose int
      reading is also -1), and otherwise it carries the 32 bits of the handle
      stored at the slot. */
  lemma TextureIDAgreesWithSlot(entries: seq<TextureInfo>, tag: string)
    requires forall i :: 0 <= i < |entries| ==> entries[i].id != MaxGLuint
    ensures TextureIDOf(entries, tag) == -1 <==> FirstMatch(TextureTags(entries), tag) == -1
    ensures FirstMatch(TextureTags(entries), tag) >= 0 ==>
      TextureIDOf(entries, tag) % 0x1_0000_0000 == entries[FirstMatch(TextureTags(entries), tag)].id
  {
  }

  /** Loading one more entry: every tag already registered keeps its slot
      (a duplicate tag is shadowed, not overwritten), the new tag is found at
      the old count if it was missing, and other tags stay missing. */
  lemma LoadKeepsEarlierLookups(entries: seq<TextureInfo>, e: TextureInfo, tag: string)
    ensures FirstMatch(TextureTags(entries + [e]), tag) ==
      (if FirstMatch(TextureTags(entries), tag) != -1 then FirstMatch(TextureTags(entries), tag)
       else if e.tag == tag then |entries|
       else -1)
    ensures TextureIDOf(entries + [e], tag) ==
      (if FirstMatch(TextureTags(entries), tag) != -1 then TextureIDOf(entries, tag)
       else if e.tag == tag then AsInt(e.id)
       else -1)
  {
    assert TextureTags(entries + [e]) == TextureTags(entries) + [e.tag];
    FirstMatchSnoc(TextureTags(entries), e.tag, tag);
  }

  /** The registry as DestroyGLTextures leaves it: every entry keeps its tag
      and has its handle replaced by a newly generated name. */
  function Regenerated(entries: seq<TextureInfo>, names: seq<GLuint>): seq<TextureInfo>
    requires |names| == |entries|
  {
    seq(|entries|, i requires 0 <= i < |entries| => TextureInfo(names[i], entries[i].tag))
  }

  /** After DestroyGLTextures every tag still resolves to the same slot, and
      FindTextureID now answers the regenerated name instead of the handle
      that was loaded. */
  lemma DestroyedRegistryStillResolves(entries: seq<TextureInfo>, names: seq<GLuint>, tag: string)
    requires |names| == |entries|
    ensures |Regenerated(entries, names)| == |entries|
    ensures FirstMatch(TextureTags(Regenerated(entries, names)), tag) == FirstMatch(TextureTags(entries), tag)
    ensures FirstMatch(TextureTags(entries), tag) >= 0 ==>
      TextureIDOf(Regenerated(entries, names), tag) == AsInt(names[FirstMatch(TextureTags(entries), tag)])
  {
    assert TextureTags(Regenerated(entries, names)) == TextureTags(entries);
  }

  // ---------------------------------------------------------------------
  // Material catalog: specification functions and their lemmas
  // ---------------------------------------------------------------------

  function MaterialTag(m: Material): string
  {
    m.tag
  }

  /** The tags FindMaterial compares, in catalog order. */
  function MaterialTags(catalog: seq<Material>): seq<string>
  {
    Tags(catalog, MaterialTag)
  }

  /** `a` carries the five lighting parameters of `b`. */
  predicate SameSurface(a: Material, b: Material)
  {
    && a.ambientColor == b.ambientColor
    && a.ambientStrength == b.ambientStrength
    && a.diffuseColor == b.diffuseColor
    && a.specularColor == b.specularColor
    && a.shininess == b.shininess
  }

  /** The five field copies of FindMaterial: `dst` takes the parameters of `src` and keeps its own tag. */
  function CopySurface(dst: Material, src: Material): Material
  {
    dst.(ambientColor := src.ambientColor,
         ambientStrength := src.ambientStrength,
         diffuseColor := src.diffuseColor,
         specularColor := src.specularColor,
         shininess := src.shininess)
  }

  /** The material FindMaterial leaves in its out-parameter, which held `material` on entry. */
  function MaterialLookup(catalog: seq<Material>, tag: string, material: Material): (r: Material)
    ensures r.tag == material.tag
    ensures (forall i :: 0 <= i < |catalog| ==> catalog[i].tag != tag) ==> r == material
    ensures forall i :: 0 <= i < |catalog| && catalog[i].tag == tag &&
                        (forall j :: 0 <= j < i ==> catalog[j].tag != tag)
                        ==> SameSurface(r, catalog[i])
  {
    var k := FirstMatch(MaterialTags(catalog), tag);
    if k == -1 then material else CopySurface(material, catalog[k])
  }

  /** Materials defined later never change what an earlier definition
      resolves to; a tag only the later ones carry resolves there. */
  lemma {:induction false} CatalogExtensionKeepsLookups(
    catalog: seq<Material>, table: seq<Material>, tag: string, material: Material)
    ensures MaterialLookup(catalog + table, tag, material) ==
      (if FirstMatch(MaterialTags(catalog), tag) != -1 then MaterialLookup(catalog, tag, material)
       else MaterialLookup(table, tag, material))
  {
    assert MaterialTags(catalog + table) == MaterialTags(catalog) + MaterialTags(table);
    FirstMatchConcat(MaterialTags(catalog), MaterialTags(table), tag);
    var k := FirstMatch(MaterialTags(table), tag);
    if FirstMatch(MaterialTags(catalog), tag) == -1 && k != -1 {
      assert (catalog + table)[|catalog| + k] == table[k];
    }
  }

  // ---------------------------------------------------------------------
  // Shader-state bridge: the writes each setter makes, and the uniform
  // state the log then holds
  // ---------------------------------------------------------------------

  function ModelMatrix(scaleXYZ: Vec3, xDegrees: real, yDegrees: real, zDegrees: real, positionXYZ: Vec3): Transform
  {
    Product(Product(Product(Product(
      Translate(positionXYZ), RotateX(Radians(xDegrees))), RotateY(Radians(yDegrees))), RotateZ(Radians(zDegrees))),
      Scale(scaleXYZ))
  }

  function SolidColorWrites(color: Vec4): seq<UniformWrite>
  {
    [UniformWrite(UseTextureName, IntValue(0)), UniformWrite(ColorValueName, Vec4Value(color))]
  }

  function TextureWrites(slot: int): seq<UniformWrite>
  {
    [UniformWrite(UseTextureName, IntValue(1)), UniformWrite(TextureValueName, SamplerValue(slot))]
  }

  function MaterialWrites(m: Material): seq<UniformWrite>
  {
    [ UniformWrite(AmbientColorName, Vec3Value(m.ambientColor)),
      UniformWrite(AmbientStrengthName, FloatValue(m.ambientStrength)),
      UniformWrite(DiffuseColorName, Vec3Value(m.diffuseColor)),
      UniformWrite(SpecularColorName, Vec3Value(m.specularColor)),
      UniformWrite(ShininessName, FloatValue(m.shininess)) ]
  }

  /** After SetShaderColor's writes the shader samples no texture and uses
      the colour; no other uniform changes. */
  lemma SolidColorUpload(log: seq<UniformWrite>, color: Vec4)
    ensures Uniforms(log + SolidColorWrites(color)) ==
      Uniforms(log)[UseTextureName := IntValue(0)][ColorValueName := Vec4Value(color)]
  {
    var w := SolidColorWrites(color);
    assert log + w == (log + [w[0]]) + [w[1]];
    UniformsSnoc(log, w[0]);
    UniformsSnoc(log + [w[0]], w[1]);
  }

  /** After SetShaderTexture's writes the log holds bUseTexture = 1 and
      objectTexture = `slot`, a miss's -1 included; no other uniform changes. */
  lemma TextureUpload(log: seq<UniformWrite>, slot: int)
    ensures Uniforms(log + TextureWrites(slot)) ==
      Uniforms(log)[UseTextureName := IntValue(1)][TextureValueName := SamplerValue(slot)]
  {
    var w := TextureWrites(slot);
    assert log + w == (log + [w[0]]) + [w[1]];
    UniformsSnoc(log, w[0]);
    UniformsSnoc(log + [w[0]], w[1]);
  }

  /** SetShaderMaterial's five writes set all five material fields of the
      shader, never a part of them, and change no other uniform. */
  lemma MaterialUpload(log: seq<UniformWrite>, m: Material)
    ensures Uniforms(log + MaterialWrites(m)) ==
      Uniforms(log)
        [AmbientColorName := Vec3Value(m.ambientColor)]
        [AmbientStrengthName := FloatValue(m.ambientStrength)]
        [DiffuseColorName := Vec3Value(m.diffuseColor)]
        [SpecularColorName := Vec3Value(m.specularColor)]
        [ShininessName := FloatValue(m.shininess)]
  {
    var w := MaterialWrites(m);
    var l1 := log + [w[0]];
    var l2 := l1 + [w[1]];
    var l3 := l2 + [w[2]];
    var l4 := l3 + [w[3]];
    assert log + w == l4 + [w[4]];
    UniformsSnoc(log, w[0]);
    UniformsSnoc(l1, w[1]);
    UniformsSnoc(l2, w[2]);
    UniformsSnoc(l3, w[3]);
    UniformsSnoc(l4, w[4]);
  }

  // ---------------------------------------------------------------------
  // The scene manager object
  // ---------------------------------------------------------------------

  class SceneManager {
    /** m_pShaderManager: may be null, in which case the setters write nothing. */
    var shaderManager: ShaderManager?
    /** m_textureIDs: the registry's fixed array of slots. */
    var textureIDs: array<TextureInfo>
    /** m_loadedTextures: how many leading slots are in use. */
    var loadedTextures: nat
    /** m_objectMaterials: the material catalog, in definition order. */
    var objectMaterials: seq<Material>

    ghost predicate Valid()
      reads this
    {
      textureIDs.Length == MaxTextures && loadedTextures <= MaxTextures
    }

    /** The registered entries, in load order (= texture unit order). */
    ghost function Registry(): seq<TextureInfo>
      reads this, textureIDs
      requires Valid()
    {
      textureIDs[..loadedTextures]
    }

    constructor (pShaderManager: ShaderManager?)
      ensures Valid() && fresh(textureIDs)
      ensures shaderManager == pShaderManager
      ensures loadedTextures == 0 && objectMaterials == []
    {
      shaderManager := pShaderManager;
      textureIDs := new TextureInfo[MaxTextures](_ => TextureInfo(0, ""));
      loadedTextures := 0;
      objectMaterials := [];
    }

    /** Register the texture decoded into `image` under `tag`. `textureID` is
        the name the device generates for it. The entry is appended only when
        decoding succeeded with 3 or 4 channels; otherwise nothing changes. */
    method CreateGLTexture(tag: string, image: Decoded, textureID: GLuint) returns (ok: bool)
      requires Valid()
      requires image.Decoded? && SupportedChannels(image.channels) ==> loadedTextures < MaxTextures
      modifies this`loadedTextures, textureIDs
      ensures Valid()
      ensures ok <==> image.Decoded? && SupportedChannels(image.channels)
      ensures ok ==> loadedTextures == old(loadedTextures) + 1
      ensures ok ==> Registry() == old(Registry()) + [TextureInfo(textureID, tag)]
      ensures !ok ==> loadedTextures == old(loadedTextures) && textureIDs[..] == old(textureIDs[..])
      ensures forall i :: loadedTextures <= i < MaxTextures ==> textureIDs[i] == old(textureIDs[i])
    {
      if image.Decoded? {
        if image.channels == 3 || image.channels == 4 {
          textureIDs[loadedTextures] := TextureInfo(textureID, tag);
          loadedTextures := loadedTextures + 1;
          return true;
        } else {
          return false;
        }
      }
      return false;
    }

    /** Bind entry i to texture unit i, for every registered entry in order. */
    method BindGLTextures() returns (bindings: seq<Binding>)
      requires Valid()
      ensures |bindings| == loadedTextures
      ensures forall i :: 0 <= i < |bindings| ==> bindings[i] == Binding(i, textureIDs[i].id)
    {
      bindings := [];
      for i := 0 to loadedTextures
        invariant |bindings| == i
        invariant forall j :: 0 <= j < i ==> bindings[j] == Binding(j, textureIDs[j].id)
      {
        bindings := bindings + [Binding(i, textureIDs[i].id)];
      }
    }

    /** As written: ask the device for a new name into every registered entry
        (`names` are the names it hands out). Tags and count are kept. */
    method DestroyGLTextures(names: seq<GLuint>)
      requires Valid() && |names| == loadedTextures
      modifies textureIDs
      ensures Valid() && loadedTextures == old(loadedTextures)
      ensures Registry() == Regenerated(old(Registry()), names)
      ensures forall i :: loadedTextures <= i < MaxTextures ==> textureIDs[i] == old(textureIDs[i])
    {
      for i := 0 to loadedTextures
        invariant forall j :: 0 <= j < i ==> textureIDs[j] == TextureInfo(names[j], old(textureIDs[j]).tag)
        invariant forall j :: i <= j < MaxTextures ==> textureIDs[j] == old(textureIDs[j])
      {
        textureIDs[i] := textureIDs[i].(id := names[i]);
      }
    }

    /** Corrected release: the registry is emptied, so every later lookup
        answers the sentinel. Deleting the device textures is not modelled. */
    method ReleaseGLTextures()
      requires Valid()
      modifies this`loadedTextures
      ensures Valid() && Registry() == []
      ensures forall tag :: FirstMatch(TextureTags(Registry()), tag) == -1
    {
      loadedTextures := 0;
    }

    /** The handle of the first entry tagged `tag`, read as int, or -1. */
    method FindTextureID(tag: string) returns (textureID: int)
      requires Valid()
      ensures textureID == TextureIDOf(Registry(), tag)
    {
      textureID := -1;
      var index := 0;
      var found := false;
      while index < loadedTextures && !found
        invariant 0 <= index <= loadedTextures
        invariant forall j :: 0 <= j < index ==> textureIDs[j].tag != tag
        invariant found ==> index < loadedTextures && textureIDs[index].tag == tag
        invariant textureID == if found then AsInt(textureIDs[index].id) else -1
        decreases loadedTextures - index, if found then 0 else 1
      {
        if textureIDs[index].tag == tag {
          textureID := AsInt(textureIDs[index].id);
          found := true;
        } else {
          index := index + 1;
        }
      }
    }

    /** The slot (= texture unit) of the first entry tagged `tag`, or -1. */
    method FindTextureSlot(tag: string) returns (textureSlot: int)
      requires Valid()
      ensures textureSlot == FirstMatch(TextureTags(Registry()), tag)
    {
      textureSlot := -1;
      var index := 0;
      var found := false;
      while index < loadedTextures && !found
        invariant 0 <= index <= loadedTextures
        invariant forall j :: 0 <= j < index ==> textureIDs[j].tag != tag
        invariant found ==> index < loadedTextures && textureIDs[index].tag == tag
        invariant textureSlot == if found then index else -1
        decreases loadedTextures - index, if found then 0 else 1
      {
        if textureIDs[index].tag == tag {
          textureSlot := index;
          found := true;
        } else {
          index := index + 1;
        }
      }
    }

    /** As written: false on an empty catalog; otherwise true, with the
        parameters of the first entry tagged `tag` copied into `material`
        when there is one and `material` untouched when there is none. */
    method FindMaterial(tag: string, material: Material) returns (ok: bool, result: Material)
      ensures ok <==> |objectMaterials| > 0
      ensures result == MaterialLookup(objectMaterials, tag, material)
    {
      result := material;
      if |objectMaterials| == 0 {
        return false, result;
      }
      var index := 0;
      var found := false;
      while index < |objectMaterials| && !found
        invariant 0 <= index <= |objectMaterials|
        invariant forall j :: 0 <= j < index ==> objectMaterials[j].tag != tag
        invariant found ==> index < |objectMaterials| && objectMaterials[index].tag == tag
        invariant result == if found then CopySurface(material, objectMaterials[index]) else material
        decreases |objectMaterials| - index, if found then 0 else 1
      {
        if objectMaterials[index].tag == tag {
          found := true;
          result := CopySurface(material, objectMaterials[index]);
        } else {
          index := index + 1;
        }
      }
      return true, result;
    }

    /** Corrected lookup: succeeds exactly when some entry carries `tag`, and then yields the first one. */
    method FindMaterialChecked(tag: string) returns (found: bool, result: Material)
      ensures found <==> FirstMatch(MaterialTags(objectMaterials), tag) != -1
      ensures found ==> result == objectMaterials[FirstMatch(MaterialTags(objectMaterials), tag)]
    {
      found := false;
      result := Material(Vec3(0.0, 0.0, 0.0), 0.0, Vec3(0.0, 0.0, 0.0), Vec3(0.0, 0.0, 0.0), 0.0, "");
      var index := 0;
      while index < |objectMaterials| && !found
        invariant 0 <= index <= |objectMaterials|
        invariant forall j :: 0 <= j < index ==> objectMaterials[j].tag != tag
        invariant found ==> index < |objectMaterials| && result == objectMaterials[index] && result.tag == tag
        decreases |objectMaterials| - index, if found then 0 else 1
      {
        if objectMaterials[index].tag == tag {
          found := true;
          result := objectMaterials[index];
        } else {
          index := index + 1;
        }
      }
    }

    /** Append each material of `table` to the catalog, in order. */
    method DefineObjectMaterials(table: seq<Material>)
      modifies this`objectMaterials
      ensures objectMaterials == old(objectMaterials) + table
    {
      for i := 0 to |table|
        invariant objectMaterials == old(objectMaterials) + table[..i]
      {
        objectMaterials := objectMaterials + [table[i]];
        assert table[..i + 1] == table[..i] + [table[i]];
      }
    }

    /** Upload the model matrix Translate * RotateX * RotateY * RotateZ * Scale. */
    method SetTransformations(scaleXYZ: Vec3, xDegrees: real, yDegrees: real, zDegrees: real, positionXYZ: Vec3)
      modifies shaderManager
      ensures shaderManager != null ==>
        shaderManager.log == old(shaderManager.log) +
          [UniformWrite(ModelName, Mat4Value(ModelMatrix(scaleXYZ, xDegrees, yDegrees, zDegrees, positionXYZ)))]
    {
      var modelView := ModelMatrix(scaleXYZ, xDegrees, yDegrees, zDegrees, positionXYZ);
      if shaderManager != null {
        shaderManager.Write(ModelName, Mat4Value(modelView));
      }
    }

    /** Switch the shader to a solid colour: texturing off, then the colour. */
    method SetShaderColor(redColorValue: real, greenColorValue: real, blueColorValue: real, alphaValue: real)
      modifies shaderManager
      ensures shaderManager != null ==>
        shaderManager.log == old(shaderManager.log) +
          SolidColorWrites(Vec4(redColorValue, greenColorValue, blueColorValue, alphaValue))
    {
      var currentColor := Vec4(redColorValue, greenColorValue, blueColorValue, alphaValue);
      if shaderManager != null {
        shaderManager.Write(UseTextureName, IntValue(0));
        shaderManager.Write(ColorValueName, Vec4Value(currentColor));
      }
    }

    /** Switch the shader to texturing from the unit of `textureTag`'s slot, which is -1 for an unknown tag. */
    method SetShaderTexture(textureTag: string)
      requires Valid()
      modifies shaderManager
      ensures shaderManager != null ==>
        shaderManager.log == old(shaderManager.log) + TextureWrites(FirstMatch(TextureTags(Registry()), textureTag))
    {
      if shaderManager != null {
        shaderManager.Write(UseTextureName, IntValue(1));
        var textureID := FindTextureSlot(textureTag);
        shaderManager.Write(TextureValueName, SamplerValue(textureID));
      }
    }

    /** Upload the texture coordinate scale. */
    method SetTextureUVScale(u: real, v: real)
      modifies shaderManager
      ensures shaderManager != null ==>
        shaderManager.log == old(shaderManager.log) + [UniformWrite(UVScaleName, Vec2Value(Vec2(u, v)))]
    {
      if shaderManager != null {
        shaderManager.Write(UVScaleName, Vec2Value(Vec2(u, v)));
      }
    }

    /** As written: on a non-empty catalog, upload the five fields of what
        FindMaterial leaves in a local that starts out `indeterminate`
        (an uninitialised OBJECT_MATERIAL). The shader manager is used
        without a null check. */
    method SetShaderMaterial(materialTag: string, indeterminate: Material)
      requires |objectMaterials| > 0 ==> shaderManager != null
      modifies shaderManager
      ensures shaderManager != null ==>
        shaderManager.log == old(shaderManager.log) +
          (if |objectMaterials| > 0
           then MaterialWrites(MaterialLookup(objectMaterials, materialTag, indeterminate))
           else [])
      ensures shaderManager != null && |objectMaterials| > 0 &&
              (forall i :: 0 <= i < |objectMaterials| ==> objectMaterials[i].tag != materialTag) ==>
        shaderManager.log == old(shaderManager.log) + MaterialWrites(indeterminate)
    {
      if |objectMaterials| > 0 {
        var material := indeterminate;
        var bReturn, found := FindMaterial(materialTag, material);
        if bReturn {
          material := found;
          shaderManager.Write(AmbientColorName, Vec3Value(material.ambientColor));
          shaderManager.Write(AmbientStrengthName, FloatValue(material.ambientStrength));
          shaderManager.Write(DiffuseColorName, Vec3Value(material.diffuseColor));
          shaderManager.Write(SpecularColorName, Vec3Value(material.specularColor));
          shaderManager.Write(ShininessName, FloatValue(material.shininess));
        }
      }
    }

    /** Corrected upload: the five fields of the first entry tagged
        `materialTag`, and nothing at all when no entry carries it or the
        shader manager is null. */
    method SetShaderMaterialChecked(materialTag: string)
      modifies shaderManager
      ensures shaderManager != null ==>
        var k := FirstMatch(MaterialTags(objectMaterials), materialTag);
        shaderManager.log == old(shaderManager.log) + (if k == -1 then [] else MaterialWrites(objectMaterials[k]))
    {
      var found, material := FindMaterialChecked(materialTag);
      if found && shaderManager != null {
        shaderManager.Write(AmbientColorName, Vec3Value(material.ambientColor));
        shaderManager.Write(AmbientStrengthName, FloatValue(material.ambientStrength));
        shaderManager.Write(DiffuseColorName, Vec3Value(material.diffuseColor));
        shaderManager.Write(SpecularColorName, Vec3Value(material.specularColor));
        shaderManager.Write(ShininessName, FloatValue(material.shininess));
      }
    }
  }

  /** Loading "a", "b" and "a" again registers three entries; the tag "a"
      still resolves to slot 0 and its first handle. */
  method ShadowingScenario() returns (slot: int, id: int, count: nat)
    ensures slot == 0 && id == 1 && count == 3
  {
    var scene := new SceneManager(null);
    var ok := scene.CreateGLTexture("a", Decoded(2, 2, 3), 1);
    ok := scene.CreateGLTexture("b", Decoded(2, 2, 4), 2);
    ok := scene.CreateGLTexture("a", Decoded(2, 2, 3), 3);
    assert scene.Registry() == [TextureInfo(1, "a"), TextureInfo(2, "b"), TextureInfo(3, "a")];
    slot := scene.FindTextureSlot("a");
    id := scene.FindTextureID("a");
    count := scene.loadedTextures;
  }
}
