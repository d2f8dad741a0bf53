# Scene manager texture registry, material catalog and shader bridge

This Dafny project models the resource part of `SceneManager` in the
CS-330 final project (`7-1_FinalProjectMilestones/Source/SceneManager.cpp`):

- **Texture registry.** `m_textureIDs` is a fixed array of 16 `{ID, tag}` slots, and `m_loadedTextures` counts the slots in use.
  - `CreateGLTexture` appends an entry only when the image decoded and has 3 or 4 channels.
  - `BindGLTextures` binds entry *i* to texture unit *i*.
  - `FindTextureID` and `FindTextureSlot` scan in load order. The first match wins; a miss gives `-1`.
  - `DestroyGLTextures` runs over every registered entry.
- **Material catalog.** `m_objectMaterials` is filled by `DefineObjectMaterials`. `FindMaterial` looks entries up by tag with its asymmetric result:
  - `false` only on an empty catalog;
  - otherwise `true`, whether or not the tag matched.
- **Shader-state bridge.** `SetTransformations`, `SetShaderColor`, `SetShaderTexture`, `SetTextureUVScale` and `SetShaderMaterial` push uniforms into the shader manager.

The external shader manager is modelled as an append-only log of `(uniform name, value)` writes (`ShaderSink.ShaderManager`). `ShaderSink.Uniforms` reads that log as uniform state: each name holds its last written value, and every write counts as accepted (see `Scene.TextureUpload` under Left out for the one write a device refuses). A null `m_pShaderManager` is a null `ShaderManager?` reference. The setters other than `SetShaderMaterial` guard against it (lines 277, 303, 319 and 337), so with a null sink they have nothing in their frame to change.

Files:
- `tag_lookup.dfy` (module `TagLookup`): the first-match scan shared by the registry and the catalog, and its behaviour under appends.
- `shader_sink.dfy` (module `ShaderSink`): uniform values, the write log and last-write-wins state.
- `scene_manager.dfy` (module `Scene`): the entities, specification functions, lemmas and the class `SceneManager`.

Modelling choices:
- Image decoding (`stbi_load`) is a parameter of type `Decoded`: a failure, or width, height and channel count.
- The texture name that `glGenTextures` produces is a parameter of type `GLuint`, an unsigned 32-bit value.
- `FindTextureID` converts the `GLuint` to `int`. The model reads those 32 bits as two's complement (`AsInt`). So the sentinel `-1` is distinguishable from a real handle only when no handle is `0xFFFFFFFF`.
- glm floats are carried as `real`, because the bridge only passes them through.
- The model matrix is a symbolic product of its glm factors. The degrees-to-radians conversion stays symbolic.
- The capacity of 16 comes from the comments at lines 132 and 540-541; no code checks it. `CreateGLTexture` therefore requires a free slot, but only on the path that appends.
- The uninitialised local `OBJECT_MATERIAL material` in `SetShaderMaterial` is the parameter `indeterminate`.
- `DefineObjectMaterials` pushes nine literal materials, one after another. The model takes those materials as a table parameter and appends them in order.

Where the code does not do what its own comments and callers expect, the model follows the code:
- `SetShaderMaterial` (lines 357-358) treats the result of `FindMaterial` as "a material was found". Yet `FindMaterial` returns `true` on a non-empty catalog even when no tag matches (line 242).
- The comment on `DestroyGLTextures` (lines 147-148) says it frees the texture memory. The loop calls `glGenTextures` instead (line 154), and it keeps the count and every tag.

Both are recorded under Findings, each with a corrected member.

## Model

| member | source | states |
|---|---|---|
| `TagLookup.FirstMatch` | 7-1_FinalProjectMilestones/Source/SceneManager.cpp:196-205 | the result lies in [-1, n); a non-negative result indexes an entry carrying the tag, and no entry before it (none at all when -1) carries the tag |
| `TagLookup.FirstMatchConcat` | 7-1_FinalProjectMilestones/Source/SceneManager.cpp:170-179 | scanning a + b answers what a answers when a has the tag; otherwise b's answer offset by \|a\|, or -1: later duplicates are shadowed, never overwrite |
| `Scene.AsInt` | 7-1_FinalProjectMilestones/Source/SceneManager.cpp:174 | the GLuint-to-int conversion keeps the 32 bits (result ≡ id mod 2^32, in the int32 range), is the identity on non-negative results, and yields -1 exactly for 0xFFFFFFFF |
| `Scene.TextureIDAgreesWithSlot` | 7-1_FinalProjectMilestones/Source/SceneManager.cpp:164-208 | with no handle equal to 0xFFFFFFFF, FindTextureID's answer is -1 iff FindTextureSlot's is, and otherwise carries the bits of the handle at that slot |
| `Scene.LoadKeepsEarlierLookups` | 7-1_FinalProjectMilestones/Source/SceneManager.cpp:114-117 | after appending an entry, every tag found before keeps its slot and ID, the new tag is found at the old count if it was missing, other tags stay -1 |
| `Scene.DestroyedRegistryStillResolves` | 7-1_FinalProjectMilestones/Source/SceneManager.cpp:150-156 | after DestroyGLTextures every tag still resolves to the same slot, and FindTextureID answers the regenerated name, not the loaded handle |
| `Scene.MaterialLookup` | 7-1_FinalProjectMilestones/Source/SceneManager.cpp:225-240 | the out-material keeps its tag; with no entry for the tag it is unchanged; otherwise it carries the five parameters of the first entry with the tag |
| `Scene.CatalogExtensionKeepsLookups` | 7-1_FinalProjectMilestones/Source/SceneManager.cpp:383-494 | appending materials never changes what an already defined tag resolves to; a tag only the new ones carry resolves among them |
| `Scene.SolidColorUpload` | 7-1_FinalProjectMilestones/Source/SceneManager.cpp:303-307 | after SetShaderColor's writes the shader sees bUseTexture = 0 and objectColor = the colour, every other uniform unchanged |
| `Scene.TextureUpload` | 7-1_FinalProjectMilestones/Source/SceneManager.cpp:319-326 | in the log's last-write view, after SetShaderTexture's writes bUseTexture = 1 and objectTexture = the slot (-1 on a miss), every other uniform unchanged |
| `Scene.MaterialUpload` | 7-1_FinalProjectMilestones/Source/SceneManager.cpp:358-365 | after the material writes all five material.* uniforms hold the material's fields, every other uniform unchanged |
| `Scene.SceneManager.constructor` | 7-1_FinalProjectMilestones/Source/SceneManager.cpp:34-38 | a scene manager over the given shader manager; the empty registry of 16 slots and the empty catalog are assumed of the unseen header (see Left out) |
| `Scene.SceneManager.CreateGLTexture` | 7-1_FinalProjectMilestones/Source/SceneManager.cpp:62-126 | returns true iff decoding succeeded with 3 or 4 channels; then {ID, tag} is written at the old count, the count grows by one and earlier entries are unchanged; otherwise the array and the count are unchanged |
| `Scene.SceneManager.BindGLTextures` | 7-1_FinalProjectMilestones/Source/SceneManager.cpp:134-142 | exactly m_loadedTextures bindings in order, unit i bound to entry i's ID; the registry is not modified |
| `Scene.SceneManager.DestroyGLTextures` | 7-1_FinalProjectMilestones/Source/SceneManager.cpp:150-156 | as written: every registered entry gets a newly generated name and keeps its tag; the count and the slots past it are unchanged |
| `Scene.SceneManager.ReleaseGLTextures` | 7-1_FinalProjectMilestones/Source/SceneManager.cpp:150-156 | corrected: the registry is empty afterwards, so every tag lookup answers -1 |
| `Scene.SceneManager.FindTextureID` | 7-1_FinalProjectMilestones/Source/SceneManager.cpp:164-182 | the int reading of the ID of the first entry carrying the tag, or -1; the registry is not modified |
| `Scene.SceneManager.FindTextureSlot` | 7-1_FinalProjectMilestones/Source/SceneManager.cpp:190-208 | the smallest slot below m_loadedTextures carrying the tag, or -1; the registry is not modified |
| `Scene.SceneManager.FindMaterial` | 7-1_FinalProjectMilestones/Source/SceneManager.cpp:216-243 | false iff the catalog is empty; the out-material is the MaterialLookup result: untouched on an empty catalog or a miss, the first match's five fields otherwise |
| `Scene.SceneManager.FindMaterialChecked` | 7-1_FinalProjectMilestones/Source/SceneManager.cpp:216-243 | corrected: reports success iff some entry carries the tag, and then yields the first such entry |
| `Scene.SceneManager.DefineObjectMaterials` | 7-1_FinalProjectMilestones/Source/SceneManager.cpp:383-494 | the catalog afterwards is the old catalog followed by the table, in order |
| `Scene.SceneManager.SetTransformations` | 7-1_FinalProjectMilestones/Source/SceneManager.cpp:251-281 | with a sink, exactly one write of "model" holding Translate · RotateX · RotateY · RotateZ · Scale; nothing without a sink |
| `Scene.SceneManager.SetShaderColor` | 7-1_FinalProjectMilestones/Source/SceneManager.cpp:289-308 | with a sink, exactly bUseTexture = 0 then objectColor = (r, g, b, a) appended; nothing without a sink |
| `Scene.SceneManager.SetShaderTexture` | 7-1_FinalProjectMilestones/Source/SceneManager.cpp:316-327 | with a sink, exactly bUseTexture = 1 then objectTexture = FindTextureSlot(tag), possibly -1; nothing without a sink |
| `Scene.SceneManager.SetTextureUVScale` | 7-1_FinalProjectMilestones/Source/SceneManager.cpp:335-341 | with a sink, exactly one write of UVscale = (u, v); nothing without a sink |
| `Scene.SceneManager.SetShaderMaterial` | 7-1_FinalProjectMilestones/Source/SceneManager.cpp:349-367 | as written: on a non-empty catalog the five material.* writes in the order ambientColor, ambientStrength, diffuseColor, specularColor, shininess, carrying what FindMaterial left in the local, which on a miss is exactly the uninitialised local's five fields; nothing on an empty catalog |
| `Scene.SceneManager.SetShaderMaterialChecked` | 7-1_FinalProjectMilestones/Source/SceneManager.cpp:349-367 | corrected: the five writes of the first entry carrying the tag, and nothing at all on a miss or without a sink |
| `Scene.ShadowingScenario` | 7-1_FinalProjectMilestones/Source/SceneManager.cpp:190-208 | loading "a", "b", "a" gives three entries, and "a" resolves to slot 0 and the first handle |

## Left out

- OpenGL device effects are not modelled: texture generation, parameters, image upload, mipmaps, `glActiveTexture` and `glBindTexture`. Handles are opaque `GLuint`s, and binding is a returned list of (unit, handle) pairs.
- `stb_image` decoding and the vertical-flip flag are not modelled; the decoder's result is a parameter. The same goes for the image memory, which leaks on the unsupported-channel path.
- `CreateGLTexture` also logs to `std::cout`, and on the unsupported-channel path it leaves a generated device texture behind. Neither is modelled.
- Scene.TextureUpload: `Uniforms` treats every write as accepted, so on a missed tag it reports objectTexture = -1. A device sets a sampler uniform only through `glUniform1i`, and it refuses a value outside [0, units) with INVALID_VALUE. So on a miss the shader keeps the previous draw's texture unit and never sees -1. The write log stated by `Scene.SceneManager.SetShaderTexture` is exact; only the observed-state reading stops short. A slot found by `FindTextureSlot` is always below 16, within the unit count of any conforming device.
- Scene.SceneManager.SetShaderMaterial: the model requires a non-null sink whenever the catalog is non-empty. The source has no null check at lines 360-364, unlike the four other setters, so a null `m_pShaderManager` with a non-empty catalog dereferences a null pointer. Dafny cannot express that dereference as a behaviour, so the precondition excludes it. `Scene.SceneManager.SetShaderMaterialChecked` adds the guard.
- Scene.SceneManager.SetTransformations: the matrices are symbolic. glm's radians conversion and floating-point matrix products are not evaluated, so only the composition order is stated.
- `SetupSceneLights` is not modelled. It writes configuration literals to the shader manager, also without a null check.
- `LoadSceneTextures` is not modelled: it is a fixed sequence of `CreateGLTexture` calls over literal file names, followed by `BindGLTextures` (lines 547-571).
- `PrepareScene` is not modelled: it calls `LoadSceneTextures`, `DefineObjectMaterials` and `SetupSceneLights`, then six `Load*Mesh` calls into `ShapeMeshes` (lines 582-604). Neither `SetupSceneLights` nor the mesh library is modelled.
- The material literal values in `DefineObjectMaterials` are left out.
- `RenderScene`, `RenderPencil`, `RenderCards` and `RenderDice` are not modelled: they are per-object placement data plus draw calls into the mesh library, and `ShapeMeshes` is not part of this model.
- The destructor (`~SceneManager`) only frees memory and calls `DestroyGLTextures`, so it is not modelled separately.
- `SceneManager.h` is not part of this model. The 16-slot capacity comes from the comments at lines 132 and 540-541.
- Scene.SceneManager.constructor: the model assumes the unseen header initialises `m_loadedTextures` to 0. No line of `SceneManager.cpp` initialises it: the constructor (lines 34-38) sets only `m_pShaderManager` and `m_basicMeshes`. Without such an initialiser, the first `CreateGLTexture` would write at an indeterminate index (line 115).
- `ViewManager.cpp` is not part of this model: window creation, input callbacks, camera movement, frame timing and projection matrices.

## Findings

| source | as written | input that shows it | evidently intended | confidence | as-written member | corrected member |
|---|---|---|---|---|---|---|
| 7-1_FinalProjectMilestones/Source/SceneManager.cpp:216-243, 349-365 | `FindMaterial` returns `true` on a non-empty catalog even when no tag matches. `SetShaderMaterial` then uploads its uninitialised local `OBJECT_MATERIAL`. | A catalog holding only "metalMaterial", and `SetShaderMaterial("missing")`: five material uniforms receive indeterminate values. | A miss uploads nothing and leaves the shader's material state as it was. | high (not executed) | `Scene.SceneManager.SetShaderMaterial` (its miss clause: the log grows by exactly `MaterialWrites(indeterminate)`) | `Scene.SceneManager.SetShaderMaterialChecked` (using `Scene.SceneManager.FindMaterialChecked`) |
| 7-1_FinalProjectMilestones/Source/SceneManager.cpp:150-156 | `DestroyGLTextures` calls `glGenTextures` on every entry instead of `glDeleteTextures`. Every handle is replaced by a new name, nothing is freed, and the count is kept. | A registry holding "a" with handle 1, then `DestroyGLTextures`: `FindTextureSlot("a")` is still 0, and `FindTextureID("a")` answers the newly generated name. | Free every texture and empty the registry, so that later lookups answer -1. | high (not executed) | `Scene.DestroyedRegistryStillResolves` (for `Scene.SceneManager.DestroyGLTextures`) | `Scene.SceneManager.ReleaseGLTextures` |
