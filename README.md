# game-rs engine core, modelled in Dafny

This project models the sequential core of the game-rs engine
(Kek5chen/game-rs) and proves properties of it:

- the world's append-only object table and list of scene roots;
- the transform with its cached translation, rotation, scale and combined
  matrices, including the `invert_position` flag, which only takes effect
  when the translation is next recomputed;
- the keyboard and mouse input state, with its per-frame "just updated"
  keys and its edge-detection rule;
- the asset registries for meshes, materials, shaders and bind-group
  layouts. Each hands out increasing ids, never removes an entry, and
  builds device-side runtime data lazily or, for layouts, all at once;
- the mesh defaults (the fallback material range) and the constant triangle
  and cube tables;
- the device-independent steps of the scene loader:
  - index-driven attribute extraction;
  - stream normalisation;
  - the contiguous per-mesh material vertex ranges;
  - material-index remapping;
  - first-match material property lookup with defaults;
  - the RGBA-to-BGRA texture swizzle;
  - the depth-first creation of one object per scene node;
- the camera and gravity components;
- the 60-frame running window of frame times in the example programs.

Every source file is its own module:

| module | file | source |
|---|---|---|
| `Worlds` | `world.dfy` | `src/world.rs` |
| `Transforms` | `transform.dfy` | `src/transform.rs` |
| `Input` | `input.dfy` | `src/input/input_manager.rs` |
| `MeshManagement` | `meshmanager.dfy` | the mesh registry |
| `Materials` | `materialmanager.dfy` | the material registry |
| `Shaders` | `shadermanager.dfy` | the shader registry |
| `BindGroupLayouts` | `bindgroup_layout_manager.dfy` | the bind-group layout registry |
| `Meshes` | `mesh.dfy` | mesh types |
| `Buffers` | `buffer.dfy` | the constant geometry |
| `SceneData` | `scene_data.dfy` | the scene loader's pure data plumbing |
| `SceneLoader` | `scene_loader.dfy` | the scene loader's `load_rec`, `load_data`, the material and texture steps |
| `Cameras` | `camera.dfy` | the camera component |
| `Gravity` | `gravity.dfy` | the gravity component |
| `FrameTimes` | `frame_times.dfy` | the examples' `update` hook |

A few shared modules support these:

- `Wrappers` (Rust's `Option`);
- `Primitives` (`u8`, `u32` and the truncating `as u32`);
- `Gpu` (opaque device objects);
- `LinearAlgebra` (vectors and 4x4 matrices);
- `Registries` (the raw-plus-lazy-runtime entry that the mesh and material registries share).

How the model maps the source:

- Objects whose fields the source updates in place are classes:
  - `World`, `GameObject` and `Transform`;
  - `InputManager`;
  - the four managers;
  - `CameraComp`, `CameraData` and `GravityComp`;
  - the frame-time window.

  Their `HashMap`s and `Vec`s are `map` and `seq` fields, which the methods
  reassign.
- `f32` and `f64` are `real`.
- `usize` ids and counts are unbounded `nat`. The `u32` values are bounded
  subsets of `int`, and the scene loader's `u32` vertex counter wraps around
  modulo 2^32.
- A device object (buffer, bind group, layout, shader module, pipeline) is
  the device that created it plus the label of its descriptor.
- Cosine, sine and tangent of degrees come from the maths library. They are
  a `Trig` record of functions given to each transform.

Two behaviours of the code are easy to miss, and the model keeps both:

- `Material::init_runtime` takes the normal and shininess texture ids from
  the material's *diffuse* texture (`Materials.ChosenTextures`).
- A key's first-ever press is not recorded as "just updated", so
  `is_key_down` is false for it (`Input.FirstPressScenario`).

## Model

| member | source | states |
|---|---|---|
| Worlds.DefaultTransformComp | src/components/transform.rs:12-20 | the default transform component is all zero, including the scale |
| Worlds.GameObject.constructor | src/world.rs:20-25 | a new object has the given name, no children, the default transform and no drawable |
| Worlds.GameObject.AddChild | src/scene_loader.rs:62 | the child is appended at the end of the object's children, with no duplicate check |
| Worlds.World.constructor | src/world.rs:12-17 | a new world has no objects and no scene roots |
| Worlds.World.NewObject | src/world.rs:19-29 | objects grow by exactly one, a fresh object that is the new last element; it has the name, no children and no drawable; the earlier objects and the roots are unchanged |
| Worlds.World.AddChild | src/world.rs:31-33 | the object is appended to the roots, earlier roots keep their order, duplicates are allowed, and objects are unchanged |
| Transforms.Oriented | src/transform.rs:86-93 | the translation vector is the negated position exactly when the flag is set, and the position otherwise |
| LinearAlgebra.NeutralMatrices | src/transform.rs:16-27 | the zero translation, the unit scale and the zero rotation are the identity, so `new`'s identity caches agree with its fields |
| Transforms.Transform.constructor | src/transform.rs:16-27 | zero position and rotation, unit scale, all four matrices identity, the flag false, the caches consistent |
| Transforms.Transform.Position | src/transform.rs:35-37 | the stored position, never negated, whatever the flag |
| Transforms.Transform.Rotation | src/transform.rs:55-57 | the stored rotation |
| Transforms.Transform.Scale | src/transform.rs:75-77 | the stored scale |
| Transforms.Transform.FullMatrix | src/transform.rs:109-111 | on consistent caches, the combined matrix is translation, then rotation, then scale |
| Transforms.Transform.SetPosition | src/transform.rs:29-33 | the position is replaced, the translation is recomputed with the current flag, the combined matrix is rebuilt, and rotation and scale are unchanged |
| Transforms.Transform.SetInvertPosition | src/transform.rs:39-41 | only the flag changes; no matrix is recomputed, and the caches stay consistent with the flag's value at the last translation recomputation |
| Transforms.Transform.Translate | src/transform.rs:43-47 | the position becomes the old position plus `other`; the rotation, scale, their matrices and the flag are unchanged |
| Transforms.Transform.SetRotation | src/transform.rs:49-53 | the rotation is replaced and its matrix is Rx * Ry * Rz of it; the translation and scale matrices are unchanged |
| Transforms.Transform.Rotate | src/transform.rs:59-63 | the rotation becomes the old rotation plus `r`; position and scale are unchanged |
| Transforms.Transform.SetNonuniformScale | src/transform.rs:65-69 | the scale is replaced and its matrix rebuilt; position and rotation are unchanged |
| Transforms.Transform.SetUniformScale | src/transform.rs:71-73 | the same effect as a non-uniform scale of (f, f, f) |
| Transforms.Transform.RegenerateMatrices | src/transform.rs:79-84 | every cache is recomputed from the fields; afterwards the translation honours the current flag |
| Transforms.Transform.RecalculatePosMatrix | src/transform.rs:86-93 | translation by -pos when the flag holds, else by pos |
| Transforms.Transform.RecalculateRotMatrix | src/transform.rs:95-99 | Rx(rot.x) * Ry(rot.y) * Rz(rot.z), in degrees, in that order |
| Transforms.Transform.RecalculateScaleMatrix | src/transform.rs:101-103 | the non-uniform scale matrix of the scale |
| Transforms.Transform.RecalculateCombinedMatrix | src/transform.rs:105-107 | pos_mat * rot_mat * scale_mat |
| Input.ScrollY | src/input/input_manager.rs:39-42 | the vertical amount of a line or pixel wheel delta |
| Input.FirstPressNotRecorded | src/input/input_manager.rs:29-31 | a press of a key with no recorded state is not recorded as an update of this frame |
| Input.RepeatedPressNotRecorded | src/input/input_manager.rs:29-31 | a press of a key already recorded as pressed is not recorded either |
| Input.InputManager.constructor | src/input/input_manager.rs:16-23 | no key or button states, no updated keys, and a wheel delta of 0 |
| Input.InputManager.ProcessEvent | src/input/input_manager.rs:25-50 | a key event stores the key's state and appends the code iff the event is a release or the key was recorded as released; a wheel event adds its vertical delta; a button event stores the button's state; any other event changes nothing |
| Input.InputManager.GetKeyState | src/input/input_manager.rs:52-54 | the recorded state, and Released for a key never seen |
| Input.KeyQueries | src/input/input_manager.rs:56-70 | pressed and up read the recorded state (never seen counts as up); down and released additionally need the key in this frame's updates |
| Input.QueriesPartition | src/input/input_manager.rs:56-70 | pressed and up are exact complements; down implies pressed, released implies up, never both; down or released iff the key was updated this frame |
| Input.InputManager.NextFrame | src/input/input_manager.rs:76-78 | the frame's updates are emptied; key and button states and the wheel delta are unchanged |
| Input.FirstPressScenario | src/input/input_manager.rs:29-33 | from a new manager, a first press leaves the key pressed but not down |
| Input.PressAfterReleaseScenario | src/input/input_manager.rs:25-78 | press, release, next frame, press: the release is seen in its frame only, and the second press is down |
| Registries.RuntimeOf | src/asset_management/meshmanager.rs:45-51 | none for an unknown id, else the stored runtime option |
| Registries.RawOf | src/asset_management/meshmanager.rs:41-43 | some exactly for a known id, holding the stored raw asset |
| Registries.OrInit | src/asset_management/meshmanager.rs:69-87 | for an unknown id, none and no change; built runtime data is returned unchanged; otherwise it is built from the raw asset, stored and returned; keys, raws and every other entry are kept |
| Registries.OrInitIdempotent | src/asset_management/meshmanager.rs:77-85 | a second call changes nothing and gives the same answer |
| Registries.OrInitKeepsBuilt | src/asset_management/materialmanager.rs:214-225 | once built, the runtime data is returned whatever build a later call would use |
| MeshManagement.MeshManager.constructor | src/asset_management/meshmanager.rs:17-23 | no meshes, next id 0 |
| MeshManagement.MeshManager.AddMesh | src/asset_management/meshmanager.rs:25-32 | returns the old next id, which is fresh, stores the mesh without runtime data under it, increments next id, and leaves every other entry unchanged |
| MeshManagement.MeshManager.GetRawMesh | src/asset_management/meshmanager.rs:41-43 | none exactly for an unknown id |
| MeshManagement.MeshManager.GetRuntimeMesh | src/asset_management/meshmanager.rs:45-51 | none for an unknown id or before the runtime data is built |
| MeshManagement.MeshManager.GetRuntimeMeshOrInit | src/asset_management/meshmanager.rs:69-87 | the lazy-build step `OrInit`, with the mesh's runtime data built on the registry's device |
| MeshManagement.MeshManager.InitRuntimeMesh | src/asset_management/meshmanager.rs:61-67 | the same step, with the answer dropped |
| Meshes.Upgrade | src/asset_management/mesh.rs:18-26 | position and normal are copied; texture coordinate, tangent and bitangent are zero |
| Meshes.NewMesh | src/asset_management/mesh.rs:69-88 | vertices and indices are stored as given; non-empty ranges are kept; otherwise there is one fallback-material range from 0 over the indices, or over the vertices when there are none (length taken as u32); the ranges are never empty |
| Meshes.DefaultRangeCoversAll | src/asset_management/mesh.rs:76-82 | below 2^32 elements, the default range covers exactly all indices or vertices |
| Meshes.InitRuntime | src/asset_management/mesh.rs:90-138 | the vertex count is the number of vertices; there is an index buffer iff there are indices, with their count or 0; the buffers are made on the given device |
| Materials.FallbackMaterial | src/asset_management/materialmanager.rs:138-147 | "Fallback Material": white, shininess 0, opaque, the fallback shader and no textures |
| Materials.Flag | src/asset_management/materialmanager.rs:44-45 | `b as u32` is 1 iff b, else 0 |
| Materials.MaterialData | src/asset_management/materialmanager.rs:41-48 | diffuse, shininess and opacity are copied, the padding is 0, and the diffuse and normal texture flags are each 1 iff that texture is set, else 0 |
| Materials.ChosenTextures | src/asset_management/materialmanager.rs:58-77 | all three texture ids come from the diffuse texture when set, and otherwise from their own fallbacks |
| Materials.ChosenTexturesIgnoreNormalAndShininess | src/asset_management/materialmanager.rs:64-71 | changing the material's normal or shininess texture changes no chosen id |
| Materials.InitRuntime | src/asset_management/materialmanager.rs:34-103 | the uniform block is the material's data, and the bind group binds the chosen diffuse texture; the buffer and bind group are made on the device |
| Materials.MaterialManager.constructor | src/asset_management/materialmanager.rs:136-156 | a new shader registry holding only the fallback shader, and exactly the fallback material at id 0 with no runtime data; next id 1 |
| Materials.MaterialManager.AddMaterial | src/asset_management/materialmanager.rs:158-165 | returns the old next id, which is fresh, stores the material without runtime data, increments next id, and leaves every other entry unchanged |
| Materials.MaterialManager.GetRawMaterial | src/asset_management/materialmanager.rs:174-176 | none exactly for an unknown id |
| Materials.MaterialManager.GetRuntimeMaterial | src/asset_management/materialmanager.rs:178-184 | none for an unknown id and before initialisation |
| Materials.MaterialManager.GetRuntimeMaterialOrInit | src/asset_management/materialmanager.rs:204-228 | the lazy-build step `OrInit`, with `Material::init_runtime` as the build |
| Materials.MaterialManager.InitRuntimeMaterial | src/asset_management/materialmanager.rs:194-202 | the same step with the answer dropped |
| Shaders.CombinedShader | src/asset_management/shadermanager.rs:145-229 | the shader is named after the given name, and its module and pipeline are made on the device |
| Shaders.ShaderManager.constructor | src/asset_management/shadermanager.rs:41-131 | the camera, model and material uniform layouts are made on the device with their labels; the registry holds exactly the "Fallback" shader, at FALLBACK_SHADER_ID = 0, and the next id is 1 |
| Shaders.ShaderManager.LoadCombinedShader | src/asset_management/shadermanager.rs:145-229 | a shader named `name` is stored under a fresh id, which is returned; other entries are unchanged |
| Shaders.ShaderManager.AddShader | src/asset_management/shadermanager.rs:231-238 | returns the old next id, which is fresh, inserts under it, increments next id, and changes no other entry |
| Shaders.ShaderManager.GetShader | src/asset_management/shadermanager.rs:240-242 | none exactly for an unregistered id |
| Shaders.ShaderManager.FindShaderByName | src/asset_management/shadermanager.rs:244-250 | some id only when that shader has the name; none iff no stored shader has the name; which match is found is not fixed |
| BindGroupLayouts.BuildLayout | src/asset_management/bindgroup_layout_manager.rs:23-27 | the layout is made on the given device |
| BindGroupLayouts.InitItem | src/asset_management/bindgroup_layout_manager.rs:18-29 | no change when already built, otherwise built from its definition; the definition is never changed |
| BindGroupLayouts.InitItemIdempotent | src/asset_management/bindgroup_layout_manager.rs:18-21 | a second init changes nothing, on any device |
| BindGroupLayouts.Reset | src/asset_management/bindgroup_layout_manager.rs:150 | every runtime is discarded; keys and definitions are kept |
| BindGroupLayouts.InitAll | src/asset_management/bindgroup_layout_manager.rs:158-160 | every layout is built, definitions are kept, and already built layouts are untouched |
| BindGroupLayouts.ResetThenInitAll | src/asset_management/bindgroup_layout_manager.rs:148-154 | after a reset and rebuild, each layout's runtime is built from its own definition on the new device |
| BindGroupLayouts.StandardLayouts | src/asset_management/bindgroup_layout_manager.rs:51-143 | exactly ids 0 to 3, none built |
| BindGroupLayouts.BindGroupLayoutManager.constructor | src/asset_management/bindgroup_layout_manager.rs:44-146 | no device, next id 4, and exactly the four standard layouts (camera, model, material, post-processing) at ids 0 to 3, none built |
| BindGroupLayouts.BindGroupLayoutManager.AddBindGroupLayout | src/asset_management/bindgroup_layout_manager.rs:173-188 | returns the old next id and increments it; the new layout is built iff a device is set; other layouts are unchanged |
| BindGroupLayouts.BindGroupLayoutManager.InitRuntime | src/asset_management/bindgroup_layout_manager.rs:148-154 | the device is set, and every layout is rebuilt on it after its runtime was discarded |
| BindGroupLayouts.BindGroupLayoutManager.InitAllRuntime | src/asset_management/bindgroup_layout_manager.rs:156-161 | needs a device (the source unwraps it); every layout not yet built is built on it, and the others are untouched |
| BindGroupLayouts.BindGroupLayoutManager.GetBindGroupLayout | src/asset_management/bindgroup_layout_manager.rs:163-166 | none for an unknown id or an unbuilt layout, else the built layout |
| Buffers.CubeIndicesInBounds | src/buffer.rs:13-66 | the cube has 24 vertices and 36 indices, each below 24 |
| Buffers.CubeFacePattern | src/buffer.rs:53-66 | index i is 4 * (i / 6) plus corner i % 6 of [0, 1, 2, 1, 3, 2] |
| Buffers.CubeFacesFlat | src/buffer.rs:13-49 | the four vertices of a face share one unit axis normal, and each lies half a unit out along it |
| Buffers.TablesHaveZeroExtras | src/buffer.rs:5-49 | every triangle and cube vertex has zero texture coordinate, tangent and bitangent |
| Buffers.TriangleFacesMinusZ | src/buffer.rs:5-9 | the triangle has 3 vertices, all with normal (0, 0, -1) |
| SceneData.Vec3FromVec3D | src/scene_loader.rs:126-127 | the three coordinates are copied |
| SceneData.Vec2FromVec3D | src/scene_loader.rs:128-129 | x and y are copied and z is dropped |
| SceneData.InRange | src/scene_loader.rs:73 | no longer than the input, every element in range, the same in-range members, and all of them when all are in range |
| SceneData.InRangeAppend | src/scene_loader.rs:71-74 | filtering distributes over concatenation, so the kept indices keep their order and multiplicity |
| SceneData.InRangeSingleton | src/scene_loader.rs:73 | a single index is kept exactly when it is below the source length |
| SceneData.ExtractData | src/scene_loader.rs:67-75 | the converted source element of each in-range index, in order; out-of-range indices are skipped; at most one element per index |
| SceneData.ExtractDataInRange | src/scene_loader.rs:67-75 | with every index in range, element i is the converted source element of index i |
| SceneData.ExtendData | src/scene_loader.rs:77-82 | the existing prefix is kept and exactly the extracted elements follow |
| SceneData.Resize | src/scene_loader.rs:98-111 | length n, the common prefix kept and any new tail zero |
| SceneData.ResizeToOwnLength | src/scene_loader.rs:98-100 | resizing to its own length changes nothing, so skipping the resize for equal lengths is the same |
| SceneData.Normalize | src/scene_loader.rs:85-113 | positions are untouched, and the other four streams are resized to their length with zero |
| SceneData.FaceStreams | src/scene_loader.rs:138-164 | a non-triangle contributes nothing; a triangle contributes the extracted attributes of its indices, and texture coordinates only when the first channel exists |
| SceneData.Triangles | src/scene_loader.rs:138-141 | there are no more triangles than faces |
| SceneData.CountAfterExact | src/scene_loader.rs:137-166 | without overflow, each triangle advances the vertex counter by exactly 3 |
| SceneData.Selected | src/scene_loader.rs:133-136 | the scene meshes the node lists: at most as many as the scene has, each one of the scene's meshes, and none for a node that lists no mesh |
| SceneData.ListedIndices | src/scene_loader.rs:133-136 | the positions below the scene's mesh count that the node lists, each once, strictly increasing |
| SceneData.SelectedInSceneOrder | src/scene_loader.rs:133-136 | the selection has one mesh per listed position, and its k-th mesh is the scene mesh at the k-th listed position, so it is in scene order with no repeats |
| SceneData.Ranges | src/scene_loader.rs:131-172 | one range per selected mesh with its material index; the first starts at 0, each starts where the previous ended, each spans its mesh's triangle count, and the last ends at the final counter |
| SceneData.Zip | src/scene_loader.rs:183-193 | as many vertices as the shortest stream, vertex i built from element i of each stream |
| SceneData.NormalizedZip | src/scene_loader.rs:175-193 | after normalisation there is one vertex per position, with zero attributes where a stream was short |
| SceneData.ExtendFaceAppends | src/scene_loader.rs:142-164 | the face loop body appends the face's streams to the accumulated ones |
| SceneData.ExtendWithTriangle | src/scene_loader.rs:142-164 | for a triangle, every stream is extended by its extracted attributes |
| SceneData.GatherFace | src/scene_loader.rs:138-165 | one pass of the face loop: the streams are extended by the face and the counter advances by 3 (wrapping) exactly for a triangle |
| SceneData.GatherMeshData | src/scene_loader.rs:137-166 | the face loop yields the accumulated streams of all the mesh's faces, and the counter after them |
| SceneData.GatherNodeData | src/scene_loader.rs:131-172 | the mesh loop yields the node's streams and its material ranges |
| SceneLoader.NodeMeshShape | src/scene_loader.rs:175-195 | a node's mesh has one vertex per extracted position and no indices; it keeps the per-mesh ranges, and falls back to one range only when no listed mesh exists |
| SceneLoader.LoadData | src/scene_loader.rs:115-199 | a node without meshes changes neither the registry nor the object; otherwise the node's mesh is registered without runtime data under the registry's next id, which advances by one, and the object draws that id |
| SceneLoader.LoadRec | src/scene_loader.rs:58-65 | the world's earlier objects are kept and the new ones carry the descendants' names in depth-first pre-order; the object's earlier children are kept and the new ones, named after its child nodes, are among the world's new objects; the mesh registry keeps every earlier entry and gains exactly one new id per node with meshes |
| SceneLoader.LoadChild | src/scene_loader.rs:60-64 | one loop step: a new object named after the child is the world's next object and is appended to the parent's children, followed by the child's subtree; the mesh registry only grows |
| SceneLoader.RemapMaterialIndex | src/scene_loader.rs:233-235 | the mapped id when mapped and it fits in u32, else 0 |
| SceneLoader.UpdateMaterialIndices | src/scene_loader.rs:231-241 | each mesh's material index is remapped in place, and nothing else changes |
| SceneLoader.ContainsAt | src/scene_loader.rs:284 | a substring at any position is contained |
| SceneLoader.ContainsNoLonger | src/scene_loader.rs:284 | a contained substring is no longer than the key |
| SceneLoader.FindProperty | src/scene_loader.rs:284 | the first property whose key contains the search key: it matches, no earlier one does, and none exactly when no property matches |
| SceneLoader.FirstMatchWins | src/scene_loader.rs:284 | properties after the first match never change the result |
| SceneLoader.FindData | src/scene_loader.rs:284-287 | the data of the first match, or none |
| SceneLoader.ExtractVec3Property | src/scene_loader.rs:276-303 | the first match's three floats when it is a float array of length exactly 3, otherwise the default |
| SceneLoader.ExtractStringProperty | src/scene_loader.rs:305-317 | the first match's text when it is a string, otherwise the default |
| SceneLoader.ExtractFloatProperty | src/scene_loader.rs:319-328 | the first element of the first match when it is a non-empty float array, otherwise the default |
| SceneLoader.MaterialFromProperties | src/scene_loader.rs:335-357 | name, diffuse and shininess come from the properties with defaults "Material", (0.788, 0.788, 0.788) and 0; the given textures; no shininess texture, opacity 1 and the given shader |
| SceneLoader.MaterialDefaults | src/scene_loader.rs:335-357 | without properties every field takes its default |
| SceneLoader.LoadMaterial | src/scene_loader.rs:330-359 | the built material is registered under the manager's next id |
| SceneLoader.Bgra | src/scene_loader.rs:259-265 | four bytes per pixel |
| SceneLoader.BgraLayout | src/scene_loader.rs:260-265 | pixel i occupies bytes 4i to 4i+3 as B, G, R, A |
| SceneLoader.FromBgra | src/scene_loader.rs:259-265 | reading four bytes per pixel gives a quarter as many pixels |
| SceneLoader.BgraRoundTrip | src/scene_loader.rs:259-265 | the pixels can be read back from the swizzled bytes unchanged |
| SceneLoader.Swizzle | src/scene_loader.rs:259-265 | the byte loop produces exactly the BGRA layout of the pixels |
| Cameras.ProjectionMatrix | src/components/camera.rs:73 | the perspective matrix: the bottom row is (0, 0, -1, 0), the y scale is the reciprocal of tan(fovy / 2), and the x scale is the y scale over the aspect ratio |
| Cameras.ProjectionMapsPlanesToUnitDepth | src/components/camera.rs:73 | points on the near and far planes map to normalised depths -1 and +1 |
| Cameras.StandardPerspective | src/components/camera.rs:16 | fovy 60 degrees, znear 0.01, zfar 1000, and the given aspect ratio |
| Cameras.StandardPerspectiveWellFormed | src/components/camera.rs:16 | the standard planes are distinct and positive, so every non-zero aspect ratio gives an accepted projection |
| Cameras.CameraComp.constructor | src/components/camera.rs:21-26 | the standard projection with aspect 800 / 600 |
| Cameras.CameraComp.Resize | src/components/camera.rs:15-17 | the aspect ratio becomes width / height, the other parameters stay standard, and the parent transform is untouched |
| Cameras.CameraComp.Update | src/components/camera.rs:32 | changes nothing: the projection and the parent transform are unchanged |
| Cameras.CameraComp.Init | src/components/camera.rs:28-30 | the parent transform's flag becomes true, and nothing else changes |
| Cameras.CameraData.Empty | src/components/camera.rs:55-67 | zero vectors and paddings, and identity matrices |
| Cameras.CameraData.Update | src/components/camera.rs:68-75 | the transform's position, rotation and scale are copied; the view is its combined matrix; the projection-view is projection * view, which on consistent caches is projection * translation * rotation * scale |
| Gravity.Clamp | src/components/gravity.rs:23 | the result lies in [lo, hi]; it is x inside the interval, and the nearer bound outside it |
| Gravity.NextAcceleration | src/components/gravity.rs:23 | the new acceleration lies within plus or minus the maximum |
| Gravity.AccelerationNeverRises | src/components/gravity.rs:23 | from a bounded acceleration, a step with dt >= 0 never raises it |
| Gravity.FallIsMonotone | src/components/gravity.rs:22-26 | over any run of non-negative steps, the acceleration stays bounded and never rises above its start |
| Gravity.GravityComp.constructor | src/components/gravity.rs:13-18 | acceleration 0 and maximum 100 |
| Gravity.GravityComp.Update | src/components/gravity.rs:22-26 | the acceleration takes its clamped next value; the maximum is unchanged; the parent moves by (0, new acceleration, 0), and its rotation, scale and flag are unchanged |
| FrameTimes.Slide | examples/my-main/main.rs:100-103 | below 60 entries the time is only appended; otherwise the oldest is dropped first |
| FrameTimes.SlideBounded | examples/parenting_and_object_types.rs:70-73 | a window of at most 60 entries stays within 60 and is never empty afterwards |
| FrameTimes.SlideIsFifo | examples/parenting_and_object_types.rs:69-73 | the newest entry is this frame's time, and the others are the old window's most recent entries in their old order |
| FrameTimes.ReplayKeepsLatest | examples/my-main/main.rs:92-103 | from an empty window, any run of updates leaves exactly the last min(n, 60) frame times, in order |
| FrameTimes.MeanBetweenExtremes | examples/my-main/main.rs:105 | the mean of a window lies between any bounds of its entries |
| FrameTimes.FrameTimeWindow.constructor | examples/my-main/main.rs:92 | the window starts empty |
| FrameTimes.FrameTimeWindow.Update | examples/parenting_and_object_types.rs:65-75 | the window slides by this frame's time, stays within 60 entries, is non-empty, and the result is its mean |

## Left out

- GPU, window and event-loop code (`src/state.rs`, `src/renderer.rs`,
  `src/app.rs`, `src/asset_management/assetmanager.rs`). It is device and
  windowing calls. Device objects are opaque tokens.
- Drawables (`src/object.rs`, `src/drawable.rs`, `src/mesh_renderer.rs`).
  They issue render-pass commands. A `Drawable` is only the id of the mesh
  it draws.
- `object.rs`'s `ModelData` in `RuntimeMeshData`. This is the uniform block
  of the model matrix, which belongs to the drawables; only its buffer and
  bind group are kept.
- Physics components, the free camera, the camera controller, the rotate
  component and `src/utils/math.rs`. They delegate to the physics library,
  quaternions, trigonometry and randomness.
- The `decompose` of the node transformation in `load_data`, and setting
  the object's local transform from it. These are floating-point matrix
  decomposition in a foreign library.
- A transform type with local position, rotation and scale, which the scene
  loader uses. It is not defined in the files this model covers.
- `Scene::from_file`, `image::load_from_memory`, the file read of
  `load_combined_shader_file`, and the shader source text. These are
  foreign loading and I/O. The imported scene is given as values (`Node`,
  `AiMesh`, `MaterialProperty`), and decoded textures as a sequence of
  RGBA pixels.
- `SceneLoader::load` and `load_materials`. They orchestrate the I/O above
  and the managers' lookups through the world's asset manager, which is not
  part of this model.
- `load_texture`'s texture registration (`add_texture`), its
  decode-failure fallback and its panic on texel data. The texture manager
  is not part of this model.
- The texture ids that `load_material` passes in. They are parameters of
  `SceneLoader.LoadMaterial`.
- The fallback texture ids. They belong to the texture manager and are the
  `Materials.TextureFallbacks` parameter.
- Loading textures onto the device in `Material::init_runtime`, and their
  views and samplers. Only the id of the bound diffuse texture is kept.
- `GameObject::add_child`. It is not defined in the files this model
  covers, and `Worlds.GameObject.AddChild` models it as a plain append to
  the object's children.
- The `get_*_mut` and `get_*_internal_mut` accessors. They return the same
  entries as the plain getters, by mutable reference; mutation through
  references is not modelled.
- `warn!` logging, and the window title formatting with its FPS value in
  the example programs.
- The `Mutex` around the frame-time window. The window is a plain object.
- `usize` overflow of the registries' `next_id`. Ids are unbounded `nat`.
- The vertex counter of `load_data`. It wraps modulo 2^32, as in a release
  build; a debug build would panic instead.
- `f32` and `f64` rounding, NaN and infinities. All of them are `real`, and
  the mouse-wheel delta is an exact sum.
- Cameras.CameraComp.Resize: requires a non-zero height and a non-zero
  width. The source's `f32` division by zero gives an infinity or a NaN,
  which `real` cannot express. A zero width gives a zero aspect ratio, on
  which `Perspective3::new` panics.
- Cameras.ProjectionMatrix: requires a non-zero aspect ratio, distinct
  planes and a non-zero tan(fovy / 2). `Perspective3::new` rejects the
  first two when the projection is built, so they hold for every projection
  the camera stores. The third holds for the 60 degree field of view, but the tangent is
  given by the maths library.
- The angle of the camera's field of view. The source converts 60 degrees
  to radians for the library. The model keeps degrees and applies the
  degree tangent to the same angle.
- Components' raw parent pointers. The camera and gravity components hold
  the parent's `Transform` object directly.
- `GravityComp::init` and `get_parent`. The first is a no-op; `get_parent`
  is replaced by that direct reference.
- The free-standing `main` functions and the scene setup in `init` and
  `funnyinit` of the example programs. They call into the application and
  into code outside this model.
