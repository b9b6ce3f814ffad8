# IGME 540 renderer core, modelled in Dafny

This project models the CPU-side core of a small Direct3D 11 forward
renderer:
- **Transform**: an object's position, pitch/yaw/roll rotation and scale, with lazily recomputed world and direction caches.
- **Camera**: a fly camera that owns a Transform and keeps a view and a projection matrix.
- **Mesh**: immutable vertex and index buffers and one indexed draw.
- **Material**: a colour tint and two shader handles.
- **Light**: the constant-buffer record and its type tags.
- **Game**: the scene bookkeeping.
  - Game state: the lights and their light-space matrices, the grid of entities and the floor, and the nine floats per entity that the editor works on.
  - Also in Game: the cameras and the active-camera index, the plot ring buffer, and the order of the shadow, restore and lit passes in a frame.

Files and modules:

| file | module | contents |
|---|---|---|
| `math3d.dfy` | `Math3D` | Vectors, and matrices as symbolic terms named after the DirectXMath call that builds them. Two different terms are distinct values, so the model does not identify numerically equal matrices. Rotation by the roll-pitch-yaw quaternion is a function value supplied by the caller, so no rotation identity is assumed. |
| `transform.dfy` | `Transforms` | The `Transform` class. Its invariant `Valid` states the caching contract: a clear flag means its cache matches the current pose. |
| `camera.dfy` | `Cameras` | The `Camera` class. Keyboard and mouse state is an `InputState` parameter of `Update`. |
| `mesh.dfy` | `Meshes` | The `Mesh` class. Buffer descriptions are values. `Draw` returns the input-assembler commands it issues, which `Replay` interprets. |
| `material.dfy` | `Materials` | The `Material` class. |
| `lights.dfy` | `Lights` | The `Light` record, its 16-byte-row layout and the uploaded word blob. |
| `scene.dfy` | `Scene` | Game.cpp's integer and sequence rules as functions on values: camera cycling with C++ `%` and `size_t` conversion, the light-space lists, the entity grid index, `entityData` slots, and the plot ring buffer. |
| `frame.dfy` | `Frames` | `Game::Draw` as a sequence of pipeline-state operations, and proofs that every draw runs in the state its pass needs. |
| `game.dfy` | `Games` | The `Game` class. `Initialize` is its constructor; the per-frame and UI operations are methods over its fields. |
| `wrappers.dfy` | `Wrappers` | `Option`. |

## Model

| member | source | states |
|---|---|---|
| Transforms.Transform.constructor | Transform.cpp:7-17 | A new transform has position (0,0,0), rotation (0,0,0) and scale (1,1,1), and identity world and inverse-transpose caches. |
| Transforms.Transform.SetPosition | Transform.cpp:23-33 | Position becomes the argument. Rotation and scale are kept. `dirty` is raised and `rotDirty` is left as it was. The cache invariant holds. |
| Transforms.Transform.SetRotation | Transform.cpp:35-40 | Rotation becomes the argument. Position and scale are kept. Both `dirty` and `rotDirty` are raised. |
| Transforms.Transform.SetRotationFromVector | Transform.cpp:42-47 | As written, the XMFLOAT3 overload stores the current position as the rotation and ignores its argument. Both flags are raised. |
| Transforms.Transform.SetScale | Transform.cpp:49-53 | Scale becomes the argument. Position and rotation are kept. `dirty` is raised and `rotDirty` is left as it was. |
| Transforms.Transform.SetScaleFromVector | Transform.cpp:55-59 | As written, the XMFLOAT3 overload stores the current position as the scale. |
| Transforms.Transform.GetWorldMatrix | Transform.cpp:76-86 | Returns scale·rotation·translation of the current pose and leaves `dirty` clear. When it was already clean, nothing in the object changes. |
| Transforms.Transform.GetWorldInverseTranspose | Transform.cpp:88-98 | Returns the inverse transpose of the current world matrix; otherwise as GetWorldMatrix. |
| Transforms.Transform.RecalculateWorldAndTranspose | Transform.cpp:100-112 | Both world caches match the pose and `dirty` is cleared. The pose and the direction cache are kept. |
| Transforms.Transform.MoveAbsolute | Transform.cpp:115-129 | Position gains the offset component-wise. Rotation and scale are kept. `dirty` is raised and `rotDirty` is left as it was. |
| Transforms.Transform.MoveRelative | Transform.cpp:131-146 | Position gains the offset rotated by the current orientation. Rotation and scale are kept. |
| Transforms.Transform.Rotate | Transform.cpp:148-164 | Rotation gains the delta component-wise and both flags are raised. Position and scale are kept. |
| Transforms.Transform.Scale | Transform.cpp:166-180 | Scale is multiplied component-wise by the factor. Position and rotation are kept. |
| Transforms.Transform.GetRight | Transform.cpp:182-189 | Returns (1,0,0) rotated by the orientation and clears `rotDirty`. When the cache was clean, nothing changes. |
| Transforms.Transform.GetUp | Transform.cpp:191-198 | Returns (0,1,0) rotated by the orientation and clears `rotDirty`. When the cache was clean, nothing changes. |
| Transforms.Transform.GetForward | Transform.cpp:200-207 | Returns (0,0,1) rotated by the orientation and clears `rotDirty`. When the cache was clean, nothing changes. |
| Transforms.Transform.RecalculateLocalDirections | Transform.cpp:209-221 | All three direction vectors match the orientation and `rotDirty` is cleared. The pose and the world cache are kept. |
| Transforms.WorldMatrixIdempotent | Transform.cpp:76-86 | Two consecutive world-matrix reads return the same matrix, the one the pose calls for. The second read changes nothing. |
| Transforms.PositionAndScaleCommute | Transform.cpp:76-112 | Setting position then scale, or scale then position, gives the same world matrix. |
| Transforms.RelativeMoveAtZeroRotation | Transform.cpp:115-141 | With orientation (0,0,0), and given that this orientation rotates nothing, a relative move equals an absolute move. |
| Transforms.RotationOverloadStoresPosition | Transform.cpp:42-47 | On a new transform, the vector overload called with (1,2,3) stores (0,0,0). |
| Transforms.ScaleOverloadStoresPosition | Transform.cpp:55-59 | On a new transform, the vector overload called with (2,2,2) stores the degenerate scale (0,0,0). |
| Transforms.IntendedOverloadsStoreArgument | Transform.cpp:35-53 | The component overloads store exactly the rotation and the scale they are given. |
| Cameras.ClampYaw | Camera.cpp:58-63 | The clamped yaw lies in [-π/2, π/2]. The rotation is kept if and only if the yaw is already in range. Otherwise pitch and roll are zeroed and the yaw is +π/2 exactly when it was above the range. |
| Cameras.Camera.constructor | Camera.cpp:6-14 | The transform starts at `startingPosition` with zero rotation and unit scale. The view looks along the rotated +z axis with world up (0,1,0). The projection is a perspective with FoV 1.5707, near 0.01 and far 500. |
| Cameras.Camera.GetViewMatrix | Camera.cpp:20-23 | Returns the cached view matrix without recomputing it. |
| Cameras.Camera.GetProjectionMatrix | Camera.cpp:25-28 | Returns the cached projection matrix without recomputing it. |
| Cameras.Camera.Update | Camera.cpp:30-69 | The position is moved by the six keys as MovedPosition describes. The rotation follows the mouse as LookedRotation describes. The view is always refreshed from the new pose. The projection and scale are kept. |
| Cameras.Camera.MoveByKeys | Camera.cpp:32-51 | W, S, D and A move along the local axes, and Space and X along world y, in the source's order. Each step is dt·speed, five times that with Shift. Rotation and scale are kept. |
| Cameras.Camera.MoveRelativeIfHeld | Camera.cpp:32-44 | A held key moves the camera by its offset rotated by the orientation. A released key changes nothing. |
| Cameras.Camera.MoveAbsoluteIfHeld | Camera.cpp:46-51 | A held key moves the camera by its offset in world space. A released key changes nothing. |
| Cameras.Camera.LookByMouse | Camera.cpp:53-64 | With the left button down, the rotation gains (dy·0.01, dx·0.01, 0) and the yaw is clamped. Otherwise nothing changes. Position and scale are kept. |
| Cameras.Camera.UpdateViewMatrix | Camera.cpp:71-76 | The view is LookTo(position, forward, (0,1,0)) for the current pose. The pose and the projection are kept. |
| Cameras.Camera.UpdateProjectionMatrix | Camera.cpp:78-83 | A perspective camera gets the perspective projection for the new aspect ratio. Any other camera keeps its projection. The view is kept. |
| Cameras.VerticalMoveIgnoresOrientation | Camera.cpp:46-51 | Space and X give the same movement whatever the orientation. Space alone moves up by one step. |
| Cameras.ForwardKeyMovesAlongLocalZ | Camera.cpp:32-34 | W alone moves along the rotated +z axis by dt·speed, five times as far with Shift. |
| Cameras.NoKeysNoMove | Camera.cpp:32-51 | With no movement key held, the position does not change. |
| Cameras.MouseLookBounds | Camera.cpp:53-64 | Without the button, the rotation is unchanged. With it, the yaw ends within a quarter turn either way. A zero mouse delta from an in-range yaw changes nothing. |
| Lights.LightTypeTagsDistinct | Lights.h:3-5 | Directional 0, point 1 and spot 2 are three distinct tags. |
| Lights.SequentialOffsets | Lights.h:10-20 | The C++ layout has one offset per field, and the first field starts at the record's start. |
| Lights.SequentialOffsetsAreRunningSums | Lights.h:10-20 | Each C++ field offset is the sum of the sizes of the fields before it. |
| Lights.PackingAgreesIffNoStraddle | Lights.h:10-20 | The HLSL constant-buffer packing equals the C++ layout if and only if no field crosses a 16-byte row. |
| Lights.PackedNeverStraddles | Lights.h:10-20 | Under HLSL packing, no field of at most 16 bytes crosses a row, and no field is placed before its C++ offset. |
| Lights.PackedHeadFits | Lights.h:10-20 | A field pushed to the next row when it would cross fits in one row and does not move backwards. |
| Lights.SequentialNotAhead | Lights.h:10-20 | Starting the C++ layout later shifts every offset by the same amount. |
| Lights.LightFieldOffsets | Lights.h:10-20 | Light's fields take 64 bytes, a whole number of rows, at offsets 0, 4, 16, 20, 32, 36, 48, 52 and 56. |
| Lights.LightFieldSum | Lights.h:10-20 | Light's field sizes sum to 64 bytes. |
| Lights.LightFieldSequentialOffsets | Lights.h:10-20 | Light's C++ field offsets are 0, 4, 16, 20, 32, 36, 48, 52 and 56. |
| Lights.LightLayout | Lights.h:10-20 | No field of Light crosses a row. The rows are (Type, Direction), (Range, Position), (Intensity, Color) and (SpotInner, SpotOuter, Padding). The shader reads every field where the CPU wrote it. |
| Lights.LowFieldRows | Lights.h:10-15 | Type through Intensity each begin and end in their listed row. |
| Lights.HighFieldRows | Lights.h:16-19 | Color through Padding each begin and end in their listed row. |
| Lights.EncodeLight | Lights.h:10-20 | A light is 16 four-byte words, with the int Type first. |
| Lights.DecodeLight | Lights.h:10-20 | A decoded light takes its Type from the first word. Words of the wrong kind decode to None. |
| Lights.EncodeLights | Game.cpp:555 | The array blob is 16 words per light. |
| Lights.DecodeLights | Game.cpp:555 | A decoded array has one light per 16 words. |
| Lights.LightBlobBytes | Game.cpp:555 | The upload size is sizeof(Light) × count = 64 × count bytes. |
| Lights.DecoderFollowsLayout | Lights.h:10-20 | The decoder reads field k from byte 4·FieldWords[k], which is the field's offset when the fields are laid end to end (the HLSL packed offset, by LightLayout). It reads exactly the field's size in words. |
| Lights.DecodeEncodeLight | Lights.h:10-20 | Decoding an encoded light gives the light back. |
| Lights.DecodeEncodeLights | Game.cpp:555 | Whatever their types, the shader reads back exactly the lights the CPU wrote, in order. The blob is 4 bytes per word, which is the upload size. |
| Meshes.ByteWidth | Mesh.cpp:27 | `sizeof(T)·count` stored in a UINT is below 2^32. It is exact when the product fits. |
| Meshes.AsUint | Mesh.cpp:100 | An int index read as R32_UINT is kept when non-negative and is raised by 2^32 when negative. |
| Meshes.AsUints | Mesh.cpp:62-63 | The index buffer holds each index as R32_UINT reads it, position by position. |
| Meshes.Replay | Mesh.cpp:99-107 | The input-assembler commands yield at most one draw per command. |
| Meshes.Fetched | Mesh.cpp:104-107 | A draw within bounds assembles one vertex per index. |
| Meshes.Mesh.constructor | Mesh.cpp:8-70 | Both counts are stored. Both buffers are immutable and CPU-invisible, hold the counted data, and are `sizeof(element)·count` bytes wide. |
| Meshes.Mesh.GetIndexCount | Mesh.cpp:87-89 | Returns the stored index count. |
| Meshes.Mesh.GetVertextCount | Mesh.cpp:91-93 | Returns the stored vertex count. |
| Meshes.Mesh.Draw | Mesh.cpp:95-108 | Issues: bind the vertex buffer to slot 0 with stride 44, bind the index buffer as R32_UINT, then draw indexCount indices from 0 with base 0. From any bindings this is exactly one draw of this mesh's buffers. |
| Meshes.ReplayDrawSequence | Mesh.cpp:99-107 | Binding both buffers and then drawing yields one draw, of the buffers just bound. |
| Meshes.MeshDrawFetchesIndexedVertices | Mesh.cpp:95-108 | For a mesh below 2^32 bytes with in-range indices, the draw fetches, in order, the vertex each index names. |
| Meshes.ByteWidthsExact | Mesh.cpp:27-55 | Below 2^32 bytes, the widths are 44·vertexCount and 4·indexCount. |
| Materials.Material.constructor | Material.cpp:3-8 | Stores the tint, the vertex shader and the pixel shader. |
| Materials.Material.GetColorTint | Material.cpp:14-17 | Returns the stored tint. |
| Materials.Material.SetColorTint | Material.cpp:19-22 | GetColorTint then returns the new tint. Both shaders are kept. |
| Materials.Material.GetVertexShader | Material.cpp:24-27 | Returns the stored vertex shader. |
| Materials.Material.SetVertexShader | Material.cpp:29-32 | GetVertexShader then returns the new shader. The tint and the pixel shader are kept. |
| Materials.Material.GetPixelShader | Material.cpp:34-37 | Returns the stored pixel shader. |
| Materials.Material.SetPixelShader | Material.cpp:39-42 | GetPixelShader then returns the new shader. The tint and the vertex shader are kept. |
| Scene.CRem | Game.cpp:750 | C++ `%` equals the Euclidean remainder on non-negative dividends. On negative dividends the result lies in (-n, 0]. |
| Scene.NextIndex | Game.cpp:748-752 | A non-negative index lands in [0, n). A valid index moves one on and wraps to 0 after the last. |
| Scene.PrevIndex | Game.cpp:753-757 | Goes through the `size_t` conversion and always lands in [0, n). A valid index moves one back and wraps from 0 to n-1. |
| Scene.StepUpMod | Game.cpp:748-752 | On a valid index, `(idx+1) % n` is the successor, wrapping to 0. |
| Scene.StepDownMod | Game.cpp:753-757 | On a valid index, `(idx+n-1)` reduced mod 2^64 and then mod n is the predecessor, wrapping to n-1. |
| Scene.CyclingRoundTrip | Game.cpp:748-757 | Prev undoes Next and Next undoes Prev on every valid index. |
| Scene.NextPressed | Game.cpp:748-752 | Any number of Next presses keeps a valid index in range. |
| Scene.NextPressedAdvances | Game.cpp:748-752 | k presses of Next take idx to (idx + k) mod n. |
| Scene.NextCyclesThroughAll | Game.cpp:748-752 | n presses of Next return to the starting camera. |
| Scene.LightViews | Game.cpp:832-856 | There are at most as many light views as lights. |
| Scene.LightProjections | Game.cpp:832-856 | There is one projection per light view. |
| Scene.DirectionalIndices | Game.cpp:832-856 | Every listed index names a light. |
| Scene.LightViewsFollowDirectionalLights | Game.cpp:832-856 | The m-th view looks from −30·direction of the m-th directional light. Every projection is the orthographic one with near 1 and far 100. The listed indices increase and name exactly the directional lights. |
| Scene.LightViewsAppend | Game.cpp:832-856 | Appending a light appends a view and a projection if and only if it is directional. |
| Scene.LightViewsIgnoreColor | Game.cpp:762-768 | Editing a light's colour changes neither light-space list. |
| Scene.GridIndexBijective | Game.cpp:368-388 | `meshCount·i + j` is in range and gives back i and j by division and remainder. |
| Scene.GridIndexCovers | Game.cpp:368-388 | Every grid index comes from exactly one (material, mesh) pair. |
| Scene.Slot | Game.cpp:372-385 | An entity's data slot is nine floats. |
| Scene.WriteSlot | Game.cpp:703-711 | The nine assignments keep the length and change no float outside `[9i, 9i+9)`. |
| Scene.SlotRoundTrip | Game.cpp:694-711 | Reading slot i after writing it returns what was written. Every other slot reads as before. |
| Scene.WriteBackUnchanged | Game.cpp:694-711 | Writing back an unedited slot changes nothing. |
| Scene.PlotStep | Game.cpp:659-663 | One loop pass keeps 90 samples and keeps `valOffset` in [0, 90). |
| Scene.PlotStepWritesOneSlot | Game.cpp:660-661 | One pass writes `sin(phase·refreshTime)` to the current slot only, and the offset moves one on, wrapping after 89. |
| Scene.PlotCatchUp | Game.cpp:657-664 | The loop ends with the next sample time not in the past, or it does not run. |
| Scene.StepsBehindDecreases | Game.cpp:657-663 | Each pass brings the loop one interval closer to the current time. |
| Scene.PlotCatchUpLands | Game.cpp:657-664 | When it starts behind, the loop ends with the next sample time within 1/60 s after now. When it does not, nothing changes. |
| Frames.ShadowDraws | Game.cpp:524-532 | One shadow-caster draw per entity. |
| Frames.LitDraws | Game.cpp:545-560 | One lit draw per entity. |
| Frames.ShadowOnlyKeepsState | Game.cpp:524-532 | Shadow-caster draws in the shadow-map state are well staged and leave the state unchanged. |
| Frames.LitOnlyKeepsWindow | Game.cpp:545-560 | Lit draws in the window state are well staged and stay in the window state. |
| Frames.ShadowDrawsKeepState | Game.cpp:524-532 | The shadow loop is well staged and leaves the shadow-map state unchanged. |
| Frames.LitDrawsStaged | Game.cpp:545-560 | The lit loop is well staged and stays in the window state. |
| Frames.SetupEntersShadowPass | Game.cpp:509-523 | From any state, the shadow setup is well staged. It ends with the shadow-resolution viewport, no render target, shadow depth, the biased rasterizer and no pixel shader. |
| Frames.RestoreEntersWindowPass | Game.cpp:534-543 | From any state, the restore step ends with the window viewport, the back buffer, window depth and the default rasterizer. |
| Frames.EndRebinds | Game.cpp:562-588 | The end of a frame draws no pass geometry. It leaves the render target and window depth bound, although Present unbinds the render target. |
| Frames.FrameIsStaged | Game.cpp:469-589 | Whatever state the previous frame left, every shadow-caster draw runs in the shadow-map state and every lit draw in the window state. The frame ends rebound to the window. |
| Frames.RestoreIsNeeded | Game.cpp:534-543 | Without the restore step, a frame with any lit draw is not well staged. |
| Games.Game.constructor | Game.cpp:36-118 | The game holds the eight initial lights and three light-space pairs, the given meshes and the nine tinted materials. It also holds the entity grid and floor (LaidOut), three cameras at their start positions with index 0, and a zeroed plot. The game invariant holds. |
| Games.Game.CreateShadowmapResources | Game.cpp:832-856 | Appends one view and one projection per directional light, in light order. Nothing else changes. |
| Games.Game.CreateShaderToEntity | Game.cpp:328-398 | Creates the nine tinted materials, all with the same shaders, then the grid and floor laid out from them. Lights, meshes, cameras and plot are kept. |
| Games.Game.CreateMaterials | Game.cpp:328-345 | Creates nine materials with the listed tints and the given shaders. Every other field is kept. |
| Games.Game.CreateEntities | Game.cpp:366-398 | Entity `meshCount·i + j` has material i and mesh j at GridPosition(i, j). The floor comes last, from mesh 0 and material 0 at (0,−2,0) with scale (25,0.1,25). Each entity owns 9 floats holding its pose. There are materials·meshes + 1 entities. |
| Games.Game.CreateCameras | Game.cpp:164-169 | Creates three cameras at (0,2,−5), (0,−2,5) and (−5,0,−5), each with its own transform and a perspective projection for the aspect ratio. Everything else is kept. |
| Games.Game.Update | Game.cpp:441-458 | The active camera flies as Camera.Update describes: its position and rotation move as there, its scale is kept, its view matrix is rebuilt from the new pose, and its projection and perspective flag are kept. Every entity but the floor takes the rotation (sin(t+k), cos(t+k), sin·cos). The floor's rotation and all positions and scales are kept. The game invariant holds. |
| Games.Game.UpdateActiveCamera | Game.cpp:450-453 | Only the active camera moves and turns, as Camera.Update describes. Its scale is kept, its view matrix matches its new pose, and its projection and perspective flag are unchanged. |
| Games.Game.SpinEntities | Game.cpp:455-458 | Every entity but the last takes its Spin rotation. The last keeps its rotation. Positions and scales are kept. |
| Games.Game.NextCamera | Game.cpp:748-752 | The index moves one on, wrapping to 0, and stays valid. |
| Games.Game.PrevCamera | Game.cpp:753-757 | The index moves one back, wrapping to the last camera, and stays valid. |
| Games.Game.EditEntity | Game.cpp:694-715 | Only slot i of `entityData` and entity i's transform change, both to the edited pose. Every other slot reads as before. |
| Games.Game.EditLightColor | Game.cpp:762-768 | Only light i's colour changes. The light-space lists stay consistent. |
| Games.Game.EditMaterialTint | Game.cpp:722-732 | Material i takes the edited tint and keeps its shaders. |
| Games.Game.PlotTick | Game.cpp:651-664 | On the first tick the schedule starts at the clock. The plot then ends as PlotCatchUp describes, with `valOffset` in [0, 90). |
| Games.Game.PlotSample | Game.cpp:659-663 | One loop pass on the plot's fields in place is exactly PlotStep. |
| Games.Game.OnResize | Game.cpp:429-435 | Every perspective camera gets the projection for the new aspect ratio. Any other camera keeps its projection. No view changes. |
| Games.Game.Draw | Game.cpp:469-589 | Returns the frame's operations, built from every entity's current world matrix, with light-space entry 0 and the active camera. Every draw is well staged from any prior state. Poses are kept. |
| Games.Game.ShadowPass | Game.cpp:524-532 | Issues one shadow-caster draw per entity, in order, with that entity's world matrix, and leaves each cache clean. Poses are kept. |
| Games.Game.LitPass | Game.cpp:545-560 | Issues one lit draw per entity when the camera index is in range, and none otherwise. |
| Games.BuildGrid | Game.cpp:368-391 | Builds one grid row per material. Each entity has its own fresh transform, placed and mirrored in its slot. |
| Games.AddGridRow | Game.cpp:369-390 | Appends one entity per mesh for material i at GridPosition(i, j), each with a fresh, distinct transform and a nine-float slot. Earlier entries are kept. |
| Games.AddFloor | Game.cpp:392-398 | Appends the floor from the given mesh and material at (0,−2,0) with scale (25,0.1,25). Earlier slots are kept. |
| Games.GridRowAppended | Game.cpp:368-391 | Appending row i to rows 0..i−1 gives rows 0..i. |
| Games.FloorAppended | Game.cpp:392-398 | The full grid followed by the floor is the promised layout. |
| Games.InitialLightsHaveThreeDirectional | Game.cpp:55-72 | Lights 0, 1 and 2 are the directional ones, so both light-space lists have 3 entries. Entry 0 is light 0's view. |

## Left out

- Direct3D device and context calls, swap-chain presentation, textures, samplers and shader uploads are foreign calls. Present is taken to be a flip-model Present, which unbinds the back buffer's render-target view; the model clears only the bound render target on Present, and leaves the depth buffer and the other state in place. `Game::Draw` is modelled as a sequence of pipeline-state operations, and `Mesh::Draw` as input-assembler commands.
- Floating-point numerics are not modelled: matrices, quaternion rotation, sin, cos and `.1f` steps. Vectors are unbounded reals, matrices are symbolic terms, and rotation and trigonometry are function parameters.
- Math3D.Matrix: distinct matrix terms are provably unequal, although they may be numerically equal. For example, `WorldOf(Zero, Zero, One)` (a fresh transform's world matrix) and `Identity` are different terms, and so are `InverseTranspose(Identity)` and `Identity`. No contract in the model states or relies on a matrix disequality; only equalities of terms are promised.
- ImGui, `Input` and the clock are not modelled. Key and mouse state, edited values, the time and the window size are parameters.
  - Game.PlotTick reads the clock once per call. The source re-reads it on every loop test.
- Entity.cpp, Entity.h and Sky.h are not part of this model. An entity is a (mesh, material, transform) value. The entity and sky draws appear only as operations.
- The OBJ-loading Mesh constructor and `CalculateTangents` have no body in the source. The game's meshes are a constructor parameter.
- The Material UV offset and scale, the texture and sampler maps and the five-argument constructor are used in Game.cpp but not defined in Material.cpp. The ambient colour is also not modelled.
- `shadowMapResolution` and `lightProjectionSize` have no definition in the source, so they are constructor parameters. `cameraIndex` is taken to start at 0.
- Transforms.Transform.constructor: the source leaves both flags and the direction vectors uninitialised. The model raises both flags and leaves the vectors unconstrained.
- Cameras.ClampYaw: it tests and clamps the yaw (`.y`), as Camera.cpp:58-63 does. A pitch clamp is not modelled, because the code has none.
- Games.Game.Draw: it requires a valid camera index, because the sky draw indexes the camera list without the guard the lit draws have. It also requires at least one light-space entry, because both passes read entry 0.
- Games.Game.PrevCamera and Scene.PrevIndex: both assume at most 2^31−1 cameras, because the count is cast to `int`. They also assume that `cameraIndex + (int)size - 1` (Game.cpp:754) does not overflow a 32-bit `int`: the model adds in unbounded integers, whereas the source's signed addition overflows, which is undefined behaviour, once index + count − 1 exceeds 2^31−1 (possible only with more than 2^30 cameras).
- Games.Game.EditEntity: the entity data's rotation floats are not kept in step with the transform, because Update overwrites the transform's rotation every frame.
- Meshes.Mesh.constructor: it takes `int` indices as Mesh.cpp:8 does; Mesh.h:12 declares `UINT`.

## Findings

| source | as written | input that shows it | evidently intended | confidence | as-written member | corrected member |
|---|---|---|---|---|---|---|
| Transform.cpp:42-47 | `SetRotation(XMFLOAT3)` stores the current position as the rotation. | A new transform, `SetRotation((1,2,3))`: the rotation becomes (0,0,0). | Store the argument, as `SetRotation(pitch, yaw, roll)` does. | not executed | Transforms.RotationOverloadStoresPosition | Transforms.IntendedOverloadsStoreArgument |
| Transform.cpp:55-59 | `SetScale(XMFLOAT3)` stores the current position as the scale. | A new transform, `SetScale((2,2,2))`: the scale becomes (0,0,0), collapsing the object. | Store the argument, as `SetScale(x, y, z)` does. | not executed | Transforms.ScaleOverloadStoresPosition | Transforms.IntendedOverloadsStoreArgument |
