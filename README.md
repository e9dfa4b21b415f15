# Shader gallery: a Dafny model of its load, render and painting logic

The gallery is a Bevy application. It loads a scene of an art gallery, waits until
any scene asset reports `Created` (the event's handle is not checked), and then decorates the scene. The
application wiring (`src/main.rs`) places two panels that use a custom shader
material. The paintings plugin (`src/paintings.rs`) covers a named scene node with a
box. The box shows a live off-screen render of a hidden sub-scene. In the render
world, a one-time system builds the bind group of the shared uniforms. Every opaque
draw list is then rewritten so that each object is drawn once more through the
command that binds that group.

This model covers the sequential logic under the engine wiring. Engine handles become
natural-number ids. Asset stores become sequences, where a handle is a position.
Objects the systems update in place become classes.

- `load_state.dfy` (`LoadState`): the load state machine shared by the two
  `wait_for_load` systems, generic in the state type. `Requested` folds a batch of
  asset events into the queued transition. `Step`, `Run` and `Entries` give one frame,
  a run of frames, and how often the `on_enter` hook fires.
- `environment.dfy` (`Environment`): `EnvState`, plus the class `EnvironmentApp` with
  the `Environment` resource, the spawned scenes and the `State<EnvState>` resource.
- `gallery.dfy` (`Gallery`, for `src/main.rs`): `WorldState`, the class `GalleryApp`
  (`wait_for_load`, `on_load`), the render world (`render_setup`, `render`) and the
  `SetShaderSharedUniforms<3>` command.
- `shader.dfy` (`Shader`): `ShaderMaterial`, its key, `alpha_mode`, `fragment_shader`
  and `specialize`.
- `paintings.dfy` (`Paintings`): `create_painting`, `create_paintings`, the name
  lookup, box sizing and placement. The class `PaintingWorld` is proved against the
  pure specification `PaintStep`/`AssembleSpec`, and the lemmas are stated about that
  specification.
- `geometry.dfy`, `wrappers.dfy`: vectors, transforms, bounding boxes, meshes;
  `Option` and `Result`.

A Bevy frame is modelled in this order: the `on_update(Loading)` system runs, then the
state driver applies the queued transition, then the `on_enter` systems run. This is
what the `Frame` methods and `ReadyFrame` do.

Four behaviours one might expect are not what the code does, and the model follows the code:

- The box is placed at the bounding box's local centre. The centre is not moved by the
  node's world transform (`CentreIsNotTransformed`).
- A missing node name ends the whole assembly loop. Unrelated paintings do not go on.
- The entry point that `specialize` writes is never checked against the shader.
  `specialize` always returns `Ok`.
- The wait ends on a `Created` event of any scene asset. The event's handle is never
  compared with the handle of the gallery scene (`AnySceneCreatedReadies`).

## Model

| member | source | states |
|---|---|---|
| `LoadState.Requested` | src/environment.rs:31-35 | the event loop as a fold: the queue it leaves is either the old queue or `set(target)` |
| `LoadState.Step` | src/environment.rs:45 | one frame: the system runs only in `Loading`, so a state other than `Loading` is kept; the new state is the old one or the target |
| `LoadState.Run` | src/main.rs:56-57 | the state after a run of frames is the starting state or the target |
| `LoadState.Entries` | src/main.rs:57 | the `on_enter` hook fires at most once per frame |
| `LoadState.RequestedIffCreated` | src/environment.rs:31-35 | after the event loop, `set(target)` has been requested iff the batch holds a `Created` event; otherwise the queue is as before |
| `LoadState.IgnoredEventIsNeutral` | src/environment.rs:32 | adding a `Modified` or `Removed` event anywhere in a batch never changes the requested transition |
| `LoadState.StepMovesOnlyOnCreated` | src/environment.rs:27-45 | one frame moves `Loading` to the target iff the batch has a `Created` event; a state other than `Loading` never moves, because the system only runs in `Loading` |
| `LoadState.TargetIsNeverLeft` | src/environment.rs:31-45 | once the target state is reached, no later batch moves it, and `on_enter` never fires again |
| `LoadState.RunFromLoading` | src/environment.rs:27-45 | from `Loading`, a run of frames ends in the target iff some frame carried a `Created` event; `on_enter(target)` fires exactly once in that case and never otherwise |
| `Environment.EnvironmentApp.constructor` | src/environment.rs:40-47 | the state starts in `Loading` with nothing queued, and the `Environment` resource holds a default handle |
| `Environment.EnvironmentApp.Setup` | src/environment.rs:14-25 | one load request for the gallery scene; its handle is stored in `Environment`, and exactly one scene is spawned with that same handle |
| `Environment.EnvironmentApp.Set` | src/environment.rs:33 | `State::set` queues the transition and leaves the current state alone |
| `Environment.EnvironmentApp.WaitForLoad` | src/environment.rs:27-36 | the loop leaves exactly the transition `Requested` describes: `Ready` iff some event is `Created` |
| `Environment.EnvironmentApp.Frame` | src/environment.rs:45 | a frame runs the waiting system only in `Loading` and applies its transition; the new state is `Step` of the old one, and `entered` says whether the state changed |
| `Environment.AnySceneCreatedReadies` | src/environment.rs:31-33 | a `Created` event for any scene handle, anywhere in the batch, moves `Loading` to `Ready`; the handle is never compared with the gallery scene's |
| `Environment.EnvFrameLaws` | src/environment.rs:31-35 | no `Created` event leaves any state unchanged; a `Created` event moves `Loading` to `Ready`; `Ready` stays `Ready` |
| `Environment.EnvRunLaws` | src/environment.rs:43-45 | from the initial `Loading`, the app is `Ready` iff some frame delivered `Created`, and `on_enter(Ready)` fires at most once |
| `Shader.FragmentShader` | src/shader.rs:23-25 | every shader material uses the one shader `shaders/custom.wgsl` |
| `Shader.AlphaModeOf` | src/shader.rs:27-29 | every shader material is opaque |
| `Shader.EveryVariantRunsCustomShader` | src/shader.rs:23-40 | whatever entry point a material names, its specialized fragment stage still runs `shaders/custom.wgsl`, with that entry point |
| `Shader.KeyOf` | src/shader.rs:48-54 | the key built from a material carries exactly that material's entry point |
| `Shader.KeysDeduplicateByEntryPoint` | src/shader.rs:43-46 | two materials have equal keys iff their entry points are equal |
| `Shader.SpecializedFragment` | src/shader.rs:37-38 | specialization sets the fragment entry point to the key's and keeps the fragment shader, definitions and targets |
| `Shader.SpecializationDeduplicates` | src/shader.rs:31-40 | two materials produce the same fragment stage iff they name the same entry point |
| `Shader.Specialize` | src/shader.rs:31-40 | with a fragment stage present, only that stage's entry point is overwritten with the key's, with no validation, and the result is always `Ok` |
| `Gallery.GalleryApp.constructor` | src/main.rs:47 | the world state starts in `Loading` |
| `Gallery.GalleryApp.WaitForLoad` | src/main.rs:190-200 | the match loop leaves `Playing` queued iff some event is `Created`; the `_` arm changes nothing |
| `Gallery.FragmentEntryPointShape` | src/main.rs:131 | `format!("fragment{i}")` is "fragment" followed by decimal digits only, ending in the last digit of `i` |
| `Gallery.DecimalInjective` | src/main.rs:131 | two numbers with the same decimal text are equal |
| `Gallery.FragmentEntryPointsDistinct` | src/main.rs:125-131 | two panel indices give the same entry point iff they are equal, so each panel gets its own pipeline variant |
| `Gallery.GalleryApp.Set` | src/main.rs:196 | `State::set` queues `Playing` and leaves the current state alone |
| `Gallery.GalleryApp.OnLoad` | src/main.rs:119-135 | exactly two box meshes, two materials with entry points "fragment0" and "fragment1", and two panels at x = 0 and x = 2, each using its own fresh mesh and material |
| `Gallery.GalleryApp.Frame` | src/main.rs:56-57 | a frame waits only in `Loading`; in the frame that enters `Playing` exactly the two panel meshes, the materials "fragment0" and "fragment1", and the panels at x = 0 and x = 2 on those fresh handles are added; otherwise nothing changes |
| `Gallery.WorldRunLaws` | src/main.rs:56-57 | the world reaches `Playing` iff some frame delivered `Created`, never leaves it, and enters it at most once |
| `Gallery.Duplicate` | src/main.rs:211-226 | a rewritten draw list is exactly twice as long as the input list |
| `Gallery.DuplicateAt` | src/main.rs:214-223 | output slot 2k keeps item k's entity, distance and pipeline with the `ConfigureShaders` draw function; slot 2k+1 is item k unchanged |
| `Gallery.OriginalsOfDuplicate` | src/main.rs:212-225 | the odd slots of the output are the input items, all of them, in their original order |
| `Gallery.InsertsOverRun` | src/main.rs:90-113 | counts the insertions over a run of `render_setup` calls, where a skip inserts nothing, a success inserts one and sets the flag, and a panic ends the run; with the flag set, a run inserts nothing, and never more than one per call |
| `Gallery.InsertedAtMostOnce` | src/main.rs:90-113 | over any run of `render_setup` calls, the bind group is inserted at most once, never once the flag is set, and once by a first successful call |
| `Gallery.RenderWorld.RenderSetup` | src/main.rs:90-113 | when the flag is set, nothing happens; otherwise a built group is inserted and the flag is set; a failed build panics before the flag is set; the insertion count stays at most one |
| `Gallery.RenderWorld.Render` | src/main.rs:202-228 | each view's opaque items, on its own, become the duplicated list with the registered `ConfigureShaders` id; nothing else is written |
| `Gallery.SetShaderSharedUniforms` | src/main.rs:172-188 | the shared-uniform bind group is set at slot 3 of the pass, and the command succeeds |
| `Paintings.FindByName` | src/paintings.rs:92-95 | the lookup returns the first node with the painting's name; it returns none iff no node has that name |
| `Paintings.Resolve` | src/paintings.rs:92-98 | `NameNotFound` iff no node carries the name; `MeshNotLoaded` (with that mesh) iff the first such node's mesh is not in the store; `NoBounds` (with that mesh) iff its mesh is there but has no bounds; success iff none of these, with the first such node and its mesh's bounds |
| `Paintings.PaintingList` | src/paintings.rs:80 | the declared list has one painting, covering "paintingMid3", with the sub-scene camera's transform |
| `Paintings.BoxSize` | src/paintings.rs:103-108 | the box is built so that its own bounds have exactly the node's half extents, centred on its origin |
| `Paintings.Placement` | src/paintings.rs:99-100 | the box keeps the node's world rotation and scale and takes the bounds' local centre as translation |
| `Paintings.AssembleSpec` | src/paintings.rs:82-115 | the assembly loop only appends: every store and the entity list after it extend the ones before it |
| `Paintings.PaintStep` | src/paintings.rs:82-115 | the image, the camera rendering into it and the material showing it are added before the lookup; a failed lookup adds nothing more; a successful one adds one box mesh and one box |
| `Paintings.PlacedBox` | src/paintings.rs:97-114 | the box is 2 × the half extents on each axis, keeps the node's rotation and scale, sits at the bounds' centre, and wears the material textured with the new image |
| `Paintings.StepAddsOneCamera` | src/paintings.rs:50-68 | each painting spawns exactly one camera, and it renders into the image handle that painting added |
| `Paintings.EachPaintingAddsItsTarget` | src/paintings.rs:27-50 | every painting attempted adds one 512×512 target image after the existing ones; a successful run adds one per declared painting |
| `Paintings.EachPaintingOwnsItsTarget` | src/paintings.rs:50-70 | the new cameras render into exactly the new images, one each, in order |
| `Paintings.NoSharedTargets` | src/paintings.rs:50-70 | no two new cameras share a target, and every new target is a freshly added image |
| `Paintings.DeclaredListOutcome` | src/paintings.rs:80-95 | the one declared painting ("paintingMid3") assembles iff its node resolves; image, camera and material exist even when the lookup fails |
| `Paintings.CentreIsNotTransformed` | src/paintings.rs:99-108 | for half extents (1,1,1) under a node that scales by 2 and translates by (3,0,0), the box is 2×2×2 with scale 2, at (0,0,0) |
| `Paintings.PaintingWorld.CreatePainting` | src/paintings.rs:22-71 | adds the target image, and spawns one camera with priority -1 on layer 1 that clears to white and renders into it; returns that image's handle |
| `Paintings.PaintingWorld.AssembleOne` | src/paintings.rs:83-114 | one loop iteration changes the stores exactly as `PaintStep` says and reports its failed `unwrap` |
| `Paintings.PaintingWorld.AssemblePaintings` | src/paintings.rs:82-115 | the loop changes the stores exactly as `AssembleSpec` says, stopping at the first failure |
| `Paintings.PaintingWorld.CreatePaintings` | src/paintings.rs:73-116 | runs the loop over the declared list |
| `Paintings.ReadyFrame` | src/paintings.rs:123 | the paintings are assembled exactly in the frame that moves the environment from `Loading` to `Ready`; in other frames the stores are untouched |
| `Geometry.ComputeAabb` | src/paintings.rs:98 | a scene mesh's bounds are its given bounds; a box mesh always has bounds, centred on its origin, with half its size on each axis |

## Left out

- `update_uniforms` (src/main.rs:115-117) and the `f32` time in `CommonUniforms` are not modelled. The update is floating-point arithmetic on data of the render world.
- The `setup` system of src/main.rs:68-88 is not modelled. It is the environment's scene load plus an FPS camera from the camera-control plugin, which is not part of this model.
- `f32` values (positions, sizes, reflectance 0.02) are exact reals. Rounding is not modelled.
- `Environment.EnvironmentApp.Set`, `Gallery.GalleryApp.Set`: Bevy's own refusal of a `State::set` (already in that state, or a transition already queued) is library behaviour. The model takes every `set` to succeed, so a second `Created` event in one batch simply re-queues `Ready` (or `Playing`), where the source's `unwrap` (src/environment.rs:33, src/main.rs:196) would panic.
- Handles are positions in sequence stores. Bevy's `Assets::add` also gives fresh handles, but its ids are not positions.
- `GlobalTransform::compute_transform` and `Mesh::compute_aabb` are inputs: `NamedNode.global` and `SceneMesh.aabb`. The bounds of a `shape::Box` mesh are taken as centred on its origin.
- The pixel data that `Image::resize` allocates is not modelled. Neither are the camera fields other than priority, target and clear colour.
- `SimpleScene::camera_transform` (src/paintings/simple.rs) is a parameter. The spinning sub-scene of that file is not modelled.
- A panic (`unwrap` on `None`) is modelled as an `Err` that ends the assembly loop, with earlier side effects kept. Aborting the process is not modelled.
- `Gallery.RenderWorld.Render` requires the `ConfigureShaders` id to be registered. `add_render_command` (src/main.rs:61) does this at startup, so the `unwrap` of `get_id` is not modelled as a failure.
- `Shader.Specialize` requires a fragment stage. Material pipelines always have one, so the `unwrap` on `None` is not modelled.
- The bind group that `as_bind_group` builds in `render_setup` is a parameter: `Some` id, or `None` for the failed `unwrap`. GPU resources, pipelines, render passes and system scheduling are abstract ids or are not modelled.
- The ECS scheduler is reduced to the frame order described above. Queries, `Commands` buffering and the window, inspector and FBX plugins are not modelled.
