/** The paintings plugin: when the environment becomes `Ready`, each declared painting
    gets an off-screen camera rendering into a fresh image, a material showing that
    image, and a box placed over the scene node that carries the painting's name. */
module Paintings {
  import opened Wrappers
  import opened Geometry
  import opened LoadState
  import Environment

  type ImageHandle = nat
  type MeshHandle = nat
  type MaterialHandle = nat

  datatype TextureDimension = D1 | D2 | D3
  datatype TextureFormat = Bgra8UnormSrgb | Rgba8UnormSrgb
  datatype TextureUsage = CopySrc | CopyDst | TextureBinding | StorageBinding | RenderAttachment
  datatype Extent3d = Extent3d(width: nat, height: nat, depthOrArrayLayers: nat)
  datatype TextureDescriptor = TextureDescriptor(
    size: Extent3d, dimension: TextureDimension, format: TextureFormat,
    mipLevelCount: nat, sampleCount: nat, usage: set<TextureUsage>)
  datatype Image = Image(descriptor: TextureDescriptor)

  /** The render layer the off-screen cameras and their sub-scene live on. */
  const HiddenLayer: nat := 1

  /** The colour target every painting renders into: 512 x 512 (one layer), 2D, BGRA
      sRGB, one mip level, one sample, sampled by materials, copied into and rendered to. */
  const TargetImage := Image(TextureDescriptor(
    Extent3d(512, 512, 1), D2, Bgra8UnormSrgb, 1, 1, {TextureBinding, CopyDst, RenderAttachment}))

  datatype Color = White
  datatype ClearColorConfig = DefaultClear | Custom(color: Color) | NoClear
  datatype Camera = Camera(priority: int, target: ImageHandle, clearColor: ClearColorConfig)

  /** The entities this plugin spawns. */
  datatype Entity =
    | OffscreenCamera(camera: Camera, transform: Transform, layers: set<nat>)
    | PbrMesh(mesh: MeshHandle, transform: Transform, material: MaterialHandle)

  datatype StandardMaterial = StandardMaterial(baseColorTexture: Option<ImageHandle>, reflectance: real, unlit: bool)

  /** A node of the loaded scene as the query sees it; `global` is the result of
      `GlobalTransform::compute_transform`. */
  datatype NamedNode = NamedNode(name: string, mesh: MeshHandle, global: Transform)

  /** A declared painting: the node to cover and the sub-scene camera's transform. */
  datatype PaintingSpec = PaintingSpec(name: string, transform: Transform)

  /** The three `unwrap`s of the assembly: no node of that name, a mesh handle missing
      from the store, a mesh without bounds. The panic reports none of this; the mesh
      handles are only labels that tell the last two cases apart in the model. */
  datatype AssemblyError = NameNotFound | MeshNotLoaded(mesh: MeshHandle) | NoBounds(mesh: MeshHandle)

  /** The declared paintings: one, covering "paintingMid3"; its camera transform comes
      from the sub-scene. */
  function PaintingList(cameraTransform: Transform): (list: seq<PaintingSpec>)
    ensures |list| == 1 && list[0].name == "paintingMid3" && list[0].transform == cameraTransform
  {
    [PaintingSpec("paintingMid3", cameraTransform)]
  }

  /** The camera `create_painting` spawns: it renders first (priority -1) into `target`,
      clears to white, and sees only the hidden layer. */
  function PaintingCamera(target: ImageHandle, transform: Transform): Entity
  {
    OffscreenCamera(Camera(-1, target, Custom(White)), transform, {HiddenLayer})
  }

  /** The material showing a painting's image. */
  function PaintingMaterial(target: ImageHandle): StandardMaterial
  {
    StandardMaterial(Some(target), 0.02, false)
  }

  /** `Iterator::find` over the query: the first node carrying `name`. */
  function FindByName(nodes: seq<NamedNode>, name: string): (r: Option<nat>)
    ensures r.Some? ==> r.value < |nodes| && nodes[r.value].name == name
    ensures r.Some? ==> forall j :: 0 <= j < r.value ==> nodes[j].name != name
    ensures r.None? <==> forall j :: 0 <= j < |nodes| ==> nodes[j].name != name
    decreases |nodes|
  {
    if nodes == [] then None
    else if nodes[0].name == name then Some(0)
    else match FindByName(nodes[1..], name)
      case Some(i) => Some(i + 1)
      case None => None
  }

  /** The lookup of a painting's node and bounds: the first node of that name, its mesh
      in the store, and that mesh's bounding box. */
  function Resolve(nodes: seq<NamedNode>, meshes: seq<Mesh>, name: string): (r: Result<(NamedNode, Aabb), AssemblyError>)
    ensures (r.Err? && r.error == NameNotFound) <==> forall j :: 0 <= j < |nodes| ==> nodes[j].name != name
    ensures r.Ok? ==> exists i :: 0 <= i < |nodes| && r.value.0 == nodes[i] && FindByName(nodes, name) == Some(i)
    ensures r.Ok? ==> r.value.0.mesh < |meshes| && ComputeAabb(meshes[r.value.0.mesh]) == Some(r.value.1)
    ensures r.Ok? <==> var i := FindByName(nodes, name);
                       i.Some? && nodes[i.value].mesh < |meshes| && ComputeAabb(meshes[nodes[i.value].mesh]).Some?
    ensures (r.Err? && r.error.MeshNotLoaded?) <==> var i := FindByName(nodes, name);
                                                    i.Some? && nodes[i.value].mesh >= |meshes|
    ensures r.Err? && r.error.MeshNotLoaded? ==> r.error.mesh == nodes[FindByName(nodes, name).value].mesh
    ensures (r.Err? && r.error.NoBounds?) <==> var i := FindByName(nodes, name);
                                               i.Some? && nodes[i.value].mesh < |meshes| && ComputeAabb(meshes[nodes[i.value].mesh]).None?
    ensures r.Err? && r.error.NoBounds? ==> r.error.mesh == nodes[FindByName(nodes, name).value].mesh
  {
    match FindByName(nodes, name)
    case None => Err(NameNotFound)
    case Some(i) =>
      var node := nodes[i];
      if node.mesh >= |meshes| then Err(MeshNotLoaded(node.mesh))
      else match ComputeAabb(meshes[node.mesh])
        case None => Err(NoBounds(node.mesh))
        case Some(aabb) => Ok((node, aabb))
  }

  /** The box covering a node: twice the half extents on each axis. */
  function BoxSize(aabb: Aabb): (size: Vec3)
    ensures ComputeAabb(BoxMesh(size)) == Some(Aabb(Zero, aabb.halfExtents))
  {
    Vec3(aabb.halfExtents.x * 2.0, aabb.halfExtents.y * 2.0, aabb.halfExtents.z * 2.0)
  }

  /** The box's transform: the node's world rotation and scale, and the bounding box's
      local centre as translation. */
  function Placement(global: Transform, aabb: Aabb): (t: Transform)
    ensures t.rotation == global.rotation && t.scale == global.scale
    ensures t.translation == aabb.center
  {
    global.(translation := aabb.center)
  }

  /** The stores the assembly writes: `Assets<Image>`, `Assets<StandardMaterial>`,
      `Assets<Mesh>` (a handle being a position) and the spawned entities in order. */
  datatype Stores = Stores(images: seq<Image>, materials: seq<StandardMaterial>, meshes: seq<Mesh>, entities: seq<Entity>)

  /** One painting of `create_paintings`: image, camera and material first, then the
      lookup, which may fail, then the box mesh and the box. */
  function PaintStep(s: Stores, p: PaintingSpec, nodes: seq<NamedNode>): (r: (Stores, Option<AssemblyError>))
    ensures r.0.images == s.images + [TargetImage]
    ensures r.0.materials == s.materials + [PaintingMaterial(|s.images|)]
    ensures |r.0.entities| > |s.entities| && r.0.entities[..|s.entities| + 1] == s.entities + [PaintingCamera(|s.images|, p.transform)]
    ensures r.1.Some? <==> Resolve(nodes, s.meshes, p.name).Err?
    ensures r.1.Some? ==> r.1.value == Resolve(nodes, s.meshes, p.name).error && r.0.meshes == s.meshes && |r.0.entities| == |s.entities| + 1
    ensures r.1.None? ==> |r.0.meshes| == |s.meshes| + 1 && |r.0.entities| == |s.entities| + 2
    ensures s.meshes <= r.0.meshes
  {
    var target := |s.images|;
    var s1 := Stores(s.images + [TargetImage], s.materials + [PaintingMaterial(target)], s.meshes,
                     s.entities + [PaintingCamera(target, p.transform)]);
    match Resolve(nodes, s.meshes, p.name)
    case Err(e) => (s1, Some(e))
    case Ok((node, aabb)) =>
      (s1.(meshes := s.meshes + [BoxMesh(BoxSize(aabb))],
           entities := s1.entities + [PbrMesh(|s.meshes|, Placement(node.global, aabb), |s.materials|)]), None)
  }

  /** The box a successful step spawns covers the node: it is as large as the node's
      bounds, keeps the node's rotation and scale, sits at the bounds' local centre, and
      wears the material that shows the image the step's camera renders into. */
  lemma PlacedBox(s: Stores, p: PaintingSpec, nodes: seq<NamedNode>)
    requires Resolve(nodes, s.meshes, p.name).Ok?
    ensures var (node, aabb) := Resolve(nodes, s.meshes, p.name).value;
            var t := PaintStep(s, p, nodes).0;
            && node.name == p.name
            && t.meshes == s.meshes + [BoxMesh(Vec3(2.0 * aabb.halfExtents.x, 2.0 * aabb.halfExtents.y, 2.0 * aabb.halfExtents.z))]
            && t.entities == s.entities + [PaintingCamera(|s.images|, p.transform), PbrMesh(|s.meshes|, Transform(aabb.center, node.global.rotation, node.global.scale), |s.materials|)]
            && t.materials[|s.materials|].baseColorTexture == Some(|s.images|)
  {
  }

  /** The whole loop of `create_paintings`; the first failure ends it. */
  function AssembleSpec(s: Stores, list: seq<PaintingSpec>, nodes: seq<NamedNode>): (r: (Stores, Result<(), AssemblyError>))
    ensures s.images <= r.0.images && s.materials <= r.0.materials
    ensures s.meshes <= r.0.meshes && s.entities <= r.0.entities
    decreases |list|
  {
    if list == [] then (s, Ok(()))
    else
      var (s1, err) := PaintStep(s, list[0], nodes);
      if err.Some? then (s1, Err(err.value)) else AssembleSpec(s1, list[1..], nodes)
  }

  /** The image handles the spawned off-screen cameras render into, in spawn order. */
  function CameraTargets(entities: seq<Entity>): seq<ImageHandle>
    decreases |entities|
  {
    if entities == [] then []
    else (if entities[0].OffscreenCamera? then [entities[0].camera.target] else []) + CameraTargets(entities[1..])
  }

  lemma {:induction false} CameraTargetsAppend(a: seq<Entity>, b: seq<Entity>)
    ensures CameraTargets(a + b) == CameraTargets(a) + CameraTargets(b)
    decreases |a|
  {
    if a == [] {
      assert a + b == b;
    } else {
      assert (a + b)[0] == a[0];
      assert (a + b)[1..] == a[1..] + b;
      CameraTargetsAppend(a[1..], b);
    }
  }

  /** One step adds exactly one camera, rendering into the image the step adds. */
  lemma StepAddsOneCamera(s: Stores, p: PaintingSpec, nodes: seq<NamedNode>)
    ensures CameraTargets(PaintStep(s, p, nodes).0.entities) == CameraTargets(s.entities) + [|s.images|]
  {
    var (s1, err) := PaintStep(s, p, nodes);
    var camera := PaintingCamera(|s.images|, p.transform);
    var rest := s1.entities[|s.entities| + 1..];
    assert s1.entities == (s.entities + [camera]) + rest;
    CameraTargetsAppend(s.entities + [camera], rest);
    CameraTargetsAppend(s.entities, [camera]);
    assert CameraTargets([camera]) == [|s.images|];
    if err.None? {
      assert rest == [rest[0]] && rest[0].PbrMesh?;
      assert CameraTargets(rest) == [] + CameraTargets(rest[1..]);
      assert rest[1..] == [];
    } else {
      assert rest == [];
    }
  }

  /** The handles from `lo` up to `hi`. */
  function Span(lo: nat, hi: nat): seq<ImageHandle>
    requires lo <= hi
  {
    seq(hi - lo, k requires 0 <= k => lo + k)
  }

  lemma SpanAppend(lo: nat, mid: nat, hi: nat)
    requires lo <= mid <= hi
    ensures Span(lo, mid) + Span(mid, hi) == Span(lo, hi)
  {
  }

  /** `n` copies of the target image. */
  function Targets(n: nat): seq<Image>
  {
    seq(n, _ => TargetImage)
  }

  lemma TargetsCons(n: nat)
    ensures [TargetImage] + Targets(n) == Targets(n + 1)
  {
  }

  /** Every painting attempted adds one image, always the fixed target, after the
      images already there; a run that succeeds attempted every painting. */
  lemma {:induction false} EachPaintingAddsItsTarget(s: Stores, list: seq<PaintingSpec>, nodes: seq<NamedNode>)
    ensures |s.images| <= |AssembleSpec(s, list, nodes).0.images| <= |s.images| + |list|
    ensures AssembleSpec(s, list, nodes).0.images == s.images + Targets(|AssembleSpec(s, list, nodes).0.images| - |s.images|)
    ensures AssembleSpec(s, list, nodes).1.Ok? ==> |AssembleSpec(s, list, nodes).0.images| == |s.images| + |list|
    decreases |list|
  {
    if list != [] {
      var (s1, err) := PaintStep(s, list[0], nodes);
      if err.None? {
        EachPaintingAddsItsTarget(s1, list[1..], nodes);
        var t := AssembleSpec(s1, list[1..], nodes).0;
        var n := |t.images| - |s1.images|;
        assert t.images == s.images + ([TargetImage] + Targets(n));
        TargetsCons(n);
      } else {
        assert s1.images == s.images + Targets(1);
      }
    }
  }

  /** The cameras a run spawns render into exactly the images it adds, one camera per
      image and in order, so no two paintings share a target. */
  lemma {:induction false} EachPaintingOwnsItsTarget(s: Stores, list: seq<PaintingSpec>, nodes: seq<NamedNode>)
    ensures |s.images| <= |AssembleSpec(s, list, nodes).0.images|
    ensures CameraTargets(AssembleSpec(s, list, nodes).0.entities)
         == CameraTargets(s.entities) + Span(|s.images|, |AssembleSpec(s, list, nodes).0.images|)
    decreases |list|
  {
    if list != [] {
      var (s1, err) := PaintStep(s, list[0], nodes);
      StepAddsOneCamera(s, list[0], nodes);
      assert Span(|s.images|, |s1.images|) == [|s.images|];
      if err.None? {
        EachPaintingOwnsItsTarget(s1, list[1..], nodes);
        var t := AssembleSpec(s1, list[1..], nodes).0;
        SpanAppend(|s.images|, |s1.images|, |t.images|);
      }
    } else {
      assert Span(|s.images|, |s.images|) == [];
    }
  }

  /** The cameras a run adds render into pairwise different images, all of them new. */
  lemma NoSharedTargets(s: Stores, list: seq<PaintingSpec>, nodes: seq<NamedNode>)
    ensures var t := AssembleSpec(s, list, nodes).0;
            var before := |CameraTargets(s.entities)|;
            && before <= |CameraTargets(t.entities)|
            && (forall i, j :: before <= i < j < |CameraTargets(t.entities)| ==> CameraTargets(t.entities)[i] != CameraTargets(t.entities)[j])
            && (forall i :: before <= i < |CameraTargets(t.entities)| ==> |s.images| <= CameraTargets(t.entities)[i] < |t.images|)
  {
    EachPaintingOwnsItsTarget(s, list, nodes);
  }

  /** The declared list assembles iff its one node resolves. Whether or not it does, the
      image, its camera and its material are created first; a failed lookup then adds no
      mesh and no box. */
  lemma DeclaredListOutcome(s: Stores, cameraTransform: Transform, nodes: seq<NamedNode>)
    ensures var (t, r) := AssembleSpec(s, PaintingList(cameraTransform), nodes);
            && |t.entities| > |s.entities|
            && (r.Ok? <==> Resolve(nodes, s.meshes, "paintingMid3").Ok?)
            && (r.Err? ==> r.error == Resolve(nodes, s.meshes, "paintingMid3").error)
            && t.images == s.images + [TargetImage]
            && t.materials == s.materials + [PaintingMaterial(|s.images|)]
            && t.entities[..|s.entities| + 1] == s.entities + [PaintingCamera(|s.images|, cameraTransform)]
            && (r.Err? ==> t.meshes == s.meshes && |t.entities| == |s.entities| + 1)
  {
    var list := PaintingList(cameraTransform);
    assert list[1..] == [];
  }

  /** A concrete case: a node named "paintingMid3" whose world transform translates by
      (3, 0, 0) and scales by 2, over a mesh with local bounds centred at the origin with
      half extents (1, 1, 1). The box is 2 x 2 x 2 and keeps the scale 2 (so it covers
      4 x 4 x 4 in the world), but it sits at the local centre (0, 0, 0): the bounds'
      centre is not moved by the node's transform. */
  lemma CentreIsNotTransformed(cameraTransform: Transform)
    ensures var node := NamedNode("paintingMid3", 0, Transform(Vec3(3.0, 0.0, 0.0), IdentityRotation, Vec3(2.0, 2.0, 2.0)));
            var s := Stores([], [], [SceneMesh(Some(Aabb(Zero, Vec3(1.0, 1.0, 1.0))))], []);
            var (t, r) := AssembleSpec(s, PaintingList(cameraTransform), [node]);
            && r.Ok? && |t.meshes| == 2 && |t.entities| == 2
            && t.meshes[1] == BoxMesh(Vec3(2.0, 2.0, 2.0))
            && t.entities[1] == PbrMesh(1, Transform(Zero, IdentityRotation, Vec3(2.0, 2.0, 2.0)), 0)
  {
    var node := NamedNode("paintingMid3", 0, Transform(Vec3(3.0, 0.0, 0.0), IdentityRotation, Vec3(2.0, 2.0, 2.0)));
    assert FindByName([node], "paintingMid3") == Some(0);
  }

  /** The main-world stores the paintings plugin writes. */
  class PaintingWorld {
    var images: seq<Image>
    var materials: seq<StandardMaterial>
    var meshes: seq<Mesh>
    var entities: seq<Entity>

    function Snapshot(): Stores
      reads this
    {
      Stores(images, materials, meshes, entities)
    }

    /** The stores as the loaded scene left them: its meshes, nothing else yet. */
    constructor (sceneMeshes: seq<Mesh>)
      ensures Snapshot() == Stores([], [], sceneMeshes, [])
    {
      images := [];
      materials := [];
      meshes := sceneMeshes;
      entities := [];
    }

    /** `create_painting`: adds the target image and spawns one camera rendering into
        it; the image's handle is returned. */
    method CreatePainting(transform: Transform) returns (target: ImageHandle)
      modifies this`images, this`entities
      ensures target == |old(images)|
      ensures images == old(images) + [TargetImage]
      ensures entities == old(entities) + [PaintingCamera(target, transform)]
    {
      target := |images|;
      images := images + [TargetImage];
      entities := entities + [PaintingCamera(target, transform)];
    }

    /** One iteration of `create_paintings`; `err` is the `unwrap` that fails, if any. */
    method AssembleOne(p: PaintingSpec, nodes: seq<NamedNode>) returns (err: Option<AssemblyError>)
      modifies this
      ensures (Snapshot(), err) == PaintStep(old(Snapshot()), p, nodes)
    {
      var target := CreatePainting(p.transform);
      var material := |materials|;
      materials := materials + [PaintingMaterial(target)];
      var found := FindByName(nodes, p.name);
      if found.None? {
        return Some(NameNotFound);
      }
      var node := nodes[found.value];
      if node.mesh >= |meshes| {
        return Some(MeshNotLoaded(node.mesh));
      }
      var bounds := ComputeAabb(meshes[node.mesh]);
      if bounds.None? {
        return Some(NoBounds(node.mesh));
      }
      var aabb := bounds.value;
      var placement := Placement(node.global, aabb);
      var mesh := |meshes|;
      meshes := meshes + [BoxMesh(BoxSize(aabb))];
      entities := entities + [PbrMesh(mesh, placement, material)];
      err := None;
    }

    /** The loop of `create_paintings` over a list of paintings. */
    method AssemblePaintings(list: seq<PaintingSpec>, nodes: seq<NamedNode>) returns (r: Result<(), AssemblyError>)
      modifies this
      ensures (Snapshot(), r) == AssembleSpec(old(Snapshot()), list, nodes)
    {
      for i := 0 to |list|
        invariant AssembleSpec(Snapshot(), list[i..], nodes) == AssembleSpec(old(Snapshot()), list, nodes)
      {
        assert list[i..][1..] == list[i + 1..];
        var err := AssembleOne(list[i], nodes);
        if err.Some? {
          return Err(err.value);
        }
      }
      assert list[|list|..] == [];
      r := Ok(());
    }

    /** `create_paintings`: the declared list, against the scene's nodes. */
    method CreatePaintings(nodes: seq<NamedNode>, cameraTransform: Transform) returns (r: Result<(), AssemblyError>)
      modifies this
      ensures (Snapshot(), r) == AssembleSpec(old(Snapshot()), PaintingList(cameraTransform), nodes)
    {
      r := AssemblePaintings(PaintingList(cameraTransform), nodes);
    }
  }

  /** One frame of the environment together with this plugin: the paintings are
      assembled exactly when the frame moves the environment from `Loading` to `Ready`
      (`on_enter(EnvState::Ready)`), and the stores are untouched otherwise. */
  method ReadyFrame(env: Environment.EnvironmentApp, world: PaintingWorld, events: seq<AssetEvent>,
                    nodes: seq<NamedNode>, cameraTransform: Transform)
    returns (assembly: Option<Result<(), AssemblyError>>)
    requires env.queued == None
    modifies env`queued, env`current, world
    ensures env.queued == None
    ensures env.current == Step(old(env.current), Environment.Loading, Environment.Ready, events)
    ensures assembly.Some? <==> old(env.current) == Environment.Loading && env.current == Environment.Ready
    ensures assembly.Some? ==> (world.Snapshot(), assembly.value) == AssembleSpec(old(world.Snapshot()), PaintingList(cameraTransform), nodes)
    ensures assembly.None? ==> world.Snapshot() == old(world.Snapshot())
  {
    StepMovesOnlyOnCreated(env.current, Environment.Loading, Environment.Ready, events);
    var entered := env.Frame(events);
    if entered {
      var r := world.CreatePaintings(nodes, cameraTransform);
      assembly := Some(r);
    } else {
      assembly := None;
    }
  }
}
