/** The application wiring of the gallery: a `WorldState` machine that waits for the
    gallery scene and then places two shader panels, and, in the render world, the
    one-time creation of the shared-uniform bind group, the render command that binds
    it, and the rewrite of every opaque draw list that routes each object through that
    command. */
module Gallery {
  import opened Wrappers
  import opened Geometry
  import opened LoadState
  import opened Shader

  datatype WorldState = Loading | Playing

  /** A spawned `MaterialMeshBundle`: handles into the mesh and material stores. */
  datatype MaterialMeshBundle = MaterialMeshBundle(mesh: nat, transform: Transform, material: nat)

  /** The mesh of each panel `on_load` places: `shape::Box::new(1., 1., 0.1)`. */
  const PanelMesh := BoxMesh(Vec3(1.0, 1.0, 0.1))

  function DigitChar(d: nat): (c: char)
    requires d < 10
    ensures '0' <= c <= '9' && c as int - '0' as int == d
  {
    "0123456789"[d]
  }

  /** The decimal text of `n`, as `format!` writes it. */
  function Decimal(n: nat): (s: string)
    ensures |s| >= 1 && forall k :: 0 <= k < |s| ==> '0' <= s[k] <= '9'
    ensures s[|s| - 1] as int - '0' as int == n % 10
  {
    if n < 10 then [DigitChar(n)] else Decimal(n / 10) + [DigitChar(n % 10)]
  }

  /** Different numbers are written differently. */
  lemma {:induction false} DecimalInjective(a: nat, b: nat)
    requires Decimal(a) == Decimal(b)
    ensures a == b
    decreases a
  {
    var s := Decimal(a);
    if a >= 10 && b >= 10 {
      assert Decimal(a)[..|s| - 1] == Decimal(a / 10);
      assert Decimal(b)[..|s| - 1] == Decimal(b / 10);
      DecimalInjective(a / 10, b / 10);
    }
  }

  /** The entry point `format!("fragment{i}")`. */
  function FragmentEntryPoint(i: nat): string
  {
    "fragment" + Decimal(i)
  }

  /** An entry point is the word "fragment" followed by decimal digits only, the last
      of them being the last digit of the panel index. */
  lemma FragmentEntryPointShape(i: nat)
    ensures var name := FragmentEntryPoint(i);
            && |name| > 8 && name[..8] == "fragment"
            && (forall k :: 8 <= k < |name| ==> '0' <= name[k] <= '9')
            && name[|name| - 1] as int - '0' as int == i % 10
  {
    assert FragmentEntryPoint(i)[8..] == Decimal(i);
  }

  /** Every panel index names its own entry point, so no two panels share a pipeline
      variant. */
  lemma FragmentEntryPointsDistinct(i: nat, j: nat)
    ensures FragmentEntryPoint(i) == FragmentEntryPoint(j) <==> i == j
  {
    if FragmentEntryPoint(i) == FragmentEntryPoint(j) {
      assert FragmentEntryPoint(i)[8..] == Decimal(i);
      assert FragmentEntryPoint(j)[8..] == Decimal(j);
      DecimalInjective(i, j);
    }
  }

  /** The materials of the two panels, as `on_load`'s loop builds them. */
  lemma PanelMaterials()
    ensures seq(2, k requires 0 <= k => ShaderMaterial(FragmentEntryPoint(k))) == [ShaderMaterial("fragment0"), ShaderMaterial("fragment1")]
  {
    assert FragmentEntryPoint(0) == "fragment0";
    assert FragmentEntryPoint(1) == "fragment1";
  }

  /** The main-world state the gallery systems touch. */
  class GalleryApp {
    var current: WorldState
    var queued: Option<WorldState>
    /** `Assets<Mesh>`, a handle being a position. */
    var meshes: seq<Mesh>
    /** `Assets<ShaderMaterial>`, a handle being a position. */
    var materials: seq<ShaderMaterial>
    /** The material meshes spawned, in spawn order. */
    var spawned: seq<MaterialMeshBundle>

    /** `add_state(WorldState::Loading)` with empty stores. */
    constructor ()
      ensures current == Loading && queued == None
      ensures meshes == [] && materials == [] && spawned == []
    {
      current := Loading;
      queued := None;
      meshes := [];
      materials := [];
      spawned := [];
    }

    /** `State::set`: queues a transition to `s`; the current state is untouched until
        the state driver applies it. */
    method Set(s: WorldState)
      modifies this`queued
      ensures queued == Some(s)
    {
      queued := Some(s);
    }

    /** `wait_for_load`: each `Created` event sets `Playing`; the `_` arm skips the rest. */
    method WaitForLoad(events: seq<AssetEvent>)
      modifies this`queued
      ensures queued == Requested(old(queued), Playing, events)
    {
      var i := 0;
      while i < |events|
        invariant 0 <= i <= |events|
        invariant Requested(queued, Playing, events[i..]) == Requested(old(queued), Playing, events)
      {
        assert events[i..][1..] == events[i + 1..];
        match events[i] {
          case Created(_) => Set(Playing);
          case _ =>
        }
        i := i + 1;
      }
      assert events[i..] == [];
    }

    /** `on_load`: two panels, each with a fresh box mesh and a fresh material, the
        first at x = 0 with entry point "fragment0", the second at x = 2 with
        "fragment1". */
    method OnLoad()
      modifies this`meshes, this`materials, this`spawned
      ensures meshes == old(meshes) + [PanelMesh, PanelMesh]
      ensures materials == old(materials) + [ShaderMaterial("fragment0"), ShaderMaterial("fragment1")]
      ensures spawned == old(spawned) + [
                MaterialMeshBundle(|old(meshes)|, FromTranslation(Vec3(0.0, 1.0, 1.0)), |old(materials)|),
                MaterialMeshBundle(|old(meshes)| + 1, FromTranslation(Vec3(2.0, 1.0, 1.0)), |old(materials)| + 1)]
    {
      ghost var m0, t0 := |meshes|, |materials|;
      for i := 0 to 2
        invariant meshes == old(meshes) + seq(i, _ => PanelMesh)
        invariant materials == old(materials) + seq(i, k requires 0 <= k => ShaderMaterial(FragmentEntryPoint(k)))
        invariant spawned == old(spawned) + seq(i, k requires 0 <= k => MaterialMeshBundle(m0 + k, FromTranslation(Vec3(2.0 * k as real, 1.0, 1.0)), t0 + k))
      {
        var mesh := |meshes|;
        meshes := meshes + [PanelMesh];
        var material := |materials|;
        materials := materials + [ShaderMaterial(FragmentEntryPoint(i))];
        spawned := spawned + [MaterialMeshBundle(mesh, FromTranslation(Vec3(2.0 * i as real, 1.0, 1.0)), material)];
      }
      PanelMaterials();
    }

    /** One frame: `wait_for_load` runs while `Loading`, the queued transition is
        applied, and on entering `Playing` the `on_load` system runs. */
    method Frame(events: seq<AssetEvent>) returns (entered: bool)
      requires queued == None
      modifies this
      ensures queued == None
      ensures current == Step(old(current), Loading, Playing, events)
      ensures entered <==> old(current) != current
      ensures entered ==> (meshes == old(meshes) + [PanelMesh, PanelMesh]
                           && materials == old(materials) + [ShaderMaterial("fragment0"), ShaderMaterial("fragment1")]
                           && spawned == old(spawned) + [
                                MaterialMeshBundle(|old(meshes)|, FromTranslation(Vec3(0.0, 1.0, 1.0)), |old(materials)|),
                                MaterialMeshBundle(|old(meshes)| + 1, FromTranslation(Vec3(2.0, 1.0, 1.0)), |old(materials)| + 1)])
      ensures !entered ==> meshes == old(meshes) && materials == old(materials) && spawned == old(spawned)
    {
      var before := current;
      if current == Loading {
        WaitForLoad(events);
      }
      if queued.Some? {
        current := queued.value;
        queued := None;
      }
      entered := before != current;
      if entered {
        OnLoad();
      }
    }
  }

  /** The world reaches `Playing` iff some frame delivered a `Created` event, never
      leaves it, and so places its panels at most once. */
  lemma WorldRunLaws(frames: seq<seq<AssetEvent>>)
    ensures Run(Loading, Loading, Playing, frames) == Playing <==> SomeFrameCreated(frames)
    ensures Run(Playing, Loading, Playing, frames) == Playing
    ensures Entries(Loading, Loading, Playing, frames) <= 1
  {
    RunFromLoading(Loading, Playing, frames);
    TargetIsNeverLeft(Loading, Playing, frames);
  }

  // ---------------------------------------------------------------------------
  // Render world

  /** The bind-group slot `SetShaderSharedUniforms<3>` writes (`ConfigureShaders`). */
  const SharedUniformsSlot: nat := 3

  type BindGroupId = nat
  type DrawFunctionId = nat

  /** The render commands registered for the `Opaque3d` phase. */
  datatype DrawCommand = DrawMaterial | ConfigureShaders

  /** One opaque draw item. */
  datatype Opaque3d = Opaque3d(entity: nat, distance: real, pipeline: nat, drawFunction: DrawFunctionId)

  /** A view's `RenderPhase<Opaque3d>`. */
  class OpaquePhase {
    var items: seq<Opaque3d>

    constructor (items: seq<Opaque3d>)
      ensures this.items == items
    {
      this.items := items;
    }
  }

  /** The per-item rewrite of `render`: each item becomes a copy that draws with
      `configure` followed by the item itself. */
  function Duplicate(items: seq<Opaque3d>, configure: DrawFunctionId): (r: seq<Opaque3d>)
    ensures |r| == 2 * |items|
  {
    if items == [] then []
    else [items[0].(drawFunction := configure), items[0]] + Duplicate(items[1..], configure)
  }

  /** Position by position: slot 2k holds item k with only its draw function replaced,
      slot 2k+1 holds item k unchanged. */
  lemma {:induction false} DuplicateAt(items: seq<Opaque3d>, configure: DrawFunctionId, k: nat)
    requires k < |items|
    ensures Duplicate(items, configure)[2 * k] == Opaque3d(items[k].entity, items[k].distance, items[k].pipeline, configure)
    ensures Duplicate(items, configure)[2 * k + 1] == items[k]
    decreases k
  {
    if k > 0 {
      DuplicateAt(items[1..], configure, k - 1);
    }
  }

  /** The odd positions of a list. */
  function Originals(s: seq<Opaque3d>): seq<Opaque3d>
    decreases |s|
  {
    if |s| < 2 then [] else [s[1]] + Originals(s[2..])
  }

  /** The original items survive the rewrite, all of them and in their order. */
  lemma {:induction false} OriginalsOfDuplicate(items: seq<Opaque3d>, configure: DrawFunctionId)
    ensures Originals(Duplicate(items, configure)) == items
  {
    if items != [] {
      var r := Duplicate(items, configure);
      assert r[2..] == Duplicate(items[1..], configure);
      OriginalsOfDuplicate(items[1..], configure);
    }
  }

  datatype SetupOutcome = Skipped | Inserted | Panicked

  /** What one `render_setup` call does, given whether its flag is set and whether the
      bind group could be built (`None` makes the `unwrap` panic). */
  function SetupOutcomeOf(done: bool, created: Option<BindGroupId>): SetupOutcome
  {
    if done then Skipped else if created.Some? then Inserted else Panicked
  }

  /** How many bind groups a run of `render_setup` calls inserts; a panic ends the run. */
  function InsertsOverRun(done: bool, attempts: seq<Option<BindGroupId>>): (n: nat)
    ensures done ==> n == 0
    ensures n <= |attempts|
    decreases |attempts|
  {
    if attempts == [] then 0
    else match SetupOutcomeOf(done, attempts[0])
      case Skipped => InsertsOverRun(done, attempts[1..])
      case Inserted => 1 + InsertsOverRun(true, attempts[1..])
      case Panicked => 0
  }

  /** The bind group is inserted at most once over any run, and never once the flag is
      set; a first successful call does insert it. */
  lemma {:induction false} InsertedAtMostOnce(done: bool, attempts: seq<Option<BindGroupId>>)
    ensures InsertsOverRun(done, attempts) <= if done then 0 else 1
    ensures !done && attempts != [] && attempts[0].Some? ==> InsertsOverRun(done, attempts) == 1
    decreases |attempts|
  {
    if attempts != [] {
      InsertedAtMostOnce(true, attempts[1..]);
      InsertedAtMostOnce(done, attempts[1..]);
    }
  }

  /** The render sub-app's state the gallery systems touch. */
  class RenderWorld {
    /** `DrawFunctions<Opaque3d>`: the id of each registered render command. */
    var drawFunctions: map<DrawCommand, DrawFunctionId>
    /** `render_setup`'s `Local<bool>`. */
    var setupDone: bool
    /** The `CommonUniformsBindGroup` resource. */
    var bindGroup: Option<BindGroupId>
    /** How many times the resource has been inserted; proof bookkeeping only. */
    ghost var inserts: nat

    ghost predicate Valid()
      reads this
    {
      inserts == (if setupDone then 1 else 0) && (setupDone <==> bindGroup.Some?)
    }

    constructor (drawFunctions: map<DrawCommand, DrawFunctionId>)
      ensures Valid()
      ensures this.drawFunctions == drawFunctions
      ensures !setupDone && bindGroup == None && inserts == 0
    {
      this.drawFunctions := drawFunctions;
      setupDone := false;
      bindGroup := None;
      inserts := 0;
    }

    /** `render_setup`: once its flag is set it returns at once; otherwise it builds the
        bind group (`created`; `None` panics before the flag is set), inserts it as a
        resource and sets the flag. `Valid` keeps the insertion count at most one. */
    method RenderSetup(created: Option<BindGroupId>) returns (outcome: SetupOutcome)
      requires Valid()
      modifies this`setupDone, this`bindGroup, this`inserts
      ensures Valid()
      ensures outcome == SetupOutcomeOf(old(setupDone), created)
      ensures outcome == Inserted ==> bindGroup == created && setupDone && inserts == old(inserts) + 1
      ensures outcome != Inserted ==> setupDone == old(setupDone) && bindGroup == old(bindGroup) && inserts == old(inserts)
    {
      if setupDone {
        return Skipped;
      }
      if created.None? {
        return Panicked;
      }
      bindGroup := created;
      inserts := inserts + 1;
      setupDone := true;
      outcome := Inserted;
    }

    /** `render`: every view's opaque items are replaced by their duplicated list,
        each view on its own. The `ConfigureShaders` id is registered at startup, so its
        lookup succeeds. */
    method Render(views: seq<OpaquePhase>)
      requires ConfigureShaders in drawFunctions
      requires forall i, j :: 0 <= i < j < |views| ==> views[i] != views[j]
      modifies set v | v in views
      ensures forall i :: 0 <= i < |views| ==> views[i].items == Duplicate(old(views[i].items), drawFunctions[ConfigureShaders])
    {
      var configure := drawFunctions[ConfigureShaders];
      for v := 0 to |views|
        invariant forall i :: 0 <= i < v ==> views[i].items == Duplicate(old(views[i].items), configure)
        invariant forall i :: v <= i < |views| ==> views[i].items == old(views[i].items)
      {
        views[v].items := Duplicate(views[v].items, configure);
      }
    }
  }

  datatype RenderCommandResult = Success | Failure

  /** The bind groups set on a render pass, by slot. */
  class TrackedRenderPass {
    var bindGroups: map<nat, BindGroupId>

    constructor ()
      ensures bindGroups == map[]
    {
      bindGroups := map[];
    }
  }

  /** `SetShaderSharedUniforms<3>::render`: binds the shared-uniform bind group at slot
      3 of the pass and succeeds; the resource exists once `render_setup` has run. */
  method SetShaderSharedUniforms(world: RenderWorld, pass: TrackedRenderPass) returns (r: RenderCommandResult)
    requires world.bindGroup.Some?
    modifies pass
    ensures pass.bindGroups == old(pass.bindGroups)[SharedUniformsSlot := world.bindGroup.value]
    ensures r == Success
  {
    pass.bindGroups := pass.bindGroups[SharedUniformsSlot := world.bindGroup.value];
    r := Success;
  }
}
