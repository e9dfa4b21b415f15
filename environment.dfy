/** The environment plugin: it loads the gallery scene at startup, spawns it, and keeps
    the `EnvState` machine in `Loading` until any scene asset reports `Created`; the
    event's handle is not checked. */
module Environment {
  import opened Wrappers
  import opened LoadState

  datatype EnvState = Loading | Ready

  /** The id held by a default-constructed `Handle<Scene>`. */
  const DefaultHandle: SceneHandle := 0

  /** The scene the startup system asks the asset server for. */
  const EnvAssetPath := "models/shaderHall/shaderHall.gltf#Scene0"

  /** The plugin's part of the app: the `Environment` resource, the scenes spawned, the
      asset requests made and the `State<EnvState>` resource. */
  class EnvironmentApp {
    /** `Environment.handle`. */
    var handle: SceneHandle
    /** The `scene` of every `SceneBundle` spawned, in spawn order. */
    var scenes: seq<SceneHandle>
    /** The paths passed to `AssetServer::load`, in call order. */
    var loads: seq<string>
    /** The current state. */
    var current: EnvState
    /** A transition queued by `State::set` and not yet applied. */
    var queued: Option<EnvState>

    /** `EnvironmentPlugin::build`: the state starts in `Loading` and the
        `Environment` resource holds a default handle. */
    constructor ()
      ensures current == Loading && queued == None
      ensures handle == DefaultHandle && scenes == [] && loads == []
    {
      current := Loading;
      queued := None;
      handle := DefaultHandle;
      scenes := [];
      loads := [];
    }

    /** The startup system: `loaded` is the handle the asset server returns for the
        request; it is stored in the resource and the one scene spawned uses it. */
    method Setup(loaded: SceneHandle)
      modifies this`handle, this`scenes, this`loads
      ensures loads == old(loads) + [EnvAssetPath]
      ensures handle == loaded
      ensures scenes == old(scenes) + [handle]
    {
      loads := loads + [EnvAssetPath];
      handle := loaded;
      scenes := scenes + [handle];
    }

    /** `State::set`: queues a transition to `s`; the current state is untouched until
        the state driver applies it. */
    method Set(s: EnvState)
      modifies this`queued
      ensures queued == Some(s)
    {
      queued := Some(s);
    }

    /** `wait_for_load`: every `Created` event in the batch requests `Ready`; other
        event kinds are skipped. */
    method WaitForLoad(events: seq<AssetEvent>)
      modifies this`queued
      ensures queued == Requested(old(queued), Ready, events)
    {
      var i := 0;
      while i < |events|
        invariant 0 <= i <= |events|
        invariant Requested(queued, Ready, events[i..]) == Requested(old(queued), Ready, events)
      {
        assert events[i..][1..] == events[i + 1..];
        if events[i].Created? {
          Set(Ready);
        }
        i := i + 1;
      }
      assert events[i..] == [];
    }

    /** One frame: `wait_for_load` runs only while in `Loading`, then the state driver
        applies the queued transition. `entered` tells whether `on_enter(Ready)` fires. */
    method Frame(events: seq<AssetEvent>) returns (entered: bool)
      requires queued == None
      modifies this`queued, this`current
      ensures queued == None
      ensures current == Step(old(current), Loading, Ready, events)
      ensures entered <==> old(current) != current
    {
      var before := current;
      if current == Loading {
        WaitForLoad(events);
      }
      if queued.Some? {
        current := queued.value;
        queued := None;
      }
      entered := before != current;
    }
  }

  /** The state machine starts in `Loading`, a frame whose batch has no `Created` event
      leaves it unchanged, a `Created` event moves it to `Ready`, and `Ready` is never
      left. */
  lemma EnvFrameLaws(current: EnvState, events: seq<AssetEvent>)
    ensures !HasCreated(events) ==> Step(current, Loading, Ready, events) == current
    ensures HasCreated(events) ==> Step(Loading, Loading, Ready, events) == Ready
    ensures Step(Ready, Loading, Ready, events) == Ready
  {
    StepMovesOnlyOnCreated(current, Loading, Ready, events);
    StepMovesOnlyOnCreated(Loading, Loading, Ready, events);
    StepMovesOnlyOnCreated(Ready, Loading, Ready, events);
  }

  /** The wait does not look at which scene was created: a `Created` event for any scene
      handle, not only the one stored in `Environment`, moves `Loading` to `Ready`. */
  lemma AnySceneCreatedReadies(other: SceneHandle, before: seq<AssetEvent>, after: seq<AssetEvent>)
    ensures Step(Loading, Loading, Ready, before + [Created(other)] + after) == Ready
  {
    var events := before + [Created(other)] + after;
    assert events[|before|].Created?;
    StepMovesOnlyOnCreated(Loading, Loading, Ready, events);
  }

  /** Over any run of frames from the initial state, the app is `Ready` iff some frame
      carried a `Created` event, and `on_enter(Ready)` fires at most once. */
  lemma EnvRunLaws(frames: seq<seq<AssetEvent>>)
    ensures Run(Loading, Loading, Ready, frames) == Ready <==> SomeFrameCreated(frames)
    ensures Entries(Loading, Loading, Ready, frames) <= 1
  {
    RunFromLoading(Loading, Ready, frames);
  }
}
