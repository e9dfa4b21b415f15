/** The load state machine behind both `wait_for_load` systems: a batch of scene asset
    events is folded into a pending state transition, and a frame applies it. The module
    is generic in the state type, so that the environment plugin's `EnvState`
    (`Loading -> Ready`) and the application's `WorldState` (`Loading -> Playing`) share
    one definition. */
module LoadState {
  import opened Wrappers

  /** An opaque id of a scene asset. */
  type SceneHandle = nat

  /** The asset lifecycle notifications of `AssetEvent<Scene>`. */
  datatype AssetEvent = Created(handle: SceneHandle) | Modified(handle: SceneHandle) | Removed(handle: SceneHandle)

  predicate HasCreated(events: seq<AssetEvent>)
  {
    exists i :: 0 <= i < |events| && events[i].Created?
  }

  /** The transition left queued in the state resource after the event loop: every
      `Created` event calls `set(target)`, every other kind falls through. */
  function Requested<S>(queued: Option<S>, target: S, events: seq<AssetEvent>): (r: Option<S>)
    ensures r == queued || r == Some(target)
    decreases |events|
  {
    if events == [] then queued
    else Requested(if events[0].Created? then Some(target) else queued, target, events[1..])
  }

  lemma HasCreatedCons(events: seq<AssetEvent>)
    requires events != []
    ensures HasCreated(events) <==> events[0].Created? || HasCreated(events[1..])
  {
    if HasCreated(events) && !events[0].Created? {
      var i :| 0 <= i < |events| && events[i].Created?;
      assert events[1..][i - 1].Created?;
    }
    if HasCreated(events[1..]) {
      var j :| 0 <= j < |events[1..]| && events[1..][j].Created?;
      assert events[j + 1].Created?;
    }
  }

  /** A batch requests the target iff it holds a `Created` event; otherwise whatever was
      queued before stays queued. */
  lemma {:induction false} RequestedIffCreated<S>(queued: Option<S>, target: S, events: seq<AssetEvent>)
    ensures Requested(queued, target, events) == if HasCreated(events) then Some(target) else queued
    decreases |events|
  {
    if events != [] {
      HasCreatedCons(events);
      RequestedIffCreated(if events[0].Created? then Some(target) else queued, target, events[1..]);
    }
  }

  /** `Modified` and `Removed` events are ignored wherever they occur in a batch. */
  lemma IgnoredEventIsNeutral<S>(queued: Option<S>, target: S, before: seq<AssetEvent>, e: AssetEvent, after: seq<AssetEvent>)
    requires !e.Created?
    ensures Requested(queued, target, before + [e] + after) == Requested(queued, target, before + after)
  {
    var with, without := before + [e] + after, before + after;
    RequestedIffCreated(queued, target, with);
    RequestedIffCreated(queued, target, without);
    if HasCreated(with) {
      var i :| 0 <= i < |with| && with[i].Created?;
      if i < |before| {
        assert without[i].Created?;
      } else {
        assert i > |before|;
        assert without[i - 1].Created?;
      }
    }
    if HasCreated(without) {
      var i :| 0 <= i < |without| && without[i].Created?;
      if i < |before| {
        assert with[i].Created?;
      } else {
        assert with[i + 1].Created?;
      }
    }
  }

  /** One frame: the waiting system runs only while the state is `loading` (it is
      scheduled with `on_update(loading)`), starting from an empty queue, and the state
      driver then applies whatever transition it queued. */
  function Step<S(==)>(current: S, loading: S, target: S, events: seq<AssetEvent>): (r: S)
    ensures r == current || r == target
    ensures current != loading ==> r == current
  {
    if current != loading then current
    else match Requested(None, target, events)
      case Some(next) => next
      case None => current
  }

  /** The state after a run of frames, one batch of events per frame. */
  function Run<S(==)>(current: S, loading: S, target: S, frames: seq<seq<AssetEvent>>): (r: S)
    ensures r == current || r == target
    decreases |frames|
  {
    if frames == [] then current
    else Run(Step(current, loading, target, frames[0]), loading, target, frames[1..])
  }

  /** How often the `on_enter(target)` hook fires during a run: once per frame whose
      transition changes the state. */
  function Entries<S(==)>(current: S, loading: S, target: S, frames: seq<seq<AssetEvent>>): (n: nat)
    ensures n <= |frames|
    decreases |frames|
  {
    if frames == [] then 0
    else
      var next := Step(current, loading, target, frames[0]);
      (if next != current then 1 else 0) + Entries(next, loading, target, frames[1..])
  }

  predicate SomeFrameCreated(frames: seq<seq<AssetEvent>>)
  {
    exists i :: 0 <= i < |frames| && HasCreated(frames[i])
  }

  lemma SomeFrameCreatedCons(frames: seq<seq<AssetEvent>>)
    requires frames != []
    ensures SomeFrameCreated(frames) <==> HasCreated(frames[0]) || SomeFrameCreated(frames[1..])
  {
    if SomeFrameCreated(frames) && !HasCreated(frames[0]) {
      var i :| 0 <= i < |frames| && HasCreated(frames[i]);
      assert HasCreated(frames[1..][i - 1]);
    }
    if SomeFrameCreated(frames[1..]) {
      var j :| 0 <= j < |frames[1..]| && HasCreated(frames[1..][j]);
      assert HasCreated(frames[j + 1]);
    }
  }

  /** A frame moves `loading` to `target` iff its batch holds a `Created` event, and
      never moves any other state. */
  lemma StepMovesOnlyOnCreated<S>(current: S, loading: S, target: S, events: seq<AssetEvent>)
    ensures Step(current, loading, target, events)
         == if current == loading && HasCreated(events) then target else current
  {
    RequestedIffCreated(None, target, events);
  }

  /** The target state is never left: later batches, `Created` or not, are no-ops. */
  lemma {:induction false} TargetIsNeverLeft<S>(loading: S, target: S, frames: seq<seq<AssetEvent>>)
    requires loading != target
    ensures Run(target, loading, target, frames) == target
    ensures Entries(target, loading, target, frames) == 0
    decreases |frames|
  {
    if frames != [] {
      StepMovesOnlyOnCreated(target, loading, target, frames[0]);
      TargetIsNeverLeft(loading, target, frames[1..]);
    }
  }

  /** Starting in `loading`, a run ends in `target` iff some frame delivered a `Created`
      event (and stays `loading` otherwise), and the `on_enter(target)` hook fires
      exactly once in the first case and never in the second. */
  lemma {:induction false} RunFromLoading<S>(loading: S, target: S, frames: seq<seq<AssetEvent>>)
    requires loading != target
    ensures Run(loading, loading, target, frames) == if SomeFrameCreated(frames) then target else loading
    ensures Entries(loading, loading, target, frames) == if SomeFrameCreated(frames) then 1 else 0
    decreases |frames|
  {
    if frames != [] {
      SomeFrameCreatedCons(frames);
      StepMovesOnlyOnCreated(loading, loading, target, frames[0]);
      if HasCreated(frames[0]) {
        TargetIsNeverLeft(loading, target, frames[1..]);
      } else {
        RunFromLoading(loading, target, frames[1..]);
      }
    }
  }
}
