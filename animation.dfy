/**
 * Animation actions as the state machine sees them, and what each state's
 * `Enter` does to its own action. The rendering library's mixer is not
 * modelled: its blending and playback calls are recorded as `MixerCall`s.
 */
module Animation {
  import opened Wrappers
  import opened States

  datatype LoopMode = LoopRepeat | LoopOnce(repetitions: nat)

  /** The fields of an animation action that the states write; `duration` is its clip's length in seconds. */
  datatype Action = Action(
    duration: real,
    time: real,
    enabled: bool,
    timeScale: real,
    weight: real,
    loop: LoopMode,
    clampWhenFinished: bool)

  /** A fresh action for a clip, with the mixer's defaults: at time 0, enabled, full speed and weight, looping. */
  function ClipAction(duration: real): Action {
    Action(duration, 0.0, true, 1.0, 1.0, LoopRepeat, false)
  }

  /** A call into the mixer on the action of a state: `play()`, `reset()`, `crossFadeFrom(from, seconds, warp)`. */
  datatype MixerCall =
    | PlayCall(action: StateKind)
    | ResetCall(action: StateKind)
    | CrossFadeCall(from: StateKind, action: StateKind, seconds: real, warp: bool)

  /** StandardWalk and Run are the one pair between which the playback position carries over. */
  predicate Synced(k: StateKind, prev: StateKind) {
    (k == StandardWalk && prev == Run) || (k == Run && prev == StandardWalk)
  }

  /**
   * The StandardWalk and Run clips have nonzero length: moving from one to the
   * other divides by the length of the clip being left.
   */
  predicate SyncLengths(actions: map<StateKind, Action>) {
    && StandardWalk in actions && actions[StandardWalk].duration != 0.0
    && Run in actions && actions[Run].duration != 0.0
  }

  /** Length of the cross-fade into each state; Waving fades in faster. */
  function FadeSeconds(k: StateKind): real {
    if k == Waving then 0.2 else 0.5
  }

  /**
   * The new action's time when switching between StandardWalk and Run:
   * `prevAction.time * (curDuration / prevDuration)`. It keeps the fraction
   * of the clip already played.
   */
  function SyncedTime(prevTime: real, prevDuration: real, curDuration: real): (t: real)
    requires prevDuration != 0.0
    ensures curDuration != 0.0 ==> t / curDuration == prevTime / prevDuration
    ensures curDuration == 0.0 ==> t == 0.0
    ensures 0.0 < prevDuration && 0.0 <= prevTime <= prevDuration && 0.0 <= curDuration ==> 0.0 <= t <= curDuration
  {
    var ratio := curDuration / prevDuration;
    var t := prevTime * ratio;
    assert curDuration != 0.0 ==> t / curDuration == prevTime / prevDuration by {
      if curDuration != 0.0 {
        assert t == (prevTime / prevDuration) * curDuration;
      }
    }
    assert 0.0 < prevDuration && 0.0 <= prevTime <= prevDuration && 0.0 <= curDuration ==> 0.0 <= t <= curDuration by {
      if 0.0 < prevDuration && 0.0 <= prevTime <= prevDuration && 0.0 <= curDuration {
        assert 0.0 <= ratio;
        assert prevTime * ratio <= prevDuration * ratio;
        assert prevDuration * ratio == curDuration;
      }
    }
    t
  }

  /**
   * The action of state `k` after `k`'s `Enter(prev)`, where `actions` are
   * the actions before it. With no previous state the action is only
   * played. Otherwise it is enabled and its time is either carried over
   * (StandardWalk and Run) or reset to 0; Waving is reset and set to play
   * once and hold its last frame.
   */
  function Entered(k: StateKind, prev: Option<StateKind>, actions: map<StateKind, Action>): (a: Action)
    requires k in actions
    requires prev.Some? ==> prev.value in actions
    requires prev.Some? && Synced(k, prev.value) ==> actions[prev.value].duration != 0.0
    ensures a.duration == actions[k].duration
    ensures prev.None? ==> a == actions[k]
    ensures prev.Some? ==> a.enabled
    ensures prev.Some? && Synced(k, prev.value) && a.duration != 0.0 ==>
      a.time / a.duration == actions[prev.value].time / actions[prev.value].duration
    ensures prev.Some? && Synced(k, prev.value) && a.duration == 0.0 ==> a.time == 0.0
    ensures prev.Some? && Synced(k, prev.value) ==>
      a.timeScale == actions[k].timeScale && a.weight == actions[k].weight
    ensures prev.Some? && !Synced(k, prev.value) ==> a.time == 0.0
    ensures prev.Some? && !Synced(k, prev.value) && k != Waving ==>
      a.timeScale == 1.0 && a.weight == 1.0
    ensures prev.Some? && k == Waving ==>
      a.loop == LoopOnce(1) && a.clampWhenFinished &&
      a.timeScale == actions[k].timeScale && a.weight == actions[k].weight
    ensures k != Waving ==> a.loop == actions[k].loop && a.clampWhenFinished == actions[k].clampWhenFinished
  {
    var cur := actions[k];
    match prev
    case None => cur
    case Some(p) =>
      var prevAction := actions[p];
      if k == Waving then
        cur.(time := 0.0, enabled := true, loop := LoopOnce(1), clampWhenFinished := true)
      else if Synced(k, p) then
        cur.(enabled := true, time := SyncedTime(prevAction.time, prevAction.duration, cur.duration))
      else
        cur.(enabled := true, time := 0.0, timeScale := 1.0, weight := 1.0)
  }

  /** The mixer calls `Enter(prev)` of state `k` makes, in order. */
  function EnterCalls(k: StateKind, prev: Option<StateKind>): (r: seq<MixerCall>)
    ensures |r| == if prev.None? then 1 else if k == Waving then 3 else 2
    ensures r[|r| - 1] == PlayCall(k)
    ensures prev.None? ==> r == [PlayCall(k)]
    ensures prev.Some? ==> |r| >= 2 && r[|r| - 2] == CrossFadeCall(prev.value, k, FadeSeconds(k), true)
    ensures ResetCall(k) in r <==> k == Waving && prev.Some?
    ensures forall j :: 0 <= j < |r| ==> r[j].action == k
  {
    match prev
    case None => [PlayCall(k)]
    case Some(p) =>
      (if k == Waving then [ResetCall(k)] else []) + [CrossFadeCall(p, k, FadeSeconds(k), true), PlayCall(k)]
  }

  /** The character's `position.y` after `Enter` of state `k`, given its value `y` before. */
  function EnteredY(k: StateKind, y: real, initialY: real): (r: real)
    ensures k == Idle ==> r == initialY
    ensures (k == StandardWalk || k == Run || k == Crouch) ==> r == 0.0
    ensures (k == SneakWalk || k == Waving) ==> r == y
  {
    match k
    case Idle => initialY
    case StandardWalk | Run | Crouch => 0.0
    case Waving | SneakWalk => y
  }
}
