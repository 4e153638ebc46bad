/**
 * The character's finite state machine: `FiniteStateMachine` with the six
 * states `CharacterFSM` registers, together with the data its controller
 * proxy shares with the states (the actions, the character's vertical
 * position and its initial value) and the mixer's "finished" listeners.
 */
module Machine {
  import opened Wrappers
  import opened Keys
  import opened States
  import opened Rules
  import opened Animation

  /** A State object: which class it is and which `new` created it (`id`). */
  datatype Instance = Instance(kind: StateKind, id: nat)

  /** A call of a state's `Enter(prev)` or `Exit()`. */
  datatype Call = EnterCall(state: Instance, prev: Option<StateKind>) | ExitCall(state: Instance)

  function KindOf(s: Option<Instance>): Option<StateKind> {
    if s.Some? then Some(s.value.kind) else None
  }

  function ExitCalls(s: Option<Instance>): seq<Call> {
    if s.Some? then [ExitCall(s.value)] else []
  }

  class CharacterFSM {
    /** `_states`: state name to state class. */
    var states: map<string, StateKind>
    /** `_currentState`; None is `null`. */
    var current: Option<Instance>
    /** The id the next `new` State object gets; it stands for object identity. */
    var nextId: nat
    /** The proxy's `actions`, for the six clips the states use. */
    var actions: map<StateKind, Action>
    /** The proxy character's `position.y`. */
    var positionY: real
    /** The proxy's `initialY`. */
    const initialY: real
    /** The mixer's "finished" listeners: the ids of the WavingState objects whose callbacks are registered. */
    var listeners: set<nat>
    /** The mixer calls made so far, in order. */
    var mixerLog: seq<MixerCall>
    /** The `Enter` and `Exit` calls made so far, in order. */
    ghost var calls: seq<Call>

    /** Every state has an action, and the two clips whose lengths are divided by have nonzero length. */
    ghost predicate ActionsReady()
      reads this
    {
      (forall k: StateKind :: k in actions) && SyncLengths(actions)
    }

    ghost predicate Valid()
      reads this
    {
      && states == Registry()
      && ActionsReady()
      && (listeners == {} ||
          (current.Some? && current.value.kind == Waving && listeners == {current.value.id}))
    }

    /** The "finished" listener is registered exactly while Waving is the current state. */
    ghost predicate Armed()
      reads this
    {
      listeners != {} <==> KindOf(current) == Some(Waving)
    }

    function Current(): Option<StateKind>
      reads this
    {
      KindOf(current)
    }

    /** `SetState(name)` would return at once: the current state already has this name. */
    ghost predicate Same(name: string)
      reads this
    {
      current.Some? && Name(current.value.kind) == name
    }

    /**
     * The whole effect of a `SetState` that moved from the old current state
     * to a new State object of class `k`: the old state exited, the new one
     * became current and entered with the old one's name.
     */
    twostate predicate MovedTo(k: StateKind)
      requires old(ActionsReady())
      reads this
    {
      var prev := old(current);
      var made := Instance(k, old(nextId));
      && current == Some(made)
      && nextId == old(nextId) + 1
      && states == old(states)
      && actions == old(actions)[k := Entered(k, KindOf(prev), old(actions))]
      && mixerLog == old(mixerLog) + EnterCalls(k, KindOf(prev))
      && positionY == EnteredY(k, old(positionY), initialY)
      && listeners == (if k == Waving then {made.id} else {})
      && calls == old(calls) + ExitCalls(prev) + [EnterCall(made, KindOf(prev))]
    }

    /** The effect of a `SetState` whose name has no registered class: the old state exited, then nothing. */
    twostate predicate ExitedOnly()
      reads this
    {
      && current == old(current)
      && nextId == old(nextId)
      && states == old(states)
      && actions == old(actions)
      && mixerLog == old(mixerLog)
      && positionY == old(positionY)
      && listeners == (if KindOf(old(current)) == Some(Waving) then old(listeners) - {old(current).value.id} else old(listeners))
      && calls == old(calls) + ExitCalls(old(current))
    }

    /** `new CharacterFSM(proxy)`: an empty machine, then `_Init`. */
    constructor (actions: map<StateKind, Action>, positionY: real, initialY: real)
      requires forall k: StateKind :: k in actions
      requires SyncLengths(actions)
      ensures Valid() && Armed()
      ensures current == None && states == Registry()
      ensures this.actions == actions && this.positionY == positionY && this.initialY == initialY
      ensures listeners == {} && mixerLog == [] && calls == [] && nextId == 0
    {
      this.states := map[];
      this.current := None;
      this.nextId := 0;
      this.actions := actions;
      this.positionY := positionY;
      this.initialY := initialY;
      this.listeners := {};
      this.mixerLog := [];
      this.calls := [];
      new;
      Init();
    }

    /** `_AddState(name, type)`. */
    method AddState(name: string, k: StateKind)
      modifies this`states
      ensures states == old(states)[name := k]
    {
      states := states[name := k];
    }

    /** `CharacterFSM._Init`: registers the six states under their names. */
    method Init()
      modifies this`states
      ensures states == old(states) + Registry()
    {
      AddState("Idle", Idle);
      AddState("StandardWalk", StandardWalk);
      AddState("Run", Run);
      AddState("Waving", Waving);
      AddState("Crouch", Crouch);
      AddState("SneakWalk", SneakWalk);
    }

    // ---- the mixer, as far as the states use it ----

    method Play(k: StateKind)
      modifies this`mixerLog
      ensures mixerLog == old(mixerLog) + [PlayCall(k)]
    {
      mixerLog := mixerLog + [PlayCall(k)];
    }

    method CrossFadeFrom(k: StateKind, from: StateKind, seconds: real)
      modifies this`mixerLog
      ensures mixerLog == old(mixerLog) + [CrossFadeCall(from, k, seconds, true)]
    {
      mixerLog := mixerLog + [CrossFadeCall(from, k, seconds, true)];
    }

    /** `action.reset()`: back to time 0 and enabled (its other effects are the mixer's). */
    method Reset(k: StateKind)
      requires k in actions
      modifies this`actions, this`mixerLog
      ensures actions == old(actions)[k := old(actions)[k].(time := 0.0, enabled := true)]
      ensures mixerLog == old(mixerLog) + [ResetCall(k)]
    {
      actions := actions[k := actions[k].(time := 0.0, enabled := true)];
      mixerLog := mixerLog + [ResetCall(k)];
    }

    /** `enabled = true`, `time = 0`, `setEffectiveTimeScale(1)`, `setEffectiveWeight(1)` on the action of `k`. */
    method Restart(k: StateKind)
      requires k in actions
      modifies this`actions
      ensures actions == old(actions)[k := old(actions)[k].(enabled := true, time := 0.0, timeScale := 1.0, weight := 1.0)]
    {
      var action := actions[k];
      action := action.(enabled := true);
      action := action.(time := 0.0);
      action := action.(timeScale := 1.0);
      action := action.(weight := 1.0);
      actions := actions[k := action];
    }

    // ---- the states' Enter methods ----

    /** IdleState.Enter. */
    method EnterIdle(prev: Option<StateKind>)
      requires ActionsReady()
      modifies this`actions, this`mixerLog, this`positionY
      ensures actions == old(actions)[Idle := Entered(Idle, prev, old(actions))]
      ensures mixerLog == old(mixerLog) + EnterCalls(Idle, prev)
      ensures positionY == initialY
    {
      positionY := initialY;
      if prev.Some? {
        Restart(Idle);
        CrossFadeFrom(Idle, prev.value, 0.5);
      }
      Play(Idle);
    }

    /** The shared body of WalkState.Enter and RunState.Enter, which differ only in the partner state. */
    method EnterLocomotion(k: StateKind, partner: StateKind, prev: Option<StateKind>)
      requires ActionsReady()
      requires (k == StandardWalk && partner == Run) || (k == Run && partner == StandardWalk)
      modifies this`actions, this`mixerLog, this`positionY
      ensures actions == old(actions)[k := Entered(k, prev, old(actions))]
      ensures mixerLog == old(mixerLog) + EnterCalls(k, prev)
      ensures positionY == 0.0
    {
      positionY := 0.0;
      if prev.Some? {
        var prevAction := actions[prev.value];
        var curAction := actions[k];
        curAction := curAction.(enabled := true);
        if prev.value == partner {
          curAction := curAction.(time := SyncedTime(prevAction.time, prevAction.duration, curAction.duration));
          actions := actions[k := curAction];
        } else {
          actions := actions[k := curAction];
          Restart(k);
        }
        CrossFadeFrom(k, prev.value, 0.5);
      }
      Play(k);
    }

    /** WalkState.Enter. */
    method EnterWalk(prev: Option<StateKind>)
      requires ActionsReady()
      modifies this`actions, this`mixerLog, this`positionY
      ensures actions == old(actions)[StandardWalk := Entered(StandardWalk, prev, old(actions))]
      ensures mixerLog == old(mixerLog) + EnterCalls(StandardWalk, prev)
      ensures positionY == 0.0
    {
      EnterLocomotion(StandardWalk, Run, prev);
    }

    /** RunState.Enter. */
    method EnterRun(prev: Option<StateKind>)
      requires ActionsReady()
      modifies this`actions, this`mixerLog, this`positionY
      ensures actions == old(actions)[Run := Entered(Run, prev, old(actions))]
      ensures mixerLog == old(mixerLog) + EnterCalls(Run, prev)
      ensures positionY == 0.0
    {
      EnterLocomotion(Run, StandardWalk, prev);
    }

    /** SneakWalkState.Enter: like Crouch, but the vertical position is left alone. */
    method EnterSneakWalk(prev: Option<StateKind>)
      requires ActionsReady()
      modifies this`actions, this`mixerLog
      ensures actions == old(actions)[SneakWalk := Entered(SneakWalk, prev, old(actions))]
      ensures mixerLog == old(mixerLog) + EnterCalls(SneakWalk, prev)
    {
      if prev.Some? {
        Restart(SneakWalk);
        CrossFadeFrom(SneakWalk, prev.value, 0.5);
      }
      Play(SneakWalk);
    }

    /** CrouchState.Enter. */
    method EnterCrouch(prev: Option<StateKind>)
      requires ActionsReady()
      modifies this`actions, this`mixerLog, this`positionY
      ensures actions == old(actions)[Crouch := Entered(Crouch, prev, old(actions))]
      ensures mixerLog == old(mixerLog) + EnterCalls(Crouch, prev)
      ensures positionY == 0.0
    {
      positionY := 0.0;
      if prev.Some? {
        Restart(Crouch);
        CrossFadeFrom(Crouch, prev.value, 0.5);
      }
      Play(Crouch);
    }

    /** WavingState.Enter of the WavingState object `id`: registers its "finished" callback first. */
    method EnterWaving(id: nat, prev: Option<StateKind>)
      requires ActionsReady()
      modifies this`actions, this`mixerLog, this`listeners
      ensures actions == old(actions)[Waving := Entered(Waving, prev, old(actions))]
      ensures mixerLog == old(mixerLog) + EnterCalls(Waving, prev)
      ensures listeners == old(listeners) + {id}
    {
      listeners := listeners + {id};
      if prev.Some? {
        Reset(Waving);
        actions := actions[Waving := actions[Waving].(loop := LoopOnce(1))];
        actions := actions[Waving := actions[Waving].(clampWhenFinished := true)];
        CrossFadeFrom(Waving, prev.value, 0.2);
      }
      Play(Waving);
    }

    /** `state.Enter(prev)`, dispatched on the state's class. */
    method Enter(s: Instance, prev: Option<StateKind>)
      requires ActionsReady()
      modifies this`actions, this`mixerLog, this`positionY, this`listeners, this`calls
      ensures ActionsReady()
      ensures actions == old(actions)[s.kind := Entered(s.kind, prev, old(actions))]
      ensures mixerLog == old(mixerLog) + EnterCalls(s.kind, prev)
      ensures positionY == EnteredY(s.kind, old(positionY), initialY)
      ensures listeners == if s.kind == Waving then old(listeners) + {s.id} else old(listeners)
      ensures calls == old(calls) + [EnterCall(s, prev)]
    {
      match s.kind {
        case Idle => EnterIdle(prev);
        case StandardWalk => EnterWalk(prev);
        case Run => EnterRun(prev);
        case Waving => EnterWaving(s.id, prev);
        case Crouch => EnterCrouch(prev);
        case SneakWalk => EnterSneakWalk(prev);
      }
      calls := calls + [EnterCall(s, prev)];
    }

    // ---- Exit, and Waving's listener ----

    /** `WavingState._Cleanup` of the object `id`: unregisters its "finished" callback. */
    method Cleanup(id: nat)
      modifies this`listeners
      ensures listeners == old(listeners) - {id}
    {
      listeners := listeners - {id};
    }

    /** `state.Exit()`: only Waving does anything, its `_Cleanup`. */
    method Exit(s: Instance)
      modifies this`listeners, this`calls
      ensures listeners == if s.kind == Waving then old(listeners) - {s.id} else old(listeners)
      ensures calls == old(calls) + [ExitCall(s)]
    {
      if s.kind == Waving {
        Cleanup(s.id);
      }
      calls := calls + [ExitCall(s)];
    }

    // ---- FiniteStateMachine ----

    /**
     * `SetState(name)`. A move into the current state's own name does
     * nothing. Otherwise the current state exits, a new State object of the
     * registered class becomes current, and it enters with the old state.
     * A name with no registered class makes `new` throw after the old state
     * has exited: `ok` is false then.
     */
    method SetState(name: string) returns (ok: bool)
      requires Valid()
      modifies this`current, this`nextId, this`actions, this`mixerLog, this`positionY, this`listeners, this`calls
      ensures Valid()
      ensures ok <==> old(Same(name)) || name in states
      ensures old(Same(name)) ==> unchanged(this)
      ensures !old(Same(name)) && name in states ==> MovedTo(states[name]) && Armed()
      ensures ok ==> Same(name)
      ensures !old(Same(name)) && name !in states ==> ExitedOnly()
    {
      var prev := current;
      if prev.Some? {
        if Name(prev.value.kind) == name {
          return true;
        }
        Exit(prev.value);
      }
      if name !in states {
        return false;
      }
      var state := Instance(states[name], nextId);
      nextId := nextId + 1;
      current := Some(state);
      Enter(state, KindOf(prev));
      ok := true;
    }

    /** `Update(timeElapsed, input)`: the current state's `Update`, which may call `SetState`. */
    method Update(input: Input)
      requires Valid()
      modifies this`current, this`nextId, this`actions, this`mixerLog, this`positionY, this`listeners, this`calls
      ensures Valid()
      ensures old(Armed()) ==> Armed()
      ensures old(current).None? ==> unchanged(this)
      ensures old(current).Some? ==> Current() == Some(Step(old(current).value.kind, Frame(input)))
      ensures old(current).Some? && Requested(old(current).value.kind, input).None? ==> unchanged(this)
      ensures old(current).Some? && Requested(old(current).value.kind, input).Some? ==>
        MovedTo(Requested(old(current).value.kind, input).value)
    {
      if current.Some? {
        var next := Requested(current.value.kind, input);
        if next.Some? {
          var _ := SetState(Name(next.value));
        }
      }
    }

    /** `WavingState._Finished` of the object `id`: its `_Cleanup`, then back to Idle. */
    method Finished(id: nat)
      requires Valid()
      modifies this`current, this`nextId, this`actions, this`mixerLog, this`positionY, this`listeners, this`calls
      ensures Valid() && Armed()
      ensures Current() == Some(Idle)
      ensures old(Current()) == Some(Idle) ==> unchanged(this)
      ensures old(Current()) != Some(Idle) ==> MovedTo(Idle)
    {
      Cleanup(id);
      var _ := SetState(Name(Idle));
    }

    /** The mixer's "finished" event: every registered callback runs. */
    method DispatchFinished()
      requires Valid()
      modifies this`current, this`nextId, this`actions, this`mixerLog, this`positionY, this`listeners, this`calls
      ensures Valid()
      ensures old(Armed()) ==> Armed()
      ensures old(listeners) == {} ==> unchanged(this)
      ensures old(listeners) != {} ==> MovedTo(Idle)
      ensures old(Armed()) && old(current).Some? ==> Current() == Some(Step(old(current).value.kind, WavingFinished))
    {
      if listeners != {} {
        var id :| id in listeners;
        Finished(id);
      }
    }
  }
}
