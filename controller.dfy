/**
 * `CharacterController`: builds the actions and the state machine, starts
 * in Idle, and on every frame picks a speed from the keys and runs the
 * machine's `Update`.
 */
module Controller {
  import opened Wrappers
  import opened Keys
  import opened States
  import opened Rules
  import opened Animation
  import opened Machine

  /** `moveSpeed`, for walking forward and backing away. */
  const MoveSpeed: real := 0.2
  /** `runSpeed`. */
  const RunSpeed: real := 0.35

  /**
   * The speed chosen in `update`: w moves forward (faster with shift) and
   * wins over s, s alone moves backward at walking speed.
   */
  function Speed(keys: Input): (v: real)
    ensures v != 0.0 <==> keys.w || keys.s
    ensures v > 0.0 <==> keys.w
    ensures v < 0.0 <==> !keys.w && keys.s
    ensures v == RunSpeed <==> keys.w && keys.shift
    ensures v == MoveSpeed <==> keys.w && !keys.shift
    ensures v == -MoveSpeed <==> !keys.w && keys.s
    ensures -MoveSpeed <= v <= RunSpeed
  {
    if keys.w then (if keys.shift then RunSpeed else MoveSpeed)
    else if keys.s then -MoveSpeed
    else 0.0
  }

  class CharacterController {
    const fsm: CharacterFSM
    /** The character's `position.y` when the controller was made. */
    const initialY: real

    /** The machine is in one of the six states and its "finished" listener is registered exactly in Waving. */
    ghost predicate Valid()
      reads this, fsm
    {
      fsm.Valid() && fsm.Armed() && fsm.current.Some?
    }

    /**
     * `new CharacterController(character, animations)` for a character at
     * height `positionY` and clips of the given lengths: one fresh action
     * per clip, a new machine, then `SetState("Idle")`.
     */
    constructor (clipDurations: map<StateKind, real>, positionY: real)
      requires forall k: StateKind :: k in clipDurations
      requires clipDurations[StandardWalk] != 0.0 && clipDurations[Run] != 0.0
      ensures Valid() && fresh(fsm)
      ensures initialY == positionY && fsm.initialY == initialY
      ensures fsm.Current() == Some(Idle) && fsm.positionY == positionY
      ensures forall k: StateKind :: k in fsm.actions && fsm.actions[k] == ClipAction(clipDurations[k])
      ensures fsm.mixerLog == [PlayCall(Idle)]
      ensures fsm.calls == [EnterCall(Instance(Idle, 0), None)]
    {
      var actions := map k: StateKind | k in clipDurations :: ClipAction(clipDurations[k]);
      initialY := positionY;
      fsm := new CharacterFSM(actions, positionY, positionY);
      new;
      var _ := fsm.SetState(Name(Idle));
    }

    /**
     * `update(timeElapsedS)` for the key snapshot `keys`: the returned
     * speed, then one step of the machine.
     */
    method Update(keys: Input) returns (speed: real)
      requires Valid()
      modifies fsm
      ensures Valid()
      ensures speed == Speed(keys)
      ensures fsm.Current() == Some(Step(old(fsm.Current()).value, Frame(keys)))
      ensures Requested(old(fsm.Current()).value, keys).None? ==> unchanged(fsm)
      ensures Requested(old(fsm.Current()).value, keys).Some? ==>
        fsm.MovedTo(Requested(old(fsm.Current()).value, keys).value)
    {
      speed := Speed(keys);
      fsm.Update(keys);
    }

    /** The mixer reports that a play-once action has finished. */
    method AnimationFinished()
      requires Valid()
      modifies fsm
      ensures Valid()
      ensures fsm.Current() == Some(Step(old(fsm.Current()).value, WavingFinished))
      ensures old(fsm.Current()) != Some(Waving) ==> unchanged(fsm)
      ensures old(fsm.Current()) == Some(Waving) ==> fsm.MovedTo(Idle)
    {
      fsm.DispatchFinished();
    }
  }
}
