/**
 * The transition rules of the six states' `Update` methods, and the abstract
 * machine they define: which state the character is in after each frame or
 * after the Waving clip reports that it has finished.
 */
module Rules {
  import opened Wrappers
  import opened Keys
  import opened States

  /** IdleState.Update: the first held key of w, s, space, c picks the next state. */
  function IdleUpdate(keys: Input): (r: Option<StateKind>)
    ensures r == Some(StandardWalk) <==> keys.w
    ensures r == Some(SneakWalk) <==> !keys.w && keys.s
    ensures r == Some(Waving) <==> !keys.w && !keys.s && keys.space
    ensures r == Some(Crouch) <==> !keys.w && !keys.s && !keys.space && keys.c
    ensures r == None <==> !keys.w && !keys.s && !keys.space && !keys.c
  {
    if keys.w then Some(StandardWalk)
    else if keys.s then Some(SneakWalk)
    else if keys.space then Some(Waving)
    else if keys.c then Some(Crouch)
    else None
  }

  /** WalkState.Update: shift with w starts running, w alone keeps walking, no w stops. */
  function WalkUpdate(keys: Input): (r: Option<StateKind>)
    ensures r == Some(Run) <==> keys.w && keys.shift
    ensures r == None <==> keys.w && !keys.shift
    ensures r == Some(Idle) <==> !keys.w
  {
    if keys.w then (if keys.shift then Some(Run) else None) else Some(Idle)
  }

  /** RunState.Update: running lasts while w and shift are both held, and always falls back to walking. */
  function RunUpdate(keys: Input): (r: Option<StateKind>)
    ensures r == None <==> keys.w && keys.shift
    ensures r == Some(StandardWalk) <==> !(keys.w && keys.shift)
    ensures r != Some(Idle)
  {
    if keys.w && keys.shift then None else Some(StandardWalk)
  }

  /** WavingState.Update: waving lasts while space is held. */
  function WavingUpdate(keys: Input): (r: Option<StateKind>)
    ensures r == None <==> keys.space
    ensures r == Some(Idle) <==> !keys.space
  {
    if !keys.space then Some(Idle) else None
  }

  /** CrouchState.Update: crouching lasts while c is held. */
  function CrouchUpdate(keys: Input): (r: Option<StateKind>)
    ensures r == None <==> keys.c
    ensures r == Some(Idle) <==> !keys.c
  {
    if keys.c then None else Some(Idle)
  }

  /** SneakWalkState.Update: sneaking lasts while s is held. */
  function SneakWalkUpdate(keys: Input): (r: Option<StateKind>)
    ensures r == None <==> keys.s
    ensures r == Some(Idle) <==> !keys.s
  {
    if keys.s then None else Some(Idle)
  }

  /**
   * The keys that keep each state where it is, stated on their own: the
   * reference the rules are checked against.
   */
  predicate Holds(k: StateKind, keys: Input) {
    match k
    case Idle => !keys.w && !keys.s && !keys.space && !keys.c
    case StandardWalk => keys.w && !keys.shift
    case Run => keys.w && keys.shift
    case Waving => keys.space
    case Crouch => keys.c
    case SneakWalk => keys.s
  }

  /** The `SetState` call the current state's `Update` makes for these keys, if any. */
  function Requested(k: StateKind, keys: Input): (r: Option<StateKind>)
    ensures r.None? <==> Holds(k, keys)
    ensures r != Some(k)
    ensures r == Some(Run) ==> k == StandardWalk
    ensures r == Some(Waving) ==> k == Idle
    ensures r.Some? && k != Idle && k != Run ==> r.value == Idle || r.value == Run
  {
    match k
    case Idle => IdleUpdate(keys)
    case StandardWalk => WalkUpdate(keys)
    case Run => RunUpdate(keys)
    case Waving => WavingUpdate(keys)
    case Crouch => CrouchUpdate(keys)
    case SneakWalk => SneakWalkUpdate(keys)
  }

  /** What can happen to the machine: a frame with a key snapshot, or the mixer's "finished" event. */
  datatype Event = Frame(keys: Input) | WavingFinished

  /**
   * The state after one event. The "finished" listener is registered only
   * while Waving is current, so the event moves Waving to Idle and is not
   * heard in any other state.
   */
  function Step(k: StateKind, e: Event): (n: StateKind)
    ensures e.Frame? ==> (n == k <==> Holds(k, e.keys))
    ensures n == Run && k != Run ==> k == StandardWalk
    ensures n == Waving ==> e.Frame? && e.keys.space
    ensures n == Waving && k != Waving ==> k == Idle
    ensures k == Waving && n != Waving ==> n == Idle
  {
    match e
    case Frame(keys) =>
      (match Requested(k, keys)
       case None => k
       case Some(t) => t)
    case WavingFinished => if k == Waving then Idle else k
  }

  /** The states the machine passes through, starting in `k`, for a sequence of events. */
  function Trace(k: StateKind, events: seq<Event>): (tr: seq<StateKind>)
    ensures |tr| == |events| + 1
    ensures tr[0] == k
    ensures forall j :: 0 <= j < |events| ==> tr[j + 1] == Step(tr[j], events[j])
    decreases events
  {
    if events == [] then [k] else [k] + Trace(Step(k, events[0]), events[1..])
  }

  /** A frame in which none of the keys that the rules look at, other than shift, is held. */
  predicate Released(e: Event) {
    e.Frame? && !e.keys.w && !e.keys.s && !e.keys.space && !e.keys.c
  }

  /**
   * As long as a state's holding keys stay held in every frame, the machine
   * stays in that state. A "finished" event leaves every state but Waving
   * alone, so only Waving also needs none to arrive.
   */
  lemma {:induction false} HoldingKeepsState(k: StateKind, events: seq<Event>)
    requires forall j :: 0 <= j < |events| ==>
      (events[j].Frame? && Holds(k, events[j].keys)) || (events[j].WavingFinished? && k != Waving)
    ensures forall j :: 0 <= j < |events| + 1 ==> Trace(k, events)[j] == k
  {
    if events != [] {
      assert Step(k, events[0]) == k;
      HoldingKeepsState(k, events[1..]);
      assert Trace(k, events) == [k] + Trace(k, events[1..]);
    }
  }

  /** Waving is the exception: its "finished" event ends it even while space is held. */
  lemma FinishedEndsWaving(keys: Input)
    requires Holds(Waving, keys)
    ensures Trace(Waving, [Frame(keys), WavingFinished])[1] == Waving
    ensures Trace(Waving, [Frame(keys), WavingFinished])[2] == Idle
  {
    assert Trace(Waving, [Frame(keys), WavingFinished]) == [Waving] + Trace(Waving, [WavingFinished]);
  }

  /**
   * Letting go of every key returns the character to Idle within two frames
   * (Run first drops back to StandardWalk), and it stays there.
   */
  lemma {:induction false} ReleasingReachesIdle(k: StateKind, events: seq<Event>)
    requires forall j :: 0 <= j < |events| ==> Released(events[j])
    ensures forall j :: 2 <= j < |events| + 1 ==> Trace(k, events)[j] == Idle
  {
    if |events| >= 2 {
      var k1 := Step(k, events[0]);
      var k2 := Step(k1, events[1]);
      assert k2 == Idle;
      HoldingKeepsState(Idle, events[2..]);
      assert Trace(k, events) == [k] + Trace(k1, events[1..]);
      assert Trace(k1, events[1..]) == [k1] + Trace(k2, events[2..]);
    }
  }
}
