# Ninja-Runner character state machine, in Dafny

A model of the animation state machine of the Ninja-Runner demo, with proofs about it.
A skinned character switches between six animation states: Idle, StandardWalk, Run, Waving, Crouch and SneakWalk.
The switches are driven by a dictionary of key flags that the keyboard handlers keep up to date.
Each state's `Update` is a small rule over those flags.
Each state's `Enter` prepares its animation action: it enables it, resets it or carries its playback time over, and cross-fades from the previous state's action.
Entering Idle, StandardWalk, Run or Crouch also sets the character's height; SneakWalk and Waving leave it as it was.
Waving is a play-once clip. It registers a "finished" listener on the mixer and returns to Idle when the clip finishes or when space is released.

Modules, one per concern:

- `Keys` (keys.dfy): the seven key flags, the lookup of a key value, lower-casing, and the `Keyboard` class with the `keydown`/`keyup` handlers.
- `States` (states.dfy): the six states, their names and the registry `CharacterFSM._Init` builds.
- `Rules` (rules.dfy): each state's `Update` rule as a function, plus an independent statement of the keys that keep each state (`Holds`). It also has the abstract machine `Step`/`Trace` over frames and "finished" events, and lemmas over whole event sequences.
- `Animation` (animation.dfy): the action record and the mixer calls a state makes. `Entered` is what a state's `Enter` does to its own action, and `SyncedTime` is the StandardWalk/Run time carry-over.
- `Machine` (machine.dfy): the class `CharacterFSM`. Its fields are the registry, the current state object, the actions, the character's `position.y`, `initialY`, the mixer's listener set, a log of mixer calls and a ghost trace of `Enter`/`Exit` calls. `SetState`, `Update`, the six `Enter` methods, `Exit` and Waving's `_Finished`/`_Cleanup` are methods on it. Their postconditions give the whole new state in terms of `Animation.Entered` and `Rules.Step`.
- `Controller` (controller.dfy): the speed choice and the class `CharacterController`. Its constructor builds the actions and starts in Idle. Its `Update` returns the speed and steps the machine, and `AnimationFinished` is the mixer's "finished" event. For both, the new state is `Rules.Step` of the old one. When the step stays put the machine is unchanged; otherwise its whole new state is the move `CharacterFSM.MovedTo`: actions, height, mixer calls, listeners and the `Enter`/`Exit` trace.

The rendering library's mixer is not modelled. `play`, `reset` and `crossFadeFrom` are appended to a call log. `reset` also sets the two fields it changes that the model keeps, `time` and `enabled`. The "finished" event is a method that an outside caller invokes.

A State object's identity, and so the identity of Waving's listener closure, is a number (`Instance.id`) drawn from a counter each time `SetState` creates one.

There are two invariants:

- `CharacterFSM.Valid()`: at most the current Waving object's listener is registered.
- `CharacterFSM.Armed()`: a listener is registered exactly while Waving is current.

`Valid() && Armed()` is stronger than `Valid()` alone. `Armed()` is broken only by a `SetState` call with an unregistered name, which the program never makes; the controller keeps it.

Three behaviours of the code that one might expect otherwise:

- Not every transition cross-fades over one fixed duration. Waving fades in over 0.2 s and the others over 0.5 s.
- The very first `Enter` (no previous state) only plays its action, with no cross-fade.
- Entering Waving resets its action through `reset()`, not by writing `time` directly. Its time scale and weight are left as they were.

## Model

| member | source | states |
|---|---|---|
| `Keys.WithFlag` | Ninja-Runner/index.js:89 | writing one flag sets that flag and leaves the other six as they were |
| `Keys.Field` | Ninja-Runner/index.js:88 | the dictionary lookup finds a flag exactly when the key value is that flag's property name, and finds nothing for any other value |
| `Keys.KeyOf` | Ninja-Runner/index.js:85-89 | a lowered key value reaches the space flag exactly when it is " " or "space"; any other flag only through its own name; any other value changes nothing |
| `Keys.Press` | Ninja-Runner/index.js:83-101 | a key event sets the flag its value names to held (keydown) or released (keyup); every other flag keeps its value |
| `Keys.ReleaseAfterPress` | Ninja-Runner/index.js:83-101 | a keydown followed by the keyup of the same key leaves the dictionary as the keyup alone would |
| `Keys.ToLower` | Ninja-Runner/index.js:84 | lower-casing keeps the length, maps each character on its own and leaves no upper-case ASCII letter |
| `Keys.ShiftReachesShiftFlag` | Ninja-Runner/index.js:84 | the shift key's value "Shift" (and "SHIFT") lowers to the `shift` property name and so reaches the shift flag; unlowered it would reach no flag |
| `Keys.Keyboard.constructor` | Ninja-Runner/index.js:73-81 | the dictionary starts with every flag released |
| `Keys.Keyboard.KeyDown` | Ninja-Runner/index.js:83-91 | the keydown handler leaves the dictionary as `Press` with the lowered key and held |
| `Keys.Keyboard.KeyUp` | Ninja-Runner/index.js:93-101 | the keyup handler leaves the dictionary as `Press` with the lowered key and released |
| `States.Name` | Ninja-Runner/index.js:143-150 | every state's `Name` is registered, and it is registered to that same state class (so names are distinct) |
| `Rules.IdleUpdate` | Ninja-Runner/index.js:190-200 | Idle's rule is a priority order: w → StandardWalk, else s → SneakWalk, else space → Waving, else c → Crouch, else stay; each outcome with its exact key condition, both ways |
| `Rules.WalkUpdate` | Ninja-Runner/index.js:236-244 | StandardWalk goes to Run exactly when w and shift are held, stays exactly when w is held without shift, goes to Idle exactly when w is released |
| `Rules.RunUpdate` | Ninja-Runner/index.js:314-319 | Run stays exactly while w and shift are held, otherwise goes to StandardWalk, never to Idle |
| `Rules.SneakWalkUpdate` | Ninja-Runner/index.js:273-278 | SneakWalk stays exactly while s is held, otherwise goes to Idle |
| `Rules.WavingUpdate` | Ninja-Runner/index.js:364-368 | Waving stays exactly while space is held, otherwise goes to Idle |
| `Rules.CrouchUpdate` | Ninja-Runner/index.js:398-403 | Crouch stays exactly while c is held, otherwise goes to Idle |
| `Rules.Requested` | Ninja-Runner/index.js:129-133 | the current state requests no move exactly when its holding keys (`Holds`) are held; it never requests itself; Run is requested only by StandardWalk and Waving only by Idle |
| `Rules.Step` | Ninja-Runner/index.js:113-133 | a frame keeps the state exactly when its holding keys are held; Run is entered only from StandardWalk; Waving is entered only from Idle and only with space held; leaving Waving always goes to Idle |
| `Rules.Trace` | Ninja-Runner/index.js:433-458 | the states over a sequence of frames and "finished" events start at the given state and each follows the previous by `Step` |
| `Rules.HoldingKeepsState` | Ninja-Runner/index.js:163-404 | as long as a state's holding keys stay held in every frame, the machine never leaves that state. A "finished" event may arrive in between for every state but Waving, which it sends to Idle (index.js:350-353), so Waving also needs that no "finished" event arrives |
| `Rules.FinishedEndsWaving` | Ninja-Runner/index.js:334-353 | while space is held a frame keeps Waving, yet the "finished" event that follows moves it to Idle |
| `Rules.ReleasingReachesIdle` | Ninja-Runner/index.js:163-404 | with w, s, space and c released, every state is back in Idle after two frames and stays there |
| `Animation.SyncedTime` | Ninja-Runner/index.js:219-221 | the carried-over time keeps the fraction of the clip already played (it is 0 when the new clip has length 0), and a time within the old clip maps to a time within the new one |
| `Animation.Entered` | Ninja-Runner/index.js:172-394 | without a previous state the action is untouched. Otherwise it is enabled. Between StandardWalk and Run the playback fraction carries over (a zero-length new clip starts at 0) and time scale and weight are kept. Every other entry resets time to 0; apart from Waving it also sets time scale and weight to 1. Waving is set to play once and clamp. The clip length never changes |
| `Animation.EnterCalls` | Ninja-Runner/index.js:172-394 | an `Enter` makes one mixer call without a previous state, three for Waving with one and two otherwise. Every `Enter` ends by playing its own action. With a previous state it first cross-fades from that state's action over 0.5 s (0.2 s for Waving); without one there is no cross-fade. `reset` is called only by Waving with a previous state |
| `Animation.EnteredY` | Ninja-Runner/index.js:173-381 | entering Idle puts the character at `initialY`; StandardWalk, Run and Crouch put it at height 0; SneakWalk and Waving leave the height as it was |
| `Machine.CharacterFSM.Play` | Ninja-Runner/index.js:182 | `play()` appends exactly one play call for the state's action to the mixer log |
| `Machine.CharacterFSM.CrossFadeFrom` | Ninja-Runner/index.js:181 | `crossFadeFrom(prev, seconds, true)` appends exactly one warped cross-fade call, from the previous state's action to this one, to the mixer log |
| `Machine.CharacterFSM.Reset` | Ninja-Runner/index.js:340 | `reset()` puts the action back at time 0 and enabled, leaves its other fields alone, and is logged |
| `Machine.CharacterFSM.Restart` | Ninja-Runner/index.js:177-180 | the action is enabled at time 0 with time scale and weight 1; its clip length, loop mode and clamping stay as they were |
| `Machine.CharacterFSM.constructor` | Ninja-Runner/index.js:136-141 | a new machine has no current state, the six states registered, the proxy's actions and heights, and no listener |
| `Machine.CharacterFSM.AddState` | Ninja-Runner/index.js:109-111 | registering a name maps it to the class, replacing any earlier entry |
| `Machine.CharacterFSM.Init` | Ninja-Runner/index.js:143-150 | adds exactly the six name/class pairs of the registry |
| `Machine.CharacterFSM.SetState` | Ninja-Runner/index.js:113-127 | it succeeds exactly when the name is the current state's or registered, and on success the current state is the one of that name. The current state's own name changes nothing at all. Any other registered name exits the old state once, then makes a new object current and enters it with the old state (`MovedTo`: actions by `Entered`, mixer calls by `EnterCalls`, height by `EnteredY`, listener only when the new state is Waving). An unregistered name exits the old state and fails. The invariant is kept |
| `Machine.CharacterFSM.Update` | Ninja-Runner/index.js:129-133 | with no current state nothing happens; otherwise the new state is `Step` of the old one for this frame, with no change when no move is requested and `MovedTo` the requested state when one is |
| `Machine.CharacterFSM.Enter` | Ninja-Runner/index.js:126 | dispatches to the state's own `Enter` and records the call; the listener set grows only for Waving |
| `Machine.CharacterFSM.EnterIdle` | Ninja-Runner/index.js:172-186 | sets the height to `initialY` and the Idle action to `Entered`, with the calls of `EnterCalls` |
| `Machine.CharacterFSM.EnterLocomotion` | Ninja-Runner/index.js:212-232 | the shared walk/run entry: height 0, the action to `Entered` (time carried over from the partner state, else reset), the calls of `EnterCalls` |
| `Machine.CharacterFSM.EnterWalk` | Ninja-Runner/index.js:212-232 | StandardWalk's entry: height 0, its action to `Entered`, time carried over from Run |
| `Machine.CharacterFSM.EnterRun` | Ninja-Runner/index.js:290-310 | Run's entry: height 0, its action to `Entered`, time carried over from StandardWalk |
| `Machine.CharacterFSM.EnterSneakWalk` | Ninja-Runner/index.js:256-269 | SneakWalk's entry: its action to `Entered`, the height left unchanged |
| `Machine.CharacterFSM.EnterCrouch` | Ninja-Runner/index.js:380-394 | Crouch's entry: height 0, its action to `Entered` |
| `Machine.CharacterFSM.EnterWaving` | Ninja-Runner/index.js:334-348 | registers this object's listener, sets the Waving action to `Entered` (reset, play once, clamp) with a 0.2 s cross-fade, and leaves the height unchanged |
| `Machine.CharacterFSM.Exit` | Ninja-Runner/index.js:360-362 | only Waving's exit does anything: it unregisters its own listener; the call is recorded |
| `Machine.CharacterFSM.Cleanup` | Ninja-Runner/index.js:355-358 | removes exactly this object's listener |
| `Machine.CharacterFSM.Finished` | Ninja-Runner/index.js:350-353 | always ends in Idle with no listener registered; from Idle it changes nothing, from any other state it is the move `MovedTo(Idle)` |
| `Machine.CharacterFSM.DispatchFinished` | Ninja-Runner/index.js:325-327 | with no listener the event changes nothing; with one (so in Waving) the machine moves to Idle. Under `Armed` this is exactly `Step` for the "finished" event |
| `Controller.Speed` | Ninja-Runner/index.js:434-439 | w gives `runSpeed` with shift and `moveSpeed` without; s without w gives `-moveSpeed`; otherwise 0. The speed is nonzero exactly when w or s is held, positive exactly when w is held, and between `-moveSpeed` and `runSpeed` |
| `Controller.CharacterController.constructor` | Ninja-Runner/index.js:415-431 | one fresh action per clip; the machine starts in Idle having only played Idle's action, at the character's own height, and that height is the machine's `initialY`, where Idle later puts the character back |
| `Controller.CharacterController.Update` | Ninja-Runner/index.js:433-458 | returns `Speed` of the keys and moves the machine by exactly one `Step` for the frame: unchanged when the current state requests no move, otherwise `MovedTo` the requested state (new actions, height, mixer calls, listeners, trace); the listener invariant is kept |
| `Controller.CharacterController.AnimationFinished` | Ninja-Runner/index.js:457 | the mixer's "finished" event moves the machine by exactly one `Step` for that event: outside Waving nothing changes, from Waving it is `MovedTo(Idle)` |

## Left out

- Scene setup (renderer, camera, orbit controls, lights, shadows, textures, skybox, ground plane, window resizing) is rendering-library wiring with nothing to state.
- Asset loading (the model file, the eleven animation files, the loading manager's `onLoad` gate) is asynchronous browser I/O. The model starts from the loaded clips' lengths. The five idle variants other than "Idle" are never used by the machine and get no action.
- Mixer internals are not modelled: blending weights over time, time warping, `play`, and `setLoop` beyond recording the loop mode. `mixer.update`, which advances action times and fires "finished", is not modelled either. In the model an action's `time` changes only in `Enter`, and "finished" arrives through `AnimationFinished`/`DispatchFinished` whenever the caller invokes it.
- Movement geometry is left out: the rotation from a and d and the forward vector scaled by speed and elapsed time are floating-point 3D work on library types. Only the speed choice is kept, and `Update` takes no elapsed time.
- The render loop's time-delta arithmetic is host-driven float arithmetic.
- `CharacterControllerProxy` is folded into `CharacterFSM`: its actions, the character's `position.y` and `initialY` are fields of the machine.
- The empty methods of the `State` base class are not modelled on their own; every registered class overrides them.
- JavaScript property lookups that reach the object prototype (a key value or state name such as "constructor") are not modelled; such a name is treated as absent. Browsers never report those as key values.
- Numbers are mathematical reals in the model, so floating-point rounding is not modelled.
- Machine.CharacterFSM.constructor: requires an action for each of the six states and the StandardWalk and Run clips to have nonzero length. A state without an action makes the source throw on `undefined` when it plays. On the lengths: Moving between those two states divides by the length of the clip being left (Ninja-Runner/index.js:219-221, 297-299), which JavaScript would turn into an infinite or NaN time. Clips of the other four states may have any length.
- Controller.CharacterController.constructor: requires a clip for each of the six states, and nonzero lengths for StandardWalk and Run only, for the reason above. A missing clip makes the source throw on `undefined`.
- Keys.ToLower: lowers only the ASCII letters A–Z, where JavaScript lowers all of Unicode. No other character lowers to one of the seven flag names, so the flags a key event reaches are the same.
- Sphere-Spinner/index.js is not part of this model: it is GUI widget wiring and a float rotation with no self-contained logic.
