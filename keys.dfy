/**
 * The keyboard state of Ninja-Runner: the `keys` dictionary of seven boolean
 * flags and the `keydown`/`keyup` handlers that set and clear them.
 */
module Keys {
  import opened Wrappers

  /** The seven flags of the dictionary. */
  datatype Key = W | A | S | D | Shift | C | Space

  /** One snapshot of the dictionary, as the controller and the states read it each frame. */
  datatype Input = Input(w: bool, a: bool, s: bool, d: bool, shift: bool, c: bool, space: bool)

  /** The dictionary as the program initialises it: nothing held. */
  const NoKeys := Input(false, false, false, false, false, false, false)

  function Flag(keys: Input, k: Key): bool {
    match k
    case W => keys.w
    case A => keys.a
    case S => keys.s
    case D => keys.d
    case Shift => keys.shift
    case C => keys.c
    case Space => keys.space
  }

  /** `keys[k] = v`. */
  function WithFlag(keys: Input, k: Key, v: bool): (r: Input)
    ensures Flag(r, k) == v
    ensures forall j: Key :: j != k ==> Flag(r, j) == Flag(keys, j)
  {
    match k
    case W => keys.(w := v)
    case A => keys.(a := v)
    case S => keys.(s := v)
    case D => keys.(d := v)
    case Shift => keys.(shift := v)
    case C => keys.(c := v)
    case Space => keys.(space := v)
  }

  /** The property name under which the dictionary stores each flag. */
  function PropertyName(k: Key): string {
    match k
    case W => "w"
    case A => "a"
    case S => "s"
    case D => "d"
    case Shift => "shift"
    case C => "c"
    case Space => "space"
  }

  /** `keys[key] !== undefined`: the flag whose property is named `key`, if there is one. */
  function Field(key: string): (r: Option<Key>)
    ensures r.Some? ==> PropertyName(r.value) == key
    ensures r.None? ==> forall k: Key :: PropertyName(k) != key
  {
    if key == "w" then Some(W)
    else if key == "a" then Some(A)
    else if key == "s" then Some(S)
    else if key == "d" then Some(D)
    else if key == "shift" then Some(Shift)
    else if key == "c" then Some(C)
    else if key == "space" then Some(Space)
    else None
  }

  /**
   * The flag a lower-cased key value changes. The space bar reports " ",
   * which the handlers map to `space` by hand; every other value goes
   * through the dictionary lookup.
   */
  function KeyOf(key: string): (r: Option<Key>)
    ensures r == Some(Space) <==> key == " " || key == "space"
    ensures r.Some? && r.value != Space ==> PropertyName(r.value) == key
    ensures r.None? ==> key != " " && forall k: Key :: PropertyName(k) != key
  {
    if key == " " then Some(Space) else Field(key)
  }

  /** What a key event with lower-cased value `key` does to the dictionary: `down` is true for keydown. */
  function Press(keys: Input, key: string, down: bool): (r: Input)
    ensures forall k: Key :: Flag(r, k) == if KeyOf(key) == Some(k) then down else Flag(keys, k)
  {
    match KeyOf(key)
    case None => keys
    case Some(k) => WithFlag(keys, k, down)
  }

  /** Releasing a key right after pressing it leaves the dictionary as a release alone would. */
  lemma ReleaseAfterPress(keys: Input, key: string)
    ensures Press(Press(keys, key, true), key, false) == Press(keys, key, false)
  {
    var r := KeyOf(key);
    if r.Some? {
      var pressed := WithFlag(keys, r.value, true);
      assert Press(keys, key, true) == pressed;
      assert Press(pressed, key, false) == WithFlag(pressed, r.value, false);
      match r.value
      case W =>
      case A =>
      case S =>
      case D =>
      case Shift =>
      case C =>
      case Space =>
    }
  }

  /** `String.prototype.toLowerCase` on one character, for the ASCII letters. */
  function LowerChar(ch: char): char {
    if 'A' <= ch <= 'Z' then (ch as int + 32) as char else ch
  }

  /** `String.prototype.toLowerCase`, for the ASCII letters. */
  function ToLower(s: string): (r: string)
    ensures |r| == |s|
    ensures forall i :: 0 <= i < |s| ==> r[i] == LowerChar(s[i])
    ensures forall i :: 0 <= i < |r| ==> !('A' <= r[i] <= 'Z')
  {
    if s == [] then [] else [LowerChar(s[0])] + ToLower(s[1..])
  }

  /** The shift key reports "Shift"; it reaches the `shift` flag only because the handlers lower it first. */
  lemma ShiftReachesShiftFlag()
    ensures ToLower("Shift") == ToLower("SHIFT") == PropertyName(Shift)
    ensures KeyOf(ToLower("Shift")) == Some(Shift) && KeyOf("Shift").None?
  {
  }

  /** The `keys` dictionary with its two document-level handlers. */
  class Keyboard {
    var keys: Input

    constructor ()
      ensures keys == NoKeys
    {
      keys := NoKeys;
    }

    /** The `keydown` handler for an event whose `e.key` is `eventKey`. */
    method KeyDown(eventKey: string)
      modifies this
      ensures keys == Press(old(keys), ToLower(eventKey), true)
    {
      var key := ToLower(eventKey);
      if key == " " {
        keys := keys.(space := true);
      }
      var field := Field(key);
      if field.Some? {
        keys := WithFlag(keys, field.value, true);
      }
    }

    /** The `keyup` handler for an event whose `e.key` is `eventKey`. */
    method KeyUp(eventKey: string)
      modifies this
      ensures keys == Press(old(keys), ToLower(eventKey), false)
    {
      var key := ToLower(eventKey);
      if key == " " {
        keys := keys.(space := false);
      }
      var field := Field(key);
      if field.Some? {
        keys := WithFlag(keys, field.value, false);
      }
    }
  }
}
