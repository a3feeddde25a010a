/** The three component kinds of a controller: a button, an analog trigger
    and a two-axis joystick. Each object keeps its own raw state and changes
    it only when `Load` is given an event whose code it is registered for. */
module Components {
  import opened Events

  /** The value of one component: the code it is registered for (for a
      joystick, the prefix of its two axis codes) and its raw state. */
  datatype ComponentState =
    | ButtonState(name: string, pressed: bool)
    | TriggerState(name: string, raw: int)
    | JoystickState(name: string, rawX: int, rawY: int)

  /** The fields of component state that an event can write. */
  datatype Field = Pressed | Raw | AxisX | AxisY

  /** Same kind and same registered code; only the raw state may differ. */
  predicate SameWiring(a: ComponentState, b: ComponentState) {
    a.name == b.name &&
    a.ButtonState? == b.ButtonState? &&
    a.TriggerState? == b.TriggerState? &&
    a.JoystickState? == b.JoystickState?
  }

  /** The state every component is created in. */
  predicate AtRest(c: ComponentState) {
    match c
    case ButtonState(_, pressed) => !pressed
    case TriggerState(_, raw) => raw == 0
    case JoystickState(_, x, y) => x == 0 && y == 0
  }

  /** The field of `c` that an event with `code` writes, if any: each field
      answers to exactly one code, its component's name for a button or a
      trigger, the prefix followed by "X" or "Y" for a joystick axis. */
  function Target(c: ComponentState, code: string): Option<Field> {
    match c
    case ButtonState(name, _) => if code == name then Some(Pressed) else None
    case TriggerState(name, _) => if code == name then Some(Raw) else None
    case JoystickState(prefix, _, _) =>
      if code == prefix + "X" then Some(AxisX)
      else if code == prefix + "Y" then Some(AxisY)
      else None
  }

  /** `c` with field `f` set from the raw event state `v`: a button reads any
      non-zero state as pressed, the other fields take `v` unclamped. */
  function Write(c: ComponentState, f: Field, v: int): ComponentState {
    match (c, f)
    case (ButtonState(name, _), Pressed) => ButtonState(name, v != 0)
    case (TriggerState(name, _), Raw) => TriggerState(name, v)
    case (JoystickState(prefix, _, y), AxisX) => JoystickState(prefix, v, y)
    case (JoystickState(prefix, x, _), AxisY) => JoystickState(prefix, x, v)
    case _ => c
  }

  /** The code `prefix + axis` starts with `prefix`, and the two axis codes
      of one prefix differ. */
  lemma AxisCodes(prefix: string)
    ensures prefix <= prefix + "X" && prefix <= prefix + "Y"
    ensures prefix + "X" != prefix + "Y"
  {
    assert (prefix + "X")[|prefix|] == 'X';
    assert (prefix + "Y")[|prefix|] == 'Y';
  }

  /** What `load` does to a component's state. A joystick first tests the
      prefix and then the exact axis codes; the result is the same as writing
      the one field that the code targets, and nothing when it targets none. */
  function LoadState(c: ComponentState, e: Event): (r: ComponentState)
    ensures SameWiring(r, c)
    ensures r == match Target(c, e.code)
                 case None => c
                 case Some(f) => Write(c, f, e.state)
  {
    match c
    case ButtonState(name, pressed) =>
      if e.code == name then ButtonState(name, e.state != 0) else c
    case TriggerState(name, raw) =>
      if e.code == name then TriggerState(name, e.state) else c
    case JoystickState(prefix, x, y) =>
      AxisCodes(prefix);
      if !(prefix <= e.code) then c
      else
        JoystickState(prefix,
                      if e.code == prefix + "X" then e.state else x,
                      if e.code == prefix + "Y" then e.state else y)
  }

  /** Loading the same event twice has the effect of loading it once. */
  lemma LoadIdempotent(c: ComponentState, e: Event)
    ensures LoadState(LoadState(c, e), e) == LoadState(c, e)
  {
  }

  /** A trigger's normalised level, raw / 255, as an exact real. */
  ghost function TriggerLevel(raw: int): (r: real)
    ensures 0 <= raw <= 255 ==> 0.0 <= r <= 1.0
    ensures raw == 0 ==> r == 0.0
    ensures raw == 255 ==> r == 1.0
  {
    raw as real / 255.0
  }

  /** A joystick axis's normalised level, (raw - 127.5) / 127.5, as an exact
      real: -1 at raw 0, 1 at raw 255, negative exactly below the centre. */
  ghost function AxisLevel(raw: int): (r: real)
    ensures 0 <= raw <= 255 ==> -1.0 <= r <= 1.0
    ensures raw == 0 ==> r == -1.0
    ensures raw == 255 ==> r == 1.0
    ensures r < 0.0 <==> raw <= 127
  {
    (raw as real - 127.5) / 127.5
  }

  /** A push button, registered for one exact event code. */
  class Button {
    const name: string
    var pressed: bool

    constructor (name: string)
      ensures this.name == name && !pressed
    {
      this.name := name;
      pressed := false;
    }

    function Value(): ComponentState
      reads this
    {
      ButtonState(name, pressed)
    }

    /** Takes the pressed flag from an event with the button's own code. */
    method Load(e: Event)
      modifies this
      ensures pressed == if e.code == name then e.state != 0 else old(pressed)
    {
      if e.code == name {
        pressed := e.state != 0;
      }
    }
  }

  /** An analog trigger, registered for one exact event code. */
  class Trigger {
    const name: string
    var raw: int

    constructor (name: string)
      ensures this.name == name && raw == 0
    {
      this.name := name;
      raw := 0;
    }

    function Value(): ComponentState
      reads this
    {
      TriggerState(name, raw)
    }

    /** Takes the raw value, unclamped, from an event with the trigger's own code. */
    method Load(e: Event)
      modifies this
      ensures raw == if e.code == name then e.state else old(raw)
    {
      if e.code == name {
        raw := e.state;
      }
    }
  }

  /** A two-axis joystick, registered for a code prefix; its axes answer to
      the prefix followed by "X" and by "Y". */
  class Joystick {
    const name: string
    var rawX: int
    var rawY: int

    constructor (name: string)
      ensures this.name == name && rawX == 0 && rawY == 0
    {
      this.name := name;
      rawX, rawY := 0, 0;
    }

    function Value(): ComponentState
      reads this
    {
      JoystickState(name, rawX, rawY)
    }

    /** Ignores codes without the prefix, then sets the one axis whose code
      matches exactly; any other code, even one with the prefix, changes
      nothing. */
    method Load(e: Event)
      modifies this
      ensures rawX == if e.code == name + "X" then e.state else old(rawX)
      ensures rawY == if e.code == name + "Y" then e.state else old(rawY)
    {
      AxisCodes(name);
      if !(name <= e.code) {
        return;
      }
      if e.code == name + "X" {
        rawX := e.state;
      }
      if e.code == name + "Y" {
        rawY := e.state;
      }
    }
  }
}
