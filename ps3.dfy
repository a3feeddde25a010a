/** The PS3 profile: a controller wired to the nineteen controls of a PS3-style
    gamepad, each bound to the event code the device reports for it. */
module Profiles {
  import opened Events
  import opened Components
  import opened Dispatch

  /** The PS3 parts in dispatch order, as they are created: left and right
      stick, left and right trigger, the four face buttons (north, east,
      south, west), the four directions of the pad, the two stick clicks, the
      two bumpers, start, select and mode. */
  function Layout(): (r: seq<ComponentState>)
    ensures |r| == 19
    ensures forall k :: 0 <= k < |r| ==> AtRest(r[k])
  {
    [ JoystickState("ABS_", 0, 0), JoystickState("ABS_R", 0, 0),
      TriggerState("ABS_Z", 0), TriggerState("ABS_RZ", 0),
      ButtonState("BTN_NORTH", false), ButtonState("BTN_EAST", false),
      ButtonState("BTN_SOUTH", false), ButtonState("BTN_WEST", false),
      ButtonState("BTN_DPAD_UP", false), ButtonState("BTN_DPAD_RIGHT", false),
      ButtonState("BTN_DPAD_DOWN", false), ButtonState("BTN_DPAD_LEFT", false),
      ButtonState("BTN_THUMBL", false), ButtonState("BTN_THUMBR", false),
      ButtonState("BTN_TL", false), ButtonState("BTN_TR", false),
      ButtonState("BTN_START", false), ButtonState("BTN_SELECT", false),
      ButtonState("BTN_MODE", false) ]
  }

  /** States of the nineteen PS3 parts: same kinds and codes as the layout,
      any raw values. */
  ghost predicate WiredAsPS3(s: seq<ComponentState>) {
    |s| == |Layout()| && forall k :: 0 <= k < |s| ==> SameWiring(s[k], Layout()[k])
  }

  /** A field of one part, by its index in the dispatch list. */
  datatype Slot = Slot(part: nat, field: Field)

  /** The one place an event code lands in the PS3 wiring, if any. */
  function Route(code: string): Option<Slot> {
    if code == "ABS_X" then Some(Slot(0, AxisX))
    else if code == "ABS_Y" then Some(Slot(0, AxisY))
    else if code == "ABS_RX" then Some(Slot(1, AxisX))
    else if code == "ABS_RY" then Some(Slot(1, AxisY))
    else if code == "ABS_Z" then Some(Slot(2, Raw))
    else if code == "ABS_RZ" then Some(Slot(3, Raw))
    else if code == "BTN_NORTH" then Some(Slot(4, Pressed))
    else if code == "BTN_EAST" then Some(Slot(5, Pressed))
    else if code == "BTN_SOUTH" then Some(Slot(6, Pressed))
    else if code == "BTN_WEST" then Some(Slot(7, Pressed))
    else if code == "BTN_DPAD_UP" then Some(Slot(8, Pressed))
    else if code == "BTN_DPAD_RIGHT" then Some(Slot(9, Pressed))
    else if code == "BTN_DPAD_DOWN" then Some(Slot(10, Pressed))
    else if code == "BTN_DPAD_LEFT" then Some(Slot(11, Pressed))
    else if code == "BTN_THUMBL" then Some(Slot(12, Pressed))
    else if code == "BTN_THUMBR" then Some(Slot(13, Pressed))
    else if code == "BTN_TL" then Some(Slot(14, Pressed))
    else if code == "BTN_TR" then Some(Slot(15, Pressed))
    else if code == "BTN_START" then Some(Slot(16, Pressed))
    else if code == "BTN_SELECT" then Some(Slot(17, Pressed))
    else if code == "BTN_MODE" then Some(Slot(18, Pressed))
    else None
  }

  /** The field part `k` lets an event with `code` write, according to Route. */
  function Routed(code: string, k: nat): Option<Field> {
    match Route(code)
    case Some(Slot(part, f)) => if part == k then Some(f) else None
    case None => None
  }

  /** Route agrees with the layout on the sticks and the triggers. */
  lemma RoutedByLayoutAnalog(code: string, k: nat)
    requires 0 <= k < 4
    ensures Target(Layout()[k], code) == Routed(code, k)
  {
  }

  /** Route agrees with the layout on the face buttons. */
  lemma RoutedByLayoutFace(code: string, k: nat)
    requires 4 <= k < 8
    ensures Target(Layout()[k], code) == Routed(code, k)
  {
  }

  /** Route agrees with the layout on the directional pad. */
  lemma RoutedByLayoutPad(code: string, k: nat)
    requires 8 <= k < 12
    ensures Target(Layout()[k], code) == Routed(code, k)
  {
  }

  /** Route agrees with the layout on the stick clicks and the bumpers. */
  lemma RoutedByLayoutShoulder(code: string, k: nat)
    requires 12 <= k < 16
    ensures Target(Layout()[k], code) == Routed(code, k)
  {
  }

  /** Route agrees with the layout on start, select and mode. */
  lemma RoutedByLayoutMenu(code: string, k: nat)
    requires 16 <= k < 19
    ensures Target(Layout()[k], code) == Routed(code, k)
  {
  }

  /** In the PS3 wiring each event code targets at most one field of one
      part, the one Route names: the left stick's prefix "ABS_" also starts
      "ABS_RX", yet only the right stick answers to it. */
  lemma PS3Routing(s: seq<ComponentState>, code: string, k: nat)
    requires WiredAsPS3(s) && k < |s|
    ensures Target(s[k], code) == Routed(code, k)
  {
    assert SameWiring(s[k], Layout()[k]);
    if k < 4 {
      RoutedByLayoutAnalog(code, k);
    } else if k < 8 {
      RoutedByLayoutFace(code, k);
    } else if k < 12 {
      RoutedByLayoutPad(code, k);
    } else if k < 16 {
      RoutedByLayoutShoulder(code, k);
    } else {
      RoutedByLayoutMenu(code, k);
    }
  }

  /** One event changes at most one part of a PS3: every part other than the
      one its code is routed to keeps its state. */
  lemma PS3LoadTouchesOnePart(s: seq<ComponentState>, e: Event, k: nat)
    requires WiredAsPS3(s) && k < |s|
    ensures LoadState(s[k], e) == match Routed(e.code, k)
                                  case None => s[k]
                                  case Some(f) => Write(s[k], f, e.state)
  {
    PS3Routing(s, e.code, k);
  }

  /** "ABS_RX" moves only the right stick's X axis. */
  lemma PS3RightStickX(s: seq<ComponentState>, evType: string, v: int, k: nat)
    requires WiredAsPS3(s) && k < |s|
    ensures LoadState(s[k], Event(evType, "ABS_RX", v)) ==
            if k == 1 then s[1].(rawX := v) else s[k]
  {
    PS3LoadTouchesOnePart(s, Event(evType, "ABS_RX", v), k);
  }

  /** "ABS_Z" moves only the left trigger. */
  lemma PS3LeftTrigger(s: seq<ComponentState>, evType: string, v: int, k: nat)
    requires WiredAsPS3(s) && k < |s|
    ensures LoadState(s[k], Event(evType, "ABS_Z", v)) ==
            if k == 2 then s[2].(raw := v) else s[k]
  {
    PS3LoadTouchesOnePart(s, Event(evType, "ABS_Z", v), k);
  }

  /** After a batch, a PS3 part holds its prior state unless some event of
      the batch that is not Sync or Misc has a code routed to it. */
  lemma PS3ReplayUnrouted(s: seq<ComponentState>, events: seq<Event>, k: nat)
    requires WiredAsPS3(s) && k < |s|
    requires forall i :: 0 <= i < |events| ==> Skipped(events[i]) || Routed(events[i].code, k).None?
    ensures Replay(s[k], events) == s[k]
  {
    forall i | 0 <= i < |events| ensures Skipped(events[i]) || Target(s[k], events[i].code).None? {
      PS3Routing(s, events[i].code, k);
    }
    ReplayUnrelated(s[k], events);
  }

  /** The part an entry stands for, as it is created. */
  function Initial(p: Part): ComponentState {
    match p
    case ButtonPart(b) => ButtonState(b.name, false)
    case TriggerPart(t) => TriggerState(t.name, 0)
    case JoystickPart(j) => JoystickState(j.name, 0, 0)
  }

  /** No two parts of the layout are registered for the same code. */
  lemma LayoutNamesDistinct()
    ensures forall i, j :: 0 <= i < j < |Layout()| ==> Layout()[i].name != Layout()[j].name
  {
  }

  /** A PS3 gamepad: nineteen named components, and a controller that
      dispatches to all of them. */
  class PS3 {
    const joystickL: Joystick
    const joystickR: Joystick
    const triggerL: Trigger
    const triggerR: Trigger
    const y: Button
    const b: Button
    const a: Button
    const x: Button
    const up: Button
    const right: Button
    const down: Button
    const left: Button
    const thumbL: Button
    const thumbR: Button
    const bumperL: Button
    const bumperR: Button
    const start: Button
    const select: Button
    const mode: Button
    const controller: Controller

    /** The controller dispatches to exactly the named components, in the
        layout's order, and each is registered for its PS3 event code. */
    ghost predicate Valid() {
      controller.parts ==
        [ JoystickPart(joystickL), JoystickPart(joystickR),
          TriggerPart(triggerL), TriggerPart(triggerR),
          ButtonPart(y), ButtonPart(b), ButtonPart(a), ButtonPart(x),
          ButtonPart(up), ButtonPart(right), ButtonPart(down), ButtonPart(left),
          ButtonPart(thumbL), ButtonPart(thumbR),
          ButtonPart(bumperL), ButtonPart(bumperR),
          ButtonPart(start), ButtonPart(select), ButtonPart(mode) ] &&
      joystickL.name == "ABS_" && joystickR.name == "ABS_R" &&
      triggerL.name == "ABS_Z" && triggerR.name == "ABS_RZ" &&
      y.name == "BTN_NORTH" && b.name == "BTN_EAST" &&
      a.name == "BTN_SOUTH" && x.name == "BTN_WEST" &&
      up.name == "BTN_DPAD_UP" && right.name == "BTN_DPAD_RIGHT" &&
      down.name == "BTN_DPAD_DOWN" && left.name == "BTN_DPAD_LEFT" &&
      thumbL.name == "BTN_THUMBL" && thumbR.name == "BTN_THUMBR" &&
      bumperL.name == "BTN_TL" && bumperR.name == "BTN_TR" &&
      start.name == "BTN_START" && select.name == "BTN_SELECT" && mode.name == "BTN_MODE"
    }

    /** Every component is released or centred. */
    ghost predicate AtStart()
      reads joystickL, joystickR, triggerL, triggerR, y, b, a, x, up, right, down, left
      reads thumbL, thumbR, bumperL, bumperR, start, select, mode
    {
      joystickL.rawX == 0 && joystickL.rawY == 0 && joystickR.rawX == 0 && joystickR.rawY == 0 &&
      triggerL.raw == 0 && triggerR.raw == 0 &&
      !y.pressed && !b.pressed && !a.pressed && !x.pressed &&
      !up.pressed && !right.pressed && !down.pressed && !left.pressed &&
      !thumbL.pressed && !thumbR.pressed && !bumperL.pressed && !bumperR.pressed &&
      !start.pressed && !select.pressed && !mode.pressed
    }

    constructor ()
      ensures Valid() && AtStart()
      ensures fresh(controller)
      ensures fresh(joystickL) && fresh(joystickR) && fresh(triggerL) && fresh(triggerR) && fresh(y)
      ensures fresh(b) && fresh(a) && fresh(x) && fresh(up) && fresh(right) && fresh(down)
      ensures fresh(left) && fresh(thumbL) && fresh(thumbR) && fresh(bumperL) && fresh(bumperR)
      ensures fresh(start) && fresh(select) && fresh(mode)
    {
      var jl := new Joystick("ABS_");
      var jr := new Joystick("ABS_R");
      var tl := new Trigger("ABS_Z");
      var tr := new Trigger("ABS_RZ");
      var north := new Button("BTN_NORTH");
      var east := new Button("BTN_EAST");
      var south := new Button("BTN_SOUTH");
      var west := new Button("BTN_WEST");
      var padUp := new Button("BTN_DPAD_UP");
      var padRight := new Button("BTN_DPAD_RIGHT");
      var padDown := new Button("BTN_DPAD_DOWN");
      var padLeft := new Button("BTN_DPAD_LEFT");
      var clickL := new Button("BTN_THUMBL");
      var clickR := new Button("BTN_THUMBR");
      var shoulderL := new Button("BTN_TL");
      var shoulderR := new Button("BTN_TR");
      var startButton := new Button("BTN_START");
      var selectButton := new Button("BTN_SELECT");
      var modeButton := new Button("BTN_MODE");
      joystickL, joystickR, triggerL, triggerR := jl, jr, tl, tr;
      y, b, a, x := north, east, south, west;
      up, right, down, left := padUp, padRight, padDown, padLeft;
      thumbL, thumbR, bumperL, bumperR := clickL, clickR, shoulderL, shoulderR;
      start, select, mode := startButton, selectButton, modeButton;
      controller := new Controller(
        [ JoystickPart(jl), JoystickPart(jr), TriggerPart(tl), TriggerPart(tr),
          ButtonPart(north), ButtonPart(east), ButtonPart(south), ButtonPart(west),
          ButtonPart(padUp), ButtonPart(padRight), ButtonPart(padDown), ButtonPart(padLeft),
          ButtonPart(clickL), ButtonPart(clickR), ButtonPart(shoulderL), ButtonPart(shoulderR),
          ButtonPart(startButton), ButtonPart(selectButton), ButtonPart(modeButton) ]);
    }

    /** Each entry of the controller is registered as the layout says. */
    lemma WiredAsLayout()
      requires Valid()
      ensures |controller.parts| == |Layout()|
      ensures forall k :: 0 <= k < |controller.parts| ==> Initial(controller.parts[k]) == Layout()[k]
    {
    }

    /** The nineteen entries refer to nineteen distinct components: entries
        registered for different codes cannot share an object. */
    lemma PartsDistinct()
      requires Valid()
      ensures forall i, j :: 0 <= i < j < |controller.parts| ==>
                Ref(controller.parts[i]) != Ref(controller.parts[j])
    {
      WiredAsLayout();
      LayoutNamesDistinct();
    }

    /** Whatever updates have happened, the parts' states are wired as a PS3,
        so the routing lemmas apply to them. */
    lemma StaysWired()
      requires Valid()
      ensures WiredAsPS3(controller.Values())
    {
      WiredAsLayout();
    }

    /** The triangle button is the north button `y`, the object the
        controller feeds fifth. */
    function Triangle(): (r: Button)
      ensures r == y
      ensures Valid() ==> controller.parts[4] == ButtonPart(r) && r.name == "BTN_NORTH"
    {
      y
    }

    /** The circle button is the east button `b`. */
    function Circle(): (r: Button)
      ensures r == b
      ensures Valid() ==> controller.parts[5] == ButtonPart(r) && r.name == "BTN_EAST"
    {
      b
    }

    /** The cross button is the south button `a`. */
    function XButton(): (r: Button)
      ensures r == a
      ensures Valid() ==> controller.parts[6] == ButtonPart(r) && r.name == "BTN_SOUTH"
    {
      a
    }

    /** The square button is the west button `x`. */
    function Square(): (r: Button)
      ensures r == x
      ensures Valid() ==> controller.parts[7] == ButtonPart(r) && r.name == "BTN_WEST"
    {
      x
    }
  }
}

/** A client of the profile: what a caller can conclude from the contracts
    alone after feeding a fresh PS3 gamepad one batch. */
module PS3Client {
  import opened Events
  import opened Components
  import opened Dispatch
  import opened Profiles

  /** One "ABS_Z" event at 200 moves the left trigger to 200 and leaves every
      other part as it was. */
  method LeftTriggerScenario() {
    var pad := new PS3();
    var batch := [Event("Absolute", "ABS_Z", 200)];
    pad.StaysWired();
    ghost var before := pad.controller.Values();
    assert pad.controller.parts[2] == TriggerPart(pad.triggerL);
    assert before[2] == TriggerState("ABS_Z", 0);
    pad.controller.Update(batch);
    forall k | 0 <= k < |before|
      ensures PartValue(pad.controller.parts[k]) == Replay(before[k], batch)
    {
    }
    ReplaySnoc(before[2], [], batch[0]);
    assert [] + [batch[0]] == batch;
    assert pad.triggerL.raw == 200;
    forall k | 0 <= k < |before| && k != 2
      ensures PartValue(pad.controller.parts[k]) == before[k]
    {
      PS3ReplayUnrouted(before, batch, k);
    }
  }
}
