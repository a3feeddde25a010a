# PS3 controller event layer, modelled in Dafny

This project models the event-interpretation layer of a small Python gamepad
library (`controller.py`). A device delivers batches of decoded input events.
Each event carries a category, an event code and an integer state. A
`Controller` drops the Sync and Misc events of a batch. It hands every other
event to each of its components, in list order. Three kinds of component
interpret the events:

- a **Button** keeps a pressed flag;
- a **Trigger** keeps a raw integer;
- a **Joystick** keeps two raw integers, one per axis. It is registered for a
  code prefix and answers to the prefix followed by `X` or `Y`.

The **PS3** profile wires nineteen such components to the event codes of a
PS3-style gamepad. It also offers the regional aliases `triangle`, `circle`,
`x_button` and `square`.

Files and modules:

- `events.dfy`, module `Events`: the `Event` record, the Sync/Misc filter
  `Skipped`, and `LastStateFor`, which gives the state of the last event of a
  batch that reaches one event code.
- `components.dfy`, module `Components`: the value model `ComponentState`,
  the pure step `LoadState`, and the classes `Button`, `Trigger` and
  `Joystick`. Each class has a `modifies this` method `Load`. The source's
  read-only properties `pressed`, `raw`, `raw_x` and `raw_y` (and
  `Button.__bool__`) are the Dafny fields `pressed`, `raw`, `rawX` and `rawY`,
  read directly.
- `controller.dfy`, module `Dispatch`: `Part`, a tagged reference to one of
  the three component kinds, which stands in for Python's duck-typed list
  entries. It also holds the class `Controller`, whose `Update` runs the
  source's two nested loops. `Replay` is the specification `Update` is proved
  against: the value one component reaches after a batch. The lemmas that
  follow describe `Replay`: the last matching event wins, Sync and Misc
  events have no effect, the joystick axes are independent, and two batches
  compose.
- `ps3.dfy`, module `Profiles`: the PS3 layout, the routing table `Route`
  (which part and field each PS3 event code writes) and the class `PS3`. The
  module `PS3Client` feeds a fresh gamepad one "ABS_Z" event and derives,
  from the contracts alone, that only the left trigger moved.

`Update` needs no precondition on its parts list. The source accepts any
list, including one that names the same component twice. `LoadState` is
idempotent, so a component listed twice ends the batch in the same state as
one listed once, and the proof covers that case.

## Model

| member | source | states |
|---|---|---|
| Events.LastStateFor | controller.py:83-85 | None exactly when no event of the batch that is not Sync or Misc carries the code; otherwise the state of such an event after which no later one carries the code |
| Components.AxisCodes | controller.py:71-74 | each axis code `prefix+"X"` / `prefix+"Y"` starts with the prefix, and the two axis codes differ, so one event moves at most one axis |
| Components.LoadState | controller.py:25-74 | loading keeps the component's kind and code; the result equals writing the one field the code targets by exact match (the pressed flag as `state != 0`, raw values unclamped), and nothing when the code targets none, including a joystick code that only shares the prefix |
| Components.LoadIdempotent | controller.py:34-74 | loading the same event twice equals loading it once |
| Components.TriggerLevel | controller.py:46-47 | the normalised trigger level raw/255 lies in [0, 1] for raw in [0, 255], with 0 at raw 0 and 1 at raw 255 |
| Components.AxisLevel | controller.py:64-67 | the normalised axis level (raw-127.5)/127.5 lies in [-1, 1] for raw in [0, 255], is -1 at 0 and 1 at 255, and is negative exactly for raw <= 127 |
| Components.Button.constructor | controller.py:26-28 | a new button has the given code and is released |
| Components.Button.Load | controller.py:34-35 | pressed becomes `state != 0` when the code equals the button's code, and is unchanged otherwise |
| Components.Trigger.constructor | controller.py:39-41 | a new trigger has the given code and raw value 0 |
| Components.Trigger.Load | controller.py:49-50 | raw becomes the event state, unclamped, when the code matches exactly, and is unchanged otherwise |
| Components.Joystick.constructor | controller.py:54-57 | a new joystick has the given prefix and both axes at 0 |
| Components.Joystick.Load | controller.py:71-74 | rawX changes only for code `prefix+"X"`, rawY only for `prefix+"Y"`; any other code, even one with the prefix, changes neither |
| Dispatch.LoadPart | controller.py:85 | the entry's component takes the state `LoadState` gives, whatever its kind |
| Dispatch.Replay | controller.py:82-85 | the value after a batch keeps the component's kind and code |
| Dispatch.ReplaySnoc | controller.py:83-85 | extending a batch by one event leaves the value alone for Sync/Misc and loads the event otherwise |
| Dispatch.ReplayConcat | controller.py:82-85 | two updates in a row equal one update over the two batches joined |
| Dispatch.ReplayDropsSkipped | controller.py:84 | removing a Sync or Misc event from anywhere in a batch does not change any component's final value |
| Dispatch.ReplayUnrelated | controller.py:83-85 | a batch whose events are all Sync/Misc or carry codes the component does not answer to leaves it unchanged |
| Dispatch.ReplayButton | controller.py:34-35 | after a batch a button is pressed iff the last event with its code that is not Sync or Misc had a non-zero state, and keeps its prior state if there is none |
| Dispatch.ReplayTrigger | controller.py:49-50 | after a batch a trigger holds the state of the last event with its code that is not Sync or Misc, or its prior value if there is none |
| Dispatch.ReplayJoystick | controller.py:71-74 | after a batch each joystick axis holds the state of the last event with that axis's code that is not Sync or Misc, or its prior value |
| Dispatch.StickAxesIndependent | controller.py:73-74 | the final X does not depend on the prior Y (and vice versa), and a batch without events for one axis leaves that axis unchanged |
| Dispatch.Controller.constructor | controller.py:78-80 | the controller keeps the given parts list |
| Dispatch.Controller.LoadAll | controller.py:85 | every part, in list order, takes `LoadState` of its prior value and the event, even when entries repeat an object |
| Dispatch.Controller.Update | controller.py:82-85 | every part ends with `Replay` of its prior value over the whole batch: Sync and Misc events are dropped and every other event reaches every part |
| Profiles.Layout | controller.py:90-108 | the nineteen PS3 parts in dispatch order with their codes, all at rest |
| Profiles.LayoutNamesDistinct | controller.py:90-108 | no two PS3 parts are registered for the same code |
| Profiles.RoutedByLayoutAnalog | controller.py:90-93 | for the sticks and triggers, the codes each part answers to are exactly those `Route` sends to it |
| Profiles.RoutedByLayoutFace | controller.py:94-97 | the same for the four face buttons |
| Profiles.RoutedByLayoutPad | controller.py:98-101 | the same for the directional pad |
| Profiles.RoutedByLayoutShoulder | controller.py:102-105 | the same for the stick clicks and bumpers |
| Profiles.RoutedByLayoutMenu | controller.py:106-108 | the same for start, select and mode |
| Profiles.PS3Routing | controller.py:90-117 | in any state of the PS3 parts, each event code targets at most one field of one part: the slot `Route` names |
| Profiles.PS3LoadTouchesOnePart | controller.py:109-117 | one event leaves every PS3 part unchanged except the one its code is routed to, in which it writes only the routed field |
| Profiles.PS3RightStickX | controller.py:90-91 | "ABS_RX" changes only the right stick's X axis, although it starts with the left stick's prefix "ABS_" |
| Profiles.PS3LeftTrigger | controller.py:92 | "ABS_Z" changes only the left trigger's raw value |
| Profiles.PS3ReplayUnrouted | controller.py:109-117 | after a batch a PS3 part is unchanged unless an event of the batch that is not Sync or Misc has a code routed to it |
| Profiles.PS3.constructor | controller.py:89-117 | a new PS3 has nineteen fresh components with their PS3 codes, all released or centred, and a controller that feeds them in the source's order |
| Profiles.PS3.WiredAsLayout | controller.py:109-117 | each of the controller's entries is registered as the layout says |
| Profiles.PS3.PartsDistinct | controller.py:90-117 | the nineteen entries refer to nineteen distinct components |
| Profiles.PS3.StaysWired | controller.py:109-117 | whatever batches have been processed, the part values are still wired as a PS3, so the routing lemmas apply |
| Profiles.PS3.Triangle | controller.py:119-120 | the alias is the north button `y`, the fifth entry the controller feeds, registered for "BTN_NORTH" |
| Profiles.PS3.Circle | controller.py:121-122 | the alias is the east button `b`, the sixth entry, registered for "BTN_EAST" |
| Profiles.PS3.XButton | controller.py:123-124 | the alias is the south button `a`, the seventh entry, registered for "BTN_SOUTH" |
| Profiles.PS3.Square | controller.py:125-126 | the alias is the west button `x`, the eighth entry, registered for "BTN_WEST" |

## Left out

- `device.read()`, `GamePad` and `InputEvent` belong to the external `inputs` library, which does device I/O. The batch a read returns is the `events` parameter of `Update`. A failing read, whose error the source lets propagate, is therefore not modelled.
- `Joystick.angle` is left out. It is `atan` of a floating-point quotient and fails at run time when the x level is 0.
- TriggerLevel and AxisLevel use exact reals, not IEEE doubles, so they do not model rounding. They are ghost functions: the model does not compute them.
- `PS3.__str__` is left out: it only renders a debug string.
- The abstract `Component.load` stub and `event_name_len` are left out: they have no behaviour.
- The `PS3` class holds a `Controller` instead of inheriting from one, so the source's `pad.update()` is `pad.controller.Update(events)` here.
- A Python parts list may hold any object with a `load` method. A `Part` here is one of the three component kinds.
- Raw values are not range-checked, as in the source. Trigger and axis values are nominally bytes in [0, 255], but the code does not enforce that, and the model follows the code.
