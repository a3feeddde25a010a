/** The dispatcher: a controller owns an ordered list of components and, on
    each update, hands every event of a batch that is not Sync or Misc to
    every component in list order. */
module Dispatch {
  import opened Events
  import opened Components

  /** One entry of a controller's parts list: a reference to a component
      object of one of the three kinds. */
  datatype Part =
    | ButtonPart(button: Button)
    | TriggerPart(trigger: Trigger)
    | JoystickPart(joystick: Joystick)

  /** The component object an entry refers to. */
  function Ref(p: Part): object {
    match p
    case ButtonPart(b) => b
    case TriggerPart(t) => t
    case JoystickPart(j) => j
  }

  /** The current value of the component an entry refers to. */
  function PartValue(p: Part): ComponentState
    reads Ref(p)
  {
    match p
    case ButtonPart(b) => b.Value()
    case TriggerPart(t) => t.Value()
    case JoystickPart(j) => j.Value()
  }

  /** `part.load(event)`: the component of the matching kind loads the event. */
  method LoadPart(p: Part, e: Event)
    modifies Ref(p)
    ensures PartValue(p) == LoadState(old(PartValue(p)), e)
  {
    match p
    case ButtonPart(b) => b.Load(e);
    case TriggerPart(t) => t.Load(e);
    case JoystickPart(j) => j.Load(e);
  }

  /** The value a component holds after an update has processed `events`,
      starting from `c`: every event that is not Sync or Misc is loaded, in
      order. */
  function Replay(c: ComponentState, events: seq<Event>): (r: ComponentState)
    ensures SameWiring(r, c)
    decreases |events|
  {
    if events == [] then c
    else
      var prior := Replay(c, events[..|events| - 1]);
      var e := events[|events| - 1];
      if Skipped(e) then prior else LoadState(prior, e)
  }

  /** Replay of a batch extended by one event. */
  lemma ReplaySnoc(c: ComponentState, events: seq<Event>, e: Event)
    ensures Replay(c, events + [e]) ==
            if Skipped(e) then Replay(c, events) else LoadState(Replay(c, events), e)
  {
    assert (events + [e])[..|events|] == events;
  }

  /** Two updates in a row leave a component as one update over both
      batches would. */
  lemma {:induction false} ReplayConcat(c: ComponentState, a: seq<Event>, b: seq<Event>)
    ensures Replay(c, a + b) == Replay(Replay(c, a), b)
    decreases |b|
  {
    if b == [] {
      assert a + b == a;
    } else {
      var b' := b[..|b| - 1];
      var e := b[|b| - 1];
      assert b == b' + [e];
      assert a + b == (a + b') + [e];
      ReplayConcat(c, a, b');
      ReplaySnoc(c, a + b', e);
      ReplaySnoc(Replay(c, a), b', e);
    }
  }

  /** A Sync or Misc event anywhere in a batch has no effect on any
      component. */
  lemma ReplayDropsSkipped(c: ComponentState, before: seq<Event>, e: Event, after: seq<Event>)
    requires Skipped(e)
    ensures Replay(c, before + [e] + after) == Replay(c, before + after)
  {
    ReplayConcat(c, before + [e], after);
    ReplaySnoc(c, before, e);
    ReplayConcat(c, before, after);
  }

  /** A batch in which every event is Sync or Misc, or carries a code that
      targets no field of the component, leaves the component unchanged. */
  lemma {:induction false} ReplayUnrelated(c: ComponentState, events: seq<Event>)
    requires forall i :: 0 <= i < |events| ==> Skipped(events[i]) || Target(c, events[i].code).None?
    ensures Replay(c, events) == c
    decreases |events|
  {
    if events != [] {
      var prior := events[..|events| - 1];
      assert forall i :: 0 <= i < |prior| ==> prior[i] == events[i];
      ReplayUnrelated(c, prior);
    }
  }

  /** After a batch, a button is pressed exactly when the last event with its
      code that is not Sync or Misc carried a non-zero state; with no such
      event it keeps its prior state. */
  lemma {:induction false} ReplayButton(name: string, pressed: bool, events: seq<Event>)
    ensures Replay(ButtonState(name, pressed), events) ==
            ButtonState(name, match LastStateFor(events, name)
                              case Some(s) => s != 0
                              case None => pressed)
    decreases |events|
  {
    if events != [] {
      ReplayButton(name, pressed, events[..|events| - 1]);
    }
  }

  /** After a batch, a trigger holds the state of the last event with its code
      that is not Sync or Misc, or its prior value when there is none. */
  lemma {:induction false} ReplayTrigger(name: string, raw: int, events: seq<Event>)
    ensures Replay(TriggerState(name, raw), events) ==
            TriggerState(name, LastStateFor(events, name).GetOr(raw))
    decreases |events|
  {
    if events != [] {
      ReplayTrigger(name, raw, events[..|events| - 1]);
    }
  }

  /** After a batch, each joystick axis holds the state of the last event
      with that axis's code that is not Sync or Misc, or its prior value when
      there is none. */
  lemma {:induction false} ReplayJoystick(prefix: string, x: int, y: int, events: seq<Event>)
    ensures Replay(JoystickState(prefix, x, y), events) ==
            JoystickState(prefix,
                          LastStateFor(events, prefix + "X").GetOr(x),
                          LastStateFor(events, prefix + "Y").GetOr(y))
    decreases |events|
  {
    if events != [] {
      ReplayJoystick(prefix, x, y, events[..|events| - 1]);
    }
  }

  /** The two joystick axes are independent: the X value after a batch does
      not depend on the prior Y value, and a batch with no event for the Y
      code leaves Y as it was (and symmetrically). */
  lemma StickAxesIndependent(prefix: string, x: int, y: int, x': int, y': int, events: seq<Event>)
    ensures Replay(JoystickState(prefix, x, y), events).rawX ==
            Replay(JoystickState(prefix, x, y'), events).rawX
    ensures Replay(JoystickState(prefix, x, y), events).rawY ==
            Replay(JoystickState(prefix, x', y), events).rawY
    ensures (forall i :: 0 <= i < |events| ==> !Reaches(events[i], prefix + "Y")) ==>
            Replay(JoystickState(prefix, x, y), events).rawY == y
    ensures (forall i :: 0 <= i < |events| ==> !Reaches(events[i], prefix + "X")) ==>
            Replay(JoystickState(prefix, x, y), events).rawX == x
  {
    ReplayJoystick(prefix, x, y, events);
    ReplayJoystick(prefix, x, y', events);
    ReplayJoystick(prefix, x', y, events);
  }

  /** A controller: an ordered list of component entries. An entry may refer
      to the same component as another; loading is idempotent, so such a
      component ends up as if it were listed once. */
  class Controller {
    const parts: seq<Part>

    /** The component objects the controller's update may change. */
    ghost function Repr(): set<object> {
      set k | 0 <= k < |parts| :: Ref(parts[k])
    }

    ghost function Values(): (vs: seq<ComponentState>)
      reads Repr()
      ensures |vs| == |parts|
      ensures forall k :: 0 <= k < |parts| ==> vs[k] == PartValue(parts[k])
    {
      seq(|parts|, k requires 0 <= k < |parts| reads Repr() => PartValue(parts[k]))
    }

    constructor (parts: seq<Part>)
      ensures this.parts == parts
    {
      this.parts := parts;
    }

    /** Loads one event into every part, in list order. */
    method LoadAll(e: Event)
      modifies Repr()
      ensures forall k :: 0 <= k < |parts| ==>
                PartValue(parts[k]) == LoadState(old(PartValue(parts[k])), e)
    {
      for j := 0 to |parts|
        invariant forall k :: 0 <= k < |parts| ==>
                    PartValue(parts[k]) ==
                      if parts[k] in parts[..j] then LoadState(old(PartValue(parts[k])), e)
                      else old(PartValue(parts[k]))
      {
        assert parts[..j + 1] == parts[..j] + [parts[j]];
        forall k | 0 <= k < |parts| {
          LoadIdempotent(old(PartValue(parts[k])), e);
        }
        LoadPart(parts[j], e);
      }
      assert parts[..|parts|] == parts;
    }

    /** Processes one batch of events read from the device: Sync and Misc
        events are dropped, every other event is loaded into every part, in
        list order, without stopping early. */
    method Update(events: seq<Event>)
      modifies Repr()
      ensures forall k :: 0 <= k < |parts| ==>
                PartValue(parts[k]) == Replay(old(PartValue(parts[k])), events)
    {
      for i := 0 to |events|
        invariant forall k :: 0 <= k < |parts| ==>
                    PartValue(parts[k]) == Replay(old(PartValue(parts[k])), events[..i])
      {
        var e := events[i];
        assert events[..i + 1] == events[..i] + [e];
        forall k | 0 <= k < |parts| {
          ReplaySnoc(old(PartValue(parts[k])), events[..i], e);
        }
        if Skipped(e) {
          continue;
        }
        LoadAll(e);
      }
      assert events[..|events|] == events;
    }
  }
}
