/** Input events as the device library hands them to the controller, and what
    a batch of them says about one event code. */
module Events {

  datatype Option<T> = None | Some(value: T) {
    /** The carried value, or `default` when there is none. */
    function GetOr(default: T): T {
      match this
      case Some(v) => v
      case None => default
    }
  }

  /** One decoded input event: its category ("Key", "Absolute", "Sync", ...),
      the code of the control it reports on and its raw integer state. */
  datatype Event = Event(evType: string, code: string, state: int)

  /** Sync and Misc events are bookkeeping of the event protocol: the
      controller drops them before any component sees them. */
  predicate Skipped(e: Event) {
    e.evType in ["Sync", "Misc"]
  }

  /** The event is handed to the components and carries `code`. */
  predicate Reaches(e: Event, code: string) {
    !Skipped(e) && e.code == code
  }

  /** Event `i` reaches the components with `code` and no later event of the
      batch does. */
  ghost predicate LastReaching(events: seq<Event>, code: string, i: int) {
    0 <= i < |events| && Reaches(events[i], code) &&
    forall j :: i < j < |events| ==> !Reaches(events[j], code)
  }

  /** The state carried by the last event of the batch that reaches the
      components with `code`, or None when no event of the batch does. */
  function LastStateFor(events: seq<Event>, code: string): (r: Option<int>)
    ensures r.None? <==> forall i :: 0 <= i < |events| ==> !Reaches(events[i], code)
    ensures r.Some? ==> exists i :: LastReaching(events, code, i) && events[i].state == r.value
    decreases |events|
  {
    if events == [] then None
    else
      var n := |events| - 1;
      if Reaches(events[n], code) then
        assert LastReaching(events, code, n);
        Some(events[n].state)
      else
        var prior := events[..n];
        var r := LastStateFor(prior, code);
        assert r.Some? ==> exists i :: LastReaching(events, code, i) && events[i].state == r.value by {
          if r.Some? {
            var i :| LastReaching(prior, code, i) && prior[i].state == r.value;
            assert LastReaching(events, code, i);
          }
        }
        r
  }
}
