/** Wire events of a session stream and the ordering vocabulary its modules share. */
module StreamEvents {

  /** The payload of an event: an opaque JSON message, or the marker whose type is "resync". */
  datatype Message = Ordinary(json: string) | Resync

  /** A message with the per-session sequence number it carries. */
  datatype Event = Event(num: nat, msg: Message)

  function ResyncEvent(num: nat): Event {
    Event(num, Resync)
  }

  ghost predicate Increasing(events: seq<Event>) {
    forall i, j :: 0 <= i < j < |events| ==> events[i].num < events[j].num
  }

  /** Every event in the list lies strictly above the floor. */
  ghost predicate Above(events: seq<Event>, floor: nat) {
    forall i :: 0 <= i < |events| ==> floor < events[i].num
  }

  ghost predicate AtMost(events: seq<Event>, top: nat) {
    forall i :: 0 <= i < |events| ==> events[i].num <= top
  }
}
