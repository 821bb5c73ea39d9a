/** The copy of the directory a consumer builds from the events it receives. */
module Replica {
  import opened Models
  import opened Sequences

  type Objects = map<string, UdmObject>

  /** An event with a new side stores that object, one without removes the old side's object. */
  function Receive(held: Objects, event: Message): Objects {
    if event.body.after.Some? then held[event.body.after.value.uuid := event.body.after.value]
    else if event.body.before.Some? then held - {event.body.before.value.uuid}
    else held
  }

  /** The object an event is about. */
  function EventUuid(e: Message): string {
    if e.body.after.Some? then e.body.after.value.uuid
    else if e.body.before.Some? then e.body.before.value.uuid else ""
  }

  function Replay(held: Objects, events: seq<Message>): Objects {
    if events == [] then held
    else Receive(Replay(held, DropLast(events)), Last(events))
  }

  function ReplicaOf(events: seq<Message>): Objects {
    Replay(map[], events)
  }

  lemma ReplaySnoc(held: Objects, events: seq<Message>, event: Message)
    ensures Replay(held, events + [event]) == Receive(Replay(held, events), event)
  {
    assert DropLast(events + [event]) == events;
  }
}
