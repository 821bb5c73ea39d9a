/** The UDM transformer: LDAP changes in, UDM events out (udm_transformer/). */
module Transformer {
  import opened Models
  import opened Sequences
  import opened Replica

  datatype LdapEntry = LdapEntry(entryUUID: string, attributes: map<string, string>)

  /** The two sides of an LDAP change; None is the empty side of a create or a delete. */
  datatype Change = Change(before: Option<LdapEntry>, after: Option<LdapEntry>)

  /** What ldap_to_udm does with an entry: a representation, `{}` or None, or an exception. */
  datatype Transformed = Representation(obj: UdmObject) | Untransformable | Raises

  type Transform = LdapEntry -> Transformed

  // ---------- One attempt at one change ----------

  /** What outlives a crash of the transformer: the old-object cache and the events sent so far. */
  datatype World = World(cache: Objects, events: seq<Message>)

  function OldOf(c: Change, cache: Objects): Option<UdmObject> {
    if c.before.Some? then Lookup(cache, c.before.value.entryUUID) else None
  }

  predicate TransformRaises(c: Change, t: Transform) {
    c.after.Some? && t(c.after.value).Raises?
  }

  function NewOf(c: Change, t: Transform): Option<UdmObject> {
    if c.after.Some? && t(c.after.value).Representation? then Some(t(c.after.value).obj) else None
  }

  /** The event for the two sides; None when there is nothing to send or no topic to send it under. */
  function EventOf(after: Option<UdmObject>, before: Option<UdmObject>): Option<Message> {
    if after.None? && before.None? then None
    else
      var topic := if after.Some? then after.value.objectType else before.value.objectType;
      if topic == "" then None else Some(Message("udm", topic, Body(before, after)))
  }

  function Calls<T>(o: Option<T>): nat {
    if o.Some? then 1 else 0
  }

  /** How many port calls the change takes: one to read the cache, one to write it, one to send the event. */
  function CallCount(w: World, c: Change, t: Transform): nat {
    Calls(c.before) + Calls(NewOf(c, t)) + Calls(EventOf(NewOf(c, t), OldOf(c, w.cache)))
  }

  function StoreNew(w: World, after: Option<UdmObject>): World {
    if after.Some? then w.(cache := w.cache[after.value.uuid := after.value]) else w
  }

  function SendNew(w: World, event: Option<Message>): World {
    if event.Some? then w.(events := w.events + [event.value]) else w
  }

  /** The world after an attempt at `c` in which the process fails after `budget` port calls. */
  function Attempt(w: World, c: Change, t: Transform, budget: nat): World {
    var after := NewOf(c, t);
    var beforeSend := Calls(c.before) + Calls(after);
    if TransformRaises(c, t) || budget < beforeSend then w
    else if budget == beforeSend then StoreNew(w, after)
    else SendNew(StoreNew(w, after), EventOf(after, OldOf(c, w.cache)))
  }

  predicate Completes(w: World, c: Change, t: Transform, budget: nat) {
    !TransformRaises(c, t) && CallCount(w, c, t) <= budget
  }

  // ---------- Deliveries of the LDAP queue ----------

  /** How much of the LDAP queue is acknowledged, and the world the transformer has left behind. */
  datatype Pipeline = Pipeline(acked: nat, world: World)

  /** One delivery of the oldest unacknowledged change; the acknowledgement is the last call of the budget. */
  function Deliver(p: Pipeline, queue: seq<Change>, t: Transform, budget: nat): Pipeline {
    if p.acked >= |queue| then p
    else
      var c := queue[p.acked];
      Pipeline(
        if Completes(p.world, c, t, budget) && CallCount(p.world, c, t) < budget then p.acked + 1 else p.acked,
        Attempt(p.world, c, t, budget))
  }

  function Deliveries(queue: seq<Change>, t: Transform, budgets: seq<nat>): Pipeline {
    if budgets == [] then Pipeline(0, World(map[], []))
    else Deliver(Deliveries(queue, t, DropLast(budgets)), queue, t, Last(budgets))
  }

  // ---------- The service ----------

  /** The port; `callsLeft` is the number of calls that still succeed before the process fails. */
  class UDMTransformerPort {
    var cache: Objects
    var events: seq<Message>
    var callsLeft: nat

    function Now(): World
      reads this
    {
      World(cache, events)
    }

    constructor ()
      ensures Now() == World(map[], [])
    {
      cache, events, callsLeft := map[], [], 0;
    }

    method Restart(callsLeft: nat)
      modifies this`callsLeft
      ensures this.callsLeft == callsLeft
    {
      this.callsLeft := callsLeft;
    }

    method Spend() returns (ok: bool)
      modifies this`callsLeft
      ensures ok == (old(callsLeft) > 0)
      ensures callsLeft == if ok then old(callsLeft) - 1 else 0
    {
      ok := callsLeft > 0;
      if ok {
        callsLeft := callsLeft - 1;
      }
    }

    method Retrieve(uuid: string) returns (ok: bool, obj: Option<UdmObject>)
      modifies this`callsLeft
      ensures ok == (old(callsLeft) > 0)
      ensures callsLeft == if ok then old(callsLeft) - 1 else 0
      ensures ok ==> obj == Lookup(cache, uuid)
    {
      ok := Spend();
      obj := if ok then Lookup(cache, uuid) else None;
    }

    method Store(uuid: string, obj: UdmObject) returns (ok: bool)
      modifies this`callsLeft, this`cache
      ensures ok == (old(callsLeft) > 0)
      ensures callsLeft == if ok then old(callsLeft) - 1 else 0
      ensures cache == if ok then old(cache)[uuid := obj] else old(cache)
    {
      ok := Spend();
      if ok {
        cache := cache[uuid := obj];
      }
    }

    method SendEvent(event: Message) returns (ok: bool)
      modifies this`callsLeft, this`events
      ensures ok == (old(callsLeft) > 0)
      ensures callsLeft == if ok then old(callsLeft) - 1 else 0
      ensures events == if ok then old(events) + [event] else old(events)
    {
      ok := Spend();
      if ok {
        events := events + [event];
      }
    }
  }

  class UDMMessagingService {
    const port: UDMTransformerPort
    const ldapToUdm: Transform

    constructor (port: UDMTransformerPort, ldapToUdm: Transform)
      ensures this.port == port && this.ldapToUdm == ldapToUdm
    {
      this.port, this.ldapToUdm := port, ldapToUdm;
    }

    method SendEvent(after: Option<UdmObject>, before: Option<UdmObject>) returns (ok: bool)
      modifies port`callsLeft, port`events
      ensures var event := EventOf(after, before);
              && ok == (Calls(event) <= old(port.callsLeft))
              && port.callsLeft == (if ok then old(port.callsLeft) - Calls(event) else 0)
              && port.Now() == if ok then SendNew(old(port.Now()), event) else old(port.Now())
    {
      if after.None? && before.None? {
        return true;
      }
      var objectType := if after.Some? then after.value.objectType else before.value.objectType;
      if objectType == "" {
        return true;
      }
      ok := port.SendEvent(Message("udm", objectType, Body(before, after)));
    }

    /** ok is false when an exception escapes: a port call failed or ldap_to_udm raised. */
    method HandleChanges(after: Option<LdapEntry>, before: Option<LdapEntry>) returns (ok: bool)
      modifies port
      ensures var c := Change(before, after);
              var w, budget := old(port.Now()), old(port.callsLeft);
              && ok == Completes(w, c, ldapToUdm, budget)
              && (ok ==> port.callsLeft == budget - CallCount(w, c, ldapToUdm))
              && port.Now() == Attempt(w, c, ldapToUdm, budget)
    {
      var oldObj := None;
      if before.Some? {
        ok, oldObj := port.Retrieve(before.value.entryUUID);
        if !ok {
          return;
        }
      }
      var newObj := None;
      if after.Some? {
        var transformed := ldapToUdm(after.value);
        if transformed.Raises? {
          return false;
        }
        if transformed.Representation? {
          newObj := Some(transformed.obj);
          ok := port.Store(newObj.value.uuid, newObj.value);
          if !ok {
            return;
          }
        }
      }
      ok := SendEvent(newObj, oldObj);
    }
  }

  class UDMTransformerController {
    const port: UDMTransformerPort
    const service: UDMMessagingService
    var acked: nat

    function Now(): Pipeline
      reads this, port
    {
      Pipeline(acked, port.Now())
    }

    constructor (ldapToUdm: Transform)
      ensures fresh(port) && service.port == port && service.ldapToUdm == ldapToUdm
      ensures Now() == Pipeline(0, World(map[], []))
    {
      var newPort := new UDMTransformerPort();
      port := newPort;
      service := new UDMMessagingService(newPort, ldapToUdm);
      acked := 0;
    }

    /** Handles the oldest unacknowledged change and acknowledges it unless an exception escaped. */
    method HandleNext(queue: seq<Change>)
      requires service.port == port
      modifies this`acked, port
      ensures Now() == Deliver(old(Now()), queue, service.ldapToUdm, old(port.callsLeft))
    {
      if acked >= |queue| {
        return;
      }
      var ok := service.HandleChanges(queue[acked].after, queue[acked].before);
      if !ok {
        // The negative acknowledgement and the exception both leave the change to be redelivered.
        return;
      }
      ok := port.Spend();
      if ok {
        acked := acked + 1;
      }
    }

    /** The fetch loop over any number of deliveries, with the process restarted after each failure. */
    method TransformEvents(queue: seq<Change>, budgets: seq<nat>)
      requires service.port == port && Now() == Pipeline(0, World(map[], []))
      modifies this`acked, port
      ensures Now() == Deliveries(queue, service.ldapToUdm, budgets)
    {
      for i := 0 to |budgets|
        invariant Now() == Deliveries(queue, service.ldapToUdm, budgets[..i])
      {
        port.Restart(budgets[i]);
        HandleNext(queue);
        assert DropLast(budgets[..i + 1]) == budgets[..i];
      }
      assert budgets[..|budgets|] == budgets;
    }
  }
}
