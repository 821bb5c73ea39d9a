/**
  What a subscriber holds that folds the messages of its own subjects: its part of the directory,
  if no object changes to a type it has not subscribed to.
 */
module Subscriber {
  import opened Models
  import opened Sequences
  import opened Replica
  import opened Dispatcher
  import opened FanOut

  // ---------- Redelivered copies ----------

  /** Replaying entries of any kind of log, by the message each of them carries. */
  function ReplayBy<T>(message: T -> Message, held: Objects, log: seq<T>): Objects {
    if log == [] then held else Receive(ReplayBy(message, held, DropLast(log)), message(Last(log)))
  }

  lemma ReplayBySnoc<T>(message: T -> Message, held: Objects, log: seq<T>, x: T)
    ensures ReplayBy(message, held, log + [x]) == Receive(ReplayBy(message, held, log), message(x))
  {
    assert DropLast(log + [x]) == log;
  }

  lemma ReceiveTwice(held: Objects, e: Message)
    ensures Receive(Receive(held, e), e) == Receive(held, e)
  {
  }

  /** Adjacent copies make no difference to what is held in the end. */
  lemma {:induction false} CopiesAreHarmless<T>(message: T -> Message, held: Objects, log: seq<T>)
    ensures ReplayBy(message, held, Collapse(log)) == ReplayBy(message, held, log)
  {
    if log != [] {
      hide Receive;
      var init, x := DropLast(log), Last(log);
      CopiesAreHarmless(message, held, init);
      CollapseSnoc(init, x);
      assert log == init + [x];
      if init != [] && Last(init) == x {
        ReceiveTwice(ReplayBy(message, held, DropLast(init)), message(x));
      } else {
        ReplayBySnoc(message, held, Collapse(init), x);
      }
    }
  }

  // ---------- A subscriber's part of the directory ----------

  function Part(held: Objects, sub: Subscription): Objects {
    map u | u in held && Wants(sub, "udm", held[u].objectType) :: held[u]
  }

  predicate Routes(sub: Subscription, e: Message) {
    Wants(sub, e.realm, e.topic)
  }

  /** What the transformer sends: an event under the type of the object it is about. */
  predicate WellFormed(e: Message) {
    && e.realm == "udm"
    && (e.body.after.Some? || e.body.before.Some?)
    && e.topic == (if e.body.after.Some? then e.body.after.value.objectType else e.body.before.value.objectType)
  }

  /** The subscriber's copy after its share of the first k events. */
  function CopyAfter(held: Objects, incoming: seq<Message>, k: nat, sub: Subscription): Objects
    requires k <= |incoming|
  {
    ReplayBy((d: Delivery) => d.message, held, Routed(incoming, k, sub))
  }

  lemma CopyStep(held: Objects, incoming: seq<Message>, k: nat, sub: Subscription)
    requires k < |incoming|
    ensures CopyAfter(held, incoming, k + 1, sub) ==
            if Routes(sub, incoming[k]) then Receive(CopyAfter(held, incoming, k, sub), incoming[k])
            else CopyAfter(held, incoming, k, sub)
  {
    hide Routed, ReplayBy;
    RoutedStep(incoming, k, sub);
    ReplayBySnoc((d: Delivery) => d.message, held, Routed(incoming, k, sub), Delivery(k, incoming[k]));
  }

  lemma ReplayStep(held: Objects, incoming: seq<Message>, k: nat)
    requires k < |incoming|
    ensures Replay(held, incoming[..k + 1]) == Receive(Replay(held, incoming[..k]), incoming[k])
  {
    assert incoming[..k + 1] == incoming[..k] + [incoming[k]];
    ReplaySnoc(held, incoming[..k], incoming[k]);
  }

  /** The k-th event is not for the subscriber, but it is about an object the subscriber holds. */
  predicate TakesAway(held: Objects, incoming: seq<Message>, k: nat, sub: Subscription)
    requires k < |incoming|
  {
    !Routes(sub, incoming[k]) && EventUuid(incoming[k]) in Part(Replay(held, incoming[..k]), sub)
  }

  lemma PartStepExactlyWhen(held: Objects, e: Message, sub: Subscription)
    requires WellFormed(e)
    ensures Part(Receive(held, e), sub) ==
            (if Routes(sub, e) then Receive(Part(held, sub), e) else Part(held, sub)) <==>
            Routes(sub, e) || EventUuid(e) !in Part(held, sub)
  {
    var u, before, after := EventUuid(e), Part(held, sub), Part(Receive(held, e), sub);
    if Routes(sub, e) {
      assert after == Receive(before, e);
    } else {
      assert after == before - {u};
      assert u in before ==> u !in after;
      assert u !in before ==> before - {u} == before;
    }
  }

  ghost predicate InSync(held: Objects, incoming: seq<Message>, k: nat, sub: Subscription)
    requires k <= |incoming|
  {
    CopyAfter(Part(held, sub), incoming, k, sub) == Part(Replay(held, incoming[..k]), sub)
  }

  lemma InSyncStep(held: Objects, incoming: seq<Message>, k: nat, sub: Subscription)
    requires k < |incoming| && WellFormed(incoming[k]) && InSync(held, incoming, k, sub)
    ensures InSync(held, incoming, k + 1, sub) <==> !TakesAway(held, incoming, k, sub)
  {
    hide CopyAfter, Part, Receive, Replay, Routes, EventUuid;
    CopyStep(Part(held, sub), incoming, k, sub);
    ReplayStep(held, incoming, k);
    PartStepExactlyWhen(Replay(held, incoming[..k]), incoming[k], sub);
  }

  /**
    A subscriber that starts with its part of the directory has it after every event exactly if no
    event about an object it holds goes elsewhere, that is, if no held object changes its type to
    one outside the subscription.
   */
  lemma {:induction false} InSyncExactlyWhen(held: Objects, incoming: seq<Message>, n: nat, sub: Subscription)
    requires n <= |incoming| && forall e :: e in incoming ==> WellFormed(e)
    ensures (forall k :: 0 <= k <= n ==> InSync(held, incoming, k, sub)) <==>
            (forall k :: 0 <= k < n ==> !TakesAway(held, incoming, k, sub))
  {
    hide InSync, TakesAway;
    if n == 0 {
      SyncedAtFirst(held, incoming, sub);
    } else {
      InSyncExactlyWhen(held, incoming, n - 1, sub);
      if InSync(held, incoming, n - 1, sub) {
        InSyncStep(held, incoming, n - 1, sub);
      }
    }
  }

  lemma SyncedAtFirst(held: Objects, incoming: seq<Message>, sub: Subscription)
    ensures InSync(held, incoming, 0, sub)
  {
    assert incoming[..0] == [];
  }

  /** An object that changes from a subscribed type to another one stays in the subscriber's copy. */
  lemma TypeChangeLeavesStaleObject(sub: Subscription, obj: UdmObject, otherType: string)
    requires Wants(sub, "udm", obj.objectType) && !Wants(sub, "udm", otherType)
    ensures var changed := obj.(objectType := otherType);
            var incoming := [Message("udm", obj.objectType, Body(None, Some(obj))),
                             Message("udm", otherType, Body(Some(obj), Some(changed)))];
            && ReplicaOf(incoming) == map[obj.uuid := changed]
            && CopyAfter(map[], incoming, 2, sub) == map[obj.uuid := obj]
            && Part(ReplicaOf(incoming), sub) == map[]
  {
    var created := Message("udm", obj.objectType, Body(None, Some(obj)));
    var retyped := Message("udm", otherType, Body(Some(obj), Some(obj.(objectType := otherType))));
    var incoming := [created, retyped];
    CopyStep(map[], incoming, 0, sub);
    CopyStep(map[], incoming, 1, sub);
    ReplayStep(map[], incoming, 0);
    ReplayStep(map[], incoming, 1);
    assert incoming[..0] == [] && incoming[..2] == incoming;
  }

  // ---------- A snapshot and then the events ----------

  /** Every object has one type for as long as it exists. */
  predicate FollowsTypes(e: Message, typeOf: string -> string) {
    WellFormed(e) && e.topic == typeOf(EventUuid(e))
  }

  predicate HeldByType(held: Objects, typeOf: string -> string) {
    forall u :: u in held ==> held[u].uuid == u && held[u].objectType == typeOf(u)
  }

  /** One of the first k events is for the subscriber and about the object. */
  ghost predicate Touched(incoming: seq<Message>, k: nat, sub: Subscription, u: string) {
    exists j :: 0 <= j < k && j < |incoming| && Touches(incoming[j], sub, u)
  }

  predicate Touches(e: Message, sub: Subscription, u: string) {
    Routes(sub, e) && EventUuid(e) == u
  }

  lemma TouchedStep(incoming: seq<Message>, k: nat, sub: Subscription, u: string)
    requires k < |incoming|
    ensures Touched(incoming, k + 1, sub, u) <==> Touched(incoming, k, sub, u) || Touches(incoming[k], sub, u)
  {
  }

  lemma ReceiveAt(held: Objects, e: Message, u: string, sub: Subscription, typeOf: string -> string)
    requires FollowsTypes(e, typeOf) && HeldByType(held, typeOf)
    ensures HeldByType(Receive(held, e), typeOf)
    ensures EventUuid(e) != u ==> Lookup(Part(Receive(held, e), sub), u) == Lookup(Part(held, sub), u)
    ensures !Routes(sub, e) ==> Lookup(Part(Receive(held, e), sub), u) == Lookup(Part(held, sub), u)
    ensures EventUuid(e) == u && Routes(sub, e) ==> Lookup(Part(Receive(held, e), sub), u) == e.body.after
  {
  }

  lemma CopyAt(copy: Objects, e: Message, u: string)
    requires WellFormed(e)
    ensures Lookup(Receive(copy, e), u) == if EventUuid(e) == u then e.body.after else Lookup(copy, u)
  {
  }

  /** One object after k events: as the last event about it says, or as it was at first. */
  ghost predicate Settled(snapshot: Objects, held: Objects, incoming: seq<Message>, k: nat, sub: Subscription,
                          u: string)
    requires k <= |incoming|
  {
    var copy, part := CopyAfter(snapshot, incoming, k, sub), Part(Replay(held, incoming[..k]), sub);
    if Touched(incoming, k, sub, u) then Lookup(copy, u) == Lookup(part, u)
    else Lookup(copy, u) == Lookup(snapshot, u) && Lookup(part, u) == Lookup(Part(held, sub), u)
  }

  lemma SettledAtFirst(snapshot: Objects, held: Objects, incoming: seq<Message>, sub: Subscription, u: string)
    ensures Settled(snapshot, held, incoming, 0, sub, u) && Replay(held, incoming[..0]) == held
  {
    assert incoming[..0] == [];
  }

  lemma TypesAreWellFormed(e: Message, typeOf: string -> string)
    requires FollowsTypes(e, typeOf)
    ensures WellFormed(e)
  {
  }

  lemma {:induction false} SettledStep(snapshot: Objects, held: Objects, incoming: seq<Message>, k: nat,
                                       sub: Subscription, u: string, typeOf: string -> string)
    requires k < |incoming| && FollowsTypes(incoming[k], typeOf)
    requires HeldByType(Replay(held, incoming[..k]), typeOf) && Settled(snapshot, held, incoming, k, sub, u)
    ensures HeldByType(Replay(held, incoming[..k + 1]), typeOf) && Settled(snapshot, held, incoming, k + 1, sub, u)
  {
    hide CopyAfter, Part, Replay, Receive, HeldByType, Touched, Routes, FollowsTypes, EventUuid, Lookup, WellFormed;
    CopyStep(snapshot, incoming, k, sub);
    ReplayStep(held, incoming, k);
    TouchedStep(incoming, k, sub, u);
    ReceiveAt(Replay(held, incoming[..k]), incoming[k], u, sub, typeOf);
    TypesAreWellFormed(incoming[k], typeOf);
    CopyAt(CopyAfter(snapshot, incoming, k, sub), incoming[k], u);
  }

  lemma {:induction false} ObjectAfter(snapshot: Objects, held: Objects, incoming: seq<Message>, k: nat,
                                       sub: Subscription, u: string, typeOf: string -> string)
    requires k <= |incoming| && (forall e :: e in incoming ==> FollowsTypes(e, typeOf)) && HeldByType(held, typeOf)
    ensures HeldByType(Replay(held, incoming[..k]), typeOf) && Settled(snapshot, held, incoming, k, sub, u)
  {
    hide Settled, Replay, HeldByType, FollowsTypes;
    if k == 0 {
      SettledAtFirst(snapshot, held, incoming, sub, u);
    } else {
      ObjectAfter(snapshot, held, incoming, k - 1, sub, u, typeOf);
      SettledStep(snapshot, held, incoming, k - 1, sub, u, typeOf);
    }
  }

  lemma SameLookups(a: Objects, b: Objects)
    requires forall u :: Lookup(a, u) == Lookup(b, u)
    ensures a == b
  {
    forall u
      ensures u in a <==> u in b
      ensures u in a ==> a[u] == b[u]
    {
      assert Lookup(a, u) == Lookup(b, u);
    }
  }

  /**
    A subscriber that takes a snapshot and then folds its share of all events from some point on
    ends up with its part of the directory exactly if the snapshot is right about every object
    that none of these events is about.
   */
  lemma {:induction false} SnapshotConvergesExactlyWhen(snapshot: Objects, held: Objects, incoming: seq<Message>,
                                                        sub: Subscription, typeOf: string -> string)
    requires (forall e :: e in incoming ==> FollowsTypes(e, typeOf)) && HeldByType(held, typeOf)
    ensures CopyAfter(snapshot, incoming, |incoming|, sub) == Part(Replay(held, incoming), sub) <==>
            forall u :: !Touched(incoming, |incoming|, sub, u) ==> Lookup(snapshot, u) == Lookup(Part(held, sub), u)
  {
    hide CopyAfter, Part, Replay, Touched;
    assert incoming[..|incoming|] == incoming;
    var copy, part := CopyAfter(snapshot, incoming, |incoming|, sub), Part(Replay(held, incoming), sub);
    forall u
      ensures Lookup(copy, u) == Lookup(part, u) <==>
              (!Touched(incoming, |incoming|, sub, u) ==> Lookup(snapshot, u) == Lookup(Part(held, sub), u))
    {
      ObjectAfter(snapshot, held, incoming, |incoming|, sub, u, typeOf);
    }
    if forall u :: !Touched(incoming, |incoming|, sub, u) ==> Lookup(snapshot, u) == Lookup(Part(held, sub), u) {
      SameLookups(copy, part);
    }
  }

  // ---------- Objects that change their type ----------

  /** The last of the first n events that is about the object. */
  function LastAbout(incoming: seq<Message>, n: nat, u: string): (j: Option<nat>)
    requires n <= |incoming|
    ensures j.Some? ==> j.value < n
  {
    if n == 0 then None
    else if EventUuid(incoming[n - 1]) == u then Some(n - 1)
    else LastAbout(incoming, n - 1, u)
  }

  /** The last event about the object is for the subscriber, or the subscriber does not hold the object by then. */
  predicate LeavesWell(snapshot: Objects, incoming: seq<Message>, n: nat, sub: Subscription, u: string)
    requires n <= |incoming|
  {
    var last := LastAbout(incoming, n, u);
    last.Some? ==> Routes(sub, incoming[last.value]) || u !in CopyAfter(snapshot, incoming, last.value, sub)
  }

  /** If no event is about the object, the snapshot is right about it. */
  predicate StartsWell(snapshot: Objects, held: Objects, incoming: seq<Message>, n: nat, sub: Subscription, u: string)
    requires n <= |incoming|
  {
    LastAbout(incoming, n, u).None? ==> Lookup(snapshot, u) == Lookup(Part(held, sub), u)
  }

  lemma PartAt(held: Objects, e: Message, sub: Subscription, u: string)
    requires WellFormed(e)
    ensures Lookup(Part(Receive(held, e), sub), u) ==
            if EventUuid(e) != u then Lookup(Part(held, sub), u) else if Routes(sub, e) then e.body.after else None
  {
  }

  lemma {:induction false} ObjectSettles(snapshot: Objects, held: Objects, incoming: seq<Message>, n: nat,
                                         sub: Subscription, u: string)
    requires n <= |incoming| && forall e :: e in incoming ==> WellFormed(e)
    ensures Lookup(CopyAfter(snapshot, incoming, n, sub), u) == Lookup(Part(Replay(held, incoming[..n]), sub), u) <==>
            StartsWell(snapshot, held, incoming, n, sub, u) && LeavesWell(snapshot, incoming, n, sub, u)
  {
    hide CopyAfter, Part, Replay, Receive, Routes, WellFormed, EventUuid, Lookup;
    if n == 0 {
      NoEvents(snapshot, held, incoming, sub);
    } else {
      var e := incoming[n - 1];
      assert WellFormed(e);
      ObjectSettles(snapshot, held, incoming, n - 1, sub, u);
      CopyStep(snapshot, incoming, n - 1, sub);
      ReplayStep(held, incoming, n - 1);
      PartAt(Replay(held, incoming[..n - 1]), e, sub, u);
      CopyAt(CopyAfter(snapshot, incoming, n - 1, sub), e, u);
    }
  }

  lemma NoEvents(snapshot: Objects, held: Objects, incoming: seq<Message>, sub: Subscription)
    ensures CopyAfter(snapshot, incoming, 0, sub) == snapshot && Replay(held, incoming[..0]) == held
  {
    assert incoming[..0] == [];
  }

  /**
    Whatever types objects change to, a subscriber that takes a snapshot and then folds its share of
    the events ends up with its part of the directory exactly if the snapshot is right about every
    object that no event is about, and every object whose last event goes elsewhere is not in the
    subscriber's copy by then.
   */
  lemma {:induction false} SnapshotSettlesExactlyWhen(snapshot: Objects, held: Objects, incoming: seq<Message>,
                                                      sub: Subscription)
    requires forall e :: e in incoming ==> WellFormed(e)
    ensures CopyAfter(snapshot, incoming, |incoming|, sub) == Part(Replay(held, incoming), sub) <==>
            forall u :: && StartsWell(snapshot, held, incoming, |incoming|, sub, u)
                        && LeavesWell(snapshot, incoming, |incoming|, sub, u)
  {
    hide CopyAfter, Part, Replay, StartsWell, LeavesWell, WellFormed;
    assert incoming[..|incoming|] == incoming;
    var copy, part := CopyAfter(snapshot, incoming, |incoming|, sub), Part(Replay(held, incoming), sub);
    forall u
      ensures Lookup(copy, u) == Lookup(part, u) <==>
              && StartsWell(snapshot, held, incoming, |incoming|, sub, u)
              && LeavesWell(snapshot, incoming, |incoming|, sub, u)
    {
      ObjectSettles(snapshot, held, incoming, |incoming|, sub, u);
    }
    if forall u :: && StartsWell(snapshot, held, incoming, |incoming|, sub, u)
                   && LeavesWell(snapshot, incoming, |incoming|, sub, u) {
      SameLookups(copy, part);
    }
  }

  // ---------- A snapshot that is read while events arrive ----------

  /**
    The snapshot shows each object as it was after some number of the events, perhaps each after
    another, or one of the events is about the object.
   */
  ghost predicate ReadAlong(snapshot: Objects, held: Objects, incoming: seq<Message>, sub: Subscription) {
    forall u :: ReadSometime(snapshot, held, incoming, sub, u) || Touched(incoming, |incoming|, sub, u)
  }

  ghost predicate ReadSometime(snapshot: Objects, held: Objects, incoming: seq<Message>, sub: Subscription, u: string) {
    exists k :: 0 <= k <= |incoming| && ReadAt(snapshot, held, incoming, sub, u, k)
  }

  predicate ReadAt(snapshot: Objects, held: Objects, incoming: seq<Message>, sub: Subscription, u: string, k: nat)
    requires k <= |incoming|
  {
    Lookup(snapshot, u) == Lookup(Part(Replay(held, incoming[..k]), sub), u)
  }

  lemma TouchedEarlier(incoming: seq<Message>, k: nat, n: nat, sub: Subscription, u: string)
    requires k <= n && Touched(incoming, k, sub, u)
    ensures Touched(incoming, n, sub, u)
  {
  }

  /** The object is the same in the subscriber's part after any number of the events. */
  ghost predicate PartStays(held: Objects, incoming: seq<Message>, sub: Subscription, u: string) {
    forall k :: 0 <= k <= |incoming| ==> PartStaysAt(held, incoming, k, sub, u)
  }

  predicate PartStaysAt(held: Objects, incoming: seq<Message>, k: nat, sub: Subscription, u: string)
    requires k <= |incoming|
  {
    Lookup(Part(Replay(held, incoming[..k]), sub), u) == Lookup(Part(held, sub), u)
  }

  /** What no event for the subscriber is about stays as it was, if objects keep their types. */
  lemma Untouched(held: Objects, incoming: seq<Message>, sub: Subscription, u: string, typeOf: string -> string)
    requires (forall e :: e in incoming ==> FollowsTypes(e, typeOf)) && HeldByType(held, typeOf)
    requires !Touched(incoming, |incoming|, sub, u)
    ensures PartStays(held, incoming, sub, u)
  {
    hide CopyAfter, Part, Replay, Touched;
    forall k | 0 <= k <= |incoming|
      ensures PartStaysAt(held, incoming, k, sub, u)
    {
      ObjectAfter(map[], held, incoming, k, sub, u, typeOf);
      if Touched(incoming, k, sub, u) {
        TouchedEarlier(incoming, k, |incoming|, sub, u);
      }
    }
  }

  /** What no event at all is about stays as it was. */
  lemma {:induction false} NeverMentioned(held: Objects, incoming: seq<Message>, n: nat, sub: Subscription, u: string)
    requires n <= |incoming| && (forall e :: e in incoming ==> WellFormed(e)) && LastAbout(incoming, n, u).None?
    ensures forall k :: 0 <= k <= n ==> PartStaysAt(held, incoming, k, sub, u)
  {
    hide Part, Replay, Receive, WellFormed;
    if n == 0 {
      StaysAtFirst(held, incoming, sub, u);
    } else {
      NeverMentioned(held, incoming, n - 1, sub, u);
      assert PartStaysAt(held, incoming, n - 1, sub, u);
      assert WellFormed(incoming[n - 1]);
      ReplayStep(held, incoming, n - 1);
      PartAt(Replay(held, incoming[..n - 1]), incoming[n - 1], sub, u);
    }
  }

  lemma StaysAtFirst(held: Objects, incoming: seq<Message>, sub: Subscription, u: string)
    ensures PartStaysAt(held, incoming, 0, sub, u)
  {
    assert incoming[..0] == [];
  }

  /** A snapshot whose objects are read at different times, none before the first event, is good enough. */
  lemma {:induction false} SnapshotWhileEventsArrive(snapshot: Objects, held: Objects,
                                                     incoming: seq<Message>, sub: Subscription,
                                                     typeOf: string -> string)
    requires (forall e :: e in incoming ==> FollowsTypes(e, typeOf)) && HeldByType(held, typeOf)
    requires ReadAlong(snapshot, held, incoming, sub)
    ensures CopyAfter(snapshot, incoming, |incoming|, sub) == Part(Replay(held, incoming), sub)
  {
    hide CopyAfter, Part, Replay, Touched;
    SnapshotConvergesExactlyWhen(snapshot, held, incoming, sub, typeOf);
    forall u | !Touched(incoming, |incoming|, sub, u)
      ensures Lookup(snapshot, u) == Lookup(Part(held, sub), u)
    {
      assert ReadSometime(snapshot, held, incoming, sub, u);
      var k :| 0 <= k <= |incoming| && ReadAt(snapshot, held, incoming, sub, u, k);
      Untouched(held, incoming, sub, u, typeOf);
      assert PartStaysAt(held, incoming, k, sub, u);
    }
  }
}
