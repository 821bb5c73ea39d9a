/**
  What the transformer is for: whatever crashes happen, a consumer that replays the emitted
  events holds the directory as ldap_to_udm represents it.
 */
module Convergence {
  import opened Models
  import opened Sequences
  import opened Replica
  import opened Transformer

  type Directory = map<string, LdapEntry>

  function UuidOf(c: Change): string {
    if c.after.Some? then c.after.value.entryUUID
    else if c.before.Some? then c.before.value.entryUUID else ""
  }

  /** `c` is a create, modify or delete of the directory `d`. */
  predicate ValidChange(c: Change, d: Directory) {
    && (c.before.Some? || c.after.Some?)
    && c.before == Lookup(d, UuidOf(c))
    && (c.before.Some? ==> c.before.value.entryUUID == UuidOf(c))
  }

  function DirectoryAfter(changes: seq<Change>): Directory {
    if changes == [] then map[]
    else
      var c := Last(changes);
      if c.after.Some? then DirectoryAfter(DropLast(changes))[UuidOf(c) := c.after.value]
      else DirectoryAfter(DropLast(changes)) - {UuidOf(c)}
  }

  predicate ValidAt(changes: seq<Change>, k: nat)
    requires k < |changes|
  {
    ValidChange(changes[k], DirectoryAfter(changes[..k]))
  }

  ghost predicate ValidLog(changes: seq<Change>) {
    forall k :: 0 <= k < |changes| ==> ValidAt(changes, k)
  }

  /** The directory as ldap_to_udm represents it; entries it cannot represent are not part of it. */
  function View(changes: seq<Change>, t: Transform): Objects {
    var d := DirectoryAfter(changes);
    map u | u in d && t(d[u]).Representation? :: t(d[u]).obj
  }

  ghost predicate KeepsUuids(t: Transform) {
    forall e :: t(e).Representation? ==> t(e).obj.uuid == e.entryUUID
  }

  ghost predicate NamesTypes(t: Transform) {
    forall e :: t(e).Representation? ==> t(e).obj.objectType != ""
  }

  predicate CacheKeyed(cache: Objects) {
    forall u :: u in cache ==> cache[u].uuid == u
  }

  predicate CacheTyped(cache: Objects) {
    forall u :: u in cache ==> cache[u].objectType != ""
  }

  lemma ViewStep(changes: seq<Change>, k: nat, t: Transform)
    requires ValidLog(changes) && k < |changes|
    ensures View(changes[..k + 1], t) ==
            match NewOf(changes[k], t)
            case Some(obj) => View(changes[..k], t)[UuidOf(changes[k]) := obj]
            case None => View(changes[..k], t) - {UuidOf(changes[k])}
  {
    assert DropLast(changes[..k + 1]) == changes[..k];
  }

  // ---------- One attempt ----------

  /** Sending the event of the change brings either view to the later one. */
  lemma EventReachesNextView(w: World, changes: seq<Change>, k: nat, t: Transform)
    requires ValidLog(changes) && k < |changes| && KeepsUuids(t)
    requires CacheKeyed(w.cache) && View(changes[..k], t).Keys <= w.cache.Keys
    ensures var event := EventOf(NewOf(changes[k], t), OldOf(changes[k], w.cache));
            var now, next := View(changes[..k], t), View(changes[..k + 1], t);
            event.Some? ==> Receive(now, event.value) == next && Receive(next, event.value) == next
  {
    ViewStep(changes, k, t);
    assert ValidAt(changes, k);
  }

  lemma SameViewExactlyWhen(changes: seq<Change>, k: nat, t: Transform)
    requires ValidLog(changes) && k < |changes|
    ensures View(changes[..k], t) == View(changes[..k + 1], t) <==>
            Lookup(View(changes[..k], t), UuidOf(changes[k])) == NewOf(changes[k], t)
  {
    var now, next, u := View(changes[..k], t), View(changes[..k + 1], t), UuidOf(changes[k]);
    ViewStep(changes, k, t);
    assert Lookup(next, u) == NewOf(changes[k], t);
    if Lookup(now, u) == NewOf(changes[k], t) {
      assert now.Keys == next.Keys;
    }
  }

  lemma NoEventNoChange(w: World, changes: seq<Change>, k: nat, t: Transform)
    requires ValidLog(changes) && k < |changes| && NamesTypes(t)
    requires CacheTyped(w.cache) && View(changes[..k], t).Keys <= w.cache.Keys
    requires EventOf(NewOf(changes[k], t), OldOf(changes[k], w.cache)).None?
    ensures View(changes[..k], t) == View(changes[..k + 1], t)
  {
    SameViewExactlyWhen(changes, k, t);
    assert ValidAt(changes, k);
  }

  ghost predicate Invariant(p: Pipeline, changes: seq<Change>, t: Transform) {
    && p.acked <= |changes|
    && CacheKeyed(p.world.cache)
    && CacheTyped(p.world.cache)
    && View(changes[..p.acked], t).Keys <= p.world.cache.Keys
    && (|| Caught(p, changes, t)
        || (p.acked < |changes| && ReplicaOf(p.world.events) == View(changes[..p.acked + 1], t)))
  }

  /** The replica shows exactly the acknowledged changes. */
  ghost predicate Caught(p: Pipeline, changes: seq<Change>, t: Transform)
    requires p.acked <= |changes|
  {
    ReplicaOf(p.world.events) == View(changes[..p.acked], t)
  }

  lemma AttemptOutcomes(w: World, c: Change, t: Transform, budget: nat)
    ensures var stored := StoreNew(w, NewOf(c, t));
            var sent := SendNew(stored, EventOf(NewOf(c, t), OldOf(c, w.cache)));
            && Attempt(w, c, t, budget) in {w, stored, sent}
            && (Completes(w, c, t, budget) ==> Attempt(w, c, t, budget) == sent)
  {
  }

  lemma StoreKeepsCache(w: World, c: Change, t: Transform)
    requires KeepsUuids(t) && NamesTypes(t) && CacheKeyed(w.cache) && CacheTyped(w.cache)
    ensures var cache := StoreNew(w, NewOf(c, t)).cache;
            CacheKeyed(cache) && CacheTyped(cache) && w.cache.Keys <= cache.Keys
            && (NewOf(c, t).Some? ==> UuidOf(c) in cache)
  {
  }

  lemma NextViewKeys(changes: seq<Change>, k: nat, t: Transform)
    requires ValidLog(changes) && k < |changes|
    ensures var now, next := View(changes[..k], t), View(changes[..k + 1], t);
            next.Keys <= now.Keys + if NewOf(changes[k], t).Some? then {UuidOf(changes[k])} else {}
  {
    ViewStep(changes, k, t);
  }

  lemma SendReplays(w: World, event: Option<Message>)
    ensures ReplicaOf(SendNew(w, event).events) ==
            if event.Some? then Receive(ReplicaOf(w.events), event.value) else ReplicaOf(w.events)
  {
    if event.Some? {
      ReplaySnoc(map[], w.events, event.value);
    }
  }

  /** Whatever an attempt gets to, the replica shows the view before the change or the one after it. */
  lemma AttemptMovesReplica(w: World, changes: seq<Change>, k: nat, t: Transform, budget: nat)
    requires ValidLog(changes) && k < |changes| && KeepsUuids(t) && NamesTypes(t)
    requires CacheKeyed(w.cache) && CacheTyped(w.cache) && View(changes[..k], t).Keys <= w.cache.Keys
    requires ReplicaOf(w.events) in {View(changes[..k], t), View(changes[..k + 1], t)}
    ensures var now, next := View(changes[..k], t), View(changes[..k + 1], t);
            var w' := Attempt(w, changes[k], t, budget);
            && CacheKeyed(w'.cache) && CacheTyped(w'.cache) && now.Keys <= w'.cache.Keys
            && ReplicaOf(w'.events) in {now, next}
            && (Completes(w, changes[k], t, budget) ==> ReplicaOf(w'.events) == next && next.Keys <= w'.cache.Keys)
  {
    hide View, EventOf, StoreNew, SendNew, Attempt, ReplicaOf, Completes, CallCount, CacheKeyed, CacheTyped, Receive;
    var c := changes[k];
    var event := EventOf(NewOf(c, t), OldOf(c, w.cache));
    var stored := StoreNew(w, NewOf(c, t));
    AttemptOutcomes(w, c, t, budget);
    StoreKeepsCache(w, c, t);
    StoreAndSendFrame(w, NewOf(c, t), event);
    NextViewKeys(changes, k, t);
    SendReplays(stored, event);
    if event.None? {
      NoEventNoChange(w, changes, k, t);
    } else {
      EventReachesNextView(w, changes, k, t);
    }
  }

  lemma DeliverKeepsInvariant(p: Pipeline, changes: seq<Change>, t: Transform, budget: nat)
    requires ValidLog(changes) && KeepsUuids(t) && NamesTypes(t) && Invariant(p, changes, t)
    ensures var p' := Deliver(p, changes, t, budget);
            && Invariant(p', changes, t)
            && (p'.acked > p.acked ==> Caught(p', changes, t))
  {
    hide View, Attempt, ReplicaOf, Completes, CallCount, CacheKeyed, CacheTyped, ValidLog;
    if p.acked < |changes| {
      AttemptMovesReplica(p.world, changes, p.acked, t, budget);
    }
  }

  lemma StoreAndSendFrame(w: World, after: Option<UdmObject>, event: Option<Message>)
    ensures StoreNew(w, after).events == w.events
    ensures SendNew(StoreNew(w, after), event).cache == StoreNew(w, after).cache
  {
  }

  // ---------- Every run ----------

  /**
    Over any sequence of deliveries, each cut off after any number of port calls, the replica
    shows the acknowledged changes plus at most the one in progress, and exactly the
    acknowledged ones whenever a delivery ends in an acknowledgement.
   */
  lemma {:induction false} ConvergesUnderCrashes(changes: seq<Change>, t: Transform, budgets: seq<nat>)
    requires ValidLog(changes) && KeepsUuids(t) && NamesTypes(t)
    ensures var p := Deliveries(changes, t, budgets);
            && Invariant(p, changes, t)
            && (budgets != [] && p.acked > Deliveries(changes, t, DropLast(budgets)).acked ==> Caught(p, changes, t))
  {
    if budgets != [] {
      ConvergesUnderCrashes(changes, t, DropLast(budgets));
      DeliverKeepsInvariant(Deliveries(changes, t, DropLast(budgets)), changes, t, Last(budgets));
    }
  }

  /** Once the whole queue is acknowledged the replica is the directory. */
  lemma ConvergesAtTheEnd(changes: seq<Change>, t: Transform, budgets: seq<nat>)
    requires ValidLog(changes) && KeepsUuids(t) && NamesTypes(t)
    requires Deliveries(changes, t, budgets).acked == |changes|
    ensures ReplicaOf(Deliveries(changes, t, budgets).world.events) == View(changes, t)
  {
    ConvergesUnderCrashes(changes, t, budgets);
    assert changes[..|changes|] == changes;
  }

  // ---------- The queue behind a change that raises ----------

  /** ldap_to_udm raises on none of the first n changes. */
  predicate NoneRaises(changes: seq<Change>, t: Transform, n: nat)
    requires n <= |changes|
  {
    forall k :: 0 <= k < n ==> !TransformRaises(changes[k], t)
  }

  lemma {:induction false} StuckBehindRaising(changes: seq<Change>, t: Transform, budgets: seq<nat>)
    ensures var p := Deliveries(changes, t, budgets);
            p.acked <= |changes| && NoneRaises(changes, t, p.acked)
  {
    if budgets != [] {
      StuckBehindRaising(changes, t, DropLast(budgets));
    }
  }

  lemma {:induction false} AllTransformed(changes: seq<Change>, t: Transform, n: nat) returns (budgets: seq<nat>)
    requires n <= |changes| && NoneRaises(changes, t, n)
    ensures Deliveries(changes, t, budgets).acked == n
  {
    budgets := [];
    if n > 0 {
      var before := AllTransformed(changes, t, n - 1);
      budgets := before + [4];
      assert DropLast(budgets) == before;
    }
  }

  /** The first n LDAP changes can all be acknowledged exactly if ldap_to_udm raises on none of them. */
  lemma {:induction false} QueueAdvancesExactlyWhen(changes: seq<Change>, t: Transform, n: nat)
    requires n <= |changes|
    ensures (exists budgets :: Deliveries(changes, t, budgets).acked >= n) <==> NoneRaises(changes, t, n)
  {
    if budgets :| Deliveries(changes, t, budgets).acked >= n {
      StuckBehindRaising(changes, t, budgets);
    }
    if NoneRaises(changes, t, n) {
      var budgets := AllTransformed(changes, t, n);
    }
  }

  // ---------- Objects without a type ----------

  function TopicOf(after: Option<UdmObject>, before: Option<UdmObject>): string {
    if after.Some? then after.value.objectType else if before.Some? then before.value.objectType else ""
  }

  /**
    Without the assumption on object types, a completed delivery keeps the replica up to date
    exactly when the object that names the topic has a type or the change leaves the
    representation as it was.
   */
  lemma CompletedDeliveryConvergesExactlyWhen(p: Pipeline, changes: seq<Change>, t: Transform, budget: nat)
    requires ValidLog(changes) && KeepsUuids(t)
    requires p.acked < |changes| && Caught(p, changes, t)
    requires CacheKeyed(p.world.cache) && View(changes[..p.acked], t).Keys <= p.world.cache.Keys
    requires Deliver(p, changes, t, budget).acked > p.acked
    ensures var c := changes[p.acked];
            Caught(Deliver(p, changes, t, budget), changes, t) <==>
            || TopicOf(NewOf(c, t), OldOf(c, p.world.cache)) != ""
            || Lookup(View(changes[..p.acked], t), UuidOf(c)) == NewOf(c, t)
  {
    hide View, ReplicaOf, Receive, StoreNew, SendNew, Attempt, Completes, CallCount, ValidLog, CacheKeyed;
    var c := changes[p.acked];
    var event := EventOf(NewOf(c, t), OldOf(c, p.world.cache));
    EventReachesNextView(p.world, changes, p.acked, t);
    SameViewExactlyWhen(changes, p.acked, t);
    AttemptOutcomes(p.world, c, t, budget);
    StoreAndSendFrame(p.world, NewOf(c, t), event);
    SendReplays(StoreNew(p.world, NewOf(c, t)), event);
    assert event.Some? <==> TopicOf(NewOf(c, t), OldOf(c, p.world.cache)) != "";
  }
}
