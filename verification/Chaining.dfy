/**
  How an event's old side relates to what a consumer holds: the old-object cache stands for a
  scan of the event log. ldap_to_udm is taken to represent every entry it does not raise on.
 */
module Chaining {
  import opened Models
  import opened Sequences
  import opened Replica
  import opened Transformer
  import opened Convergence

  ghost predicate Total(t: Transform) {
    forall e :: !t(e).Untransformable?
  }

  /** The old side is what a consumer of all earlier events holds for the object. */
  predicate Chained(e: Message, held: Objects) {
    e.body.before == Lookup(held, EventUuid(e))
  }

  /** What redelivery after a crash can make of it: two equal sides, or an event that changes nothing. */
  predicate RedeliveryTrace(e: Message, held: Objects) {
    e.body.before == e.body.after || Receive(held, e) == held
  }

  ghost predicate AllChained(events: seq<Message>, crashes: bool) {
    forall i :: 0 <= i < |events| ==> ChainedAt(events, i, crashes)
  }

  /** The i-th event is chained to the events before it, or (if there may be crashes) it shows a redelivery. */
  predicate ChainedAt(events: seq<Message>, i: nat, crashes: bool)
    requires i < |events|
  {
    var held := ReplicaOf(events[..i]);
    Chained(events[i], held) || (crashes && RedeliveryTrace(events[i], held))
  }

  lemma AppendChained(events: seq<Message>, longer: seq<Message>, crashes: bool)
    requires AllChained(events, crashes)
    requires || longer == events
             || (&& longer != [] && DropLast(longer) == events
                 && ChainedAt(longer, |longer| - 1, crashes))
    ensures AllChained(longer, crashes)
  {
    hide ReplicaOf, Chained, RedeliveryTrace;
    forall i | 0 <= i < |longer|
      ensures ChainedAt(longer, i, crashes)
    {
      if i < |events| {
        assert longer[..i] == events[..i] && longer[i] == events[i];
        assert ChainedAt(events, i, crashes);
      }
    }
  }

  predicate Agrees(cache: Objects, view: Objects) {
    forall u :: u in view ==> u in cache && cache[u] == view[u]
  }

  /** The view after the change in progress, if there is one. */
  function NextView(p: Pipeline, changes: seq<Change>, t: Transform): Objects
    requires p.acked <= |changes|
  {
    View(if p.acked < |changes| then changes[..p.acked + 1] else changes[..p.acked], t)
  }

  ghost predicate CacheTracks(p: Pipeline, changes: seq<Change>, t: Transform) {
    && Invariant(p, changes, t)
    && View(changes[..p.acked], t).Keys == DirectoryAfter(changes[..p.acked]).Keys
    && Between(p.world.cache, View(changes[..p.acked], t), NextView(p, changes, t))
    && (Caught(p, changes, t) || Agrees(p.world.cache, NextView(p, changes, t)))
  }

  /** Every cached object of the view is as in the view or as in the next one. */
  predicate Between(cache: Objects, now: Objects, next: Objects) {
    forall u :: u in now ==>
      u in cache && (cache[u] == now[u] || (u in next && cache[u] == next[u]))
  }

  lemma StoreTracks(w: World, changes: seq<Change>, k: nat, t: Transform)
    requires ValidLog(changes) && k < |changes| && KeepsUuids(t) && Total(t)
    requires var now, next := View(changes[..k], t), View(changes[..k + 1], t);
             now.Keys == DirectoryAfter(changes[..k]).Keys && Between(w.cache, now, next)
    requires !TransformRaises(changes[k], t)
    ensures var now, next := View(changes[..k], t), View(changes[..k + 1], t);
            var cache := StoreNew(w, NewOf(changes[k], t)).cache;
            && Between(cache, now, next)
            && Agrees(cache, next)
            && next.Keys == DirectoryAfter(changes[..k + 1]).Keys
  {
    assert ValidAt(changes, k);
    ViewStep(changes, k, t);
    assert DropLast(changes[..k + 1]) == changes[..k];
  }

  lemma {:induction false} DeliverKeepsTrack(p: Pipeline, changes: seq<Change>, t: Transform, budget: nat)
    requires ValidLog(changes) && KeepsUuids(t) && NamesTypes(t) && Total(t)
    requires CacheTracks(p, changes, t)
    ensures CacheTracks(Deliver(p, changes, t, budget), changes, t)
    ensures var p' := Deliver(p, changes, t, budget);
            p'.acked > p.acked ==> Agrees(p'.world.cache, View(changes[..p'.acked], t))
  {
    hide View, Attempt, ReplicaOf, DirectoryAfter, Agrees, Between, Completes, CallCount, CacheKeyed, CacheTyped;
    DeliverKeepsInvariant(p, changes, t, budget);
    if p.acked < |changes| {
      var p' := Deliver(p, changes, t, budget);
      AttemptTracks(p, changes, t, budget);
      if p'.acked > p.acked {
        AgreementIsBetween(p'.world.cache, View(changes[..p'.acked], t), NextView(p', changes, t));
      }
    }
  }

  lemma AttemptTracks(p: Pipeline, changes: seq<Change>, t: Transform, budget: nat)
    requires ValidLog(changes) && KeepsUuids(t) && Total(t)
    requires CacheTracks(p, changes, t) && p.acked < |changes|
    ensures var c, now, next := changes[p.acked], View(changes[..p.acked], t), View(changes[..p.acked + 1], t);
            var w := Attempt(p.world, c, t, budget);
            && Between(w.cache, now, next)
            && (w == p.world || Agrees(w.cache, next))
            && (Completes(p.world, c, t, budget) ==>
                  Agrees(w.cache, next) && next.Keys == DirectoryAfter(changes[..p.acked + 1]).Keys)
  {
    var c := changes[p.acked];
    var event := EventOf(NewOf(c, t), OldOf(c, p.world.cache));
    AttemptOutcomes(p.world, c, t, budget);
    StoreAndSendFrame(p.world, NewOf(c, t), event);
    if TransformRaises(c, t) {
      RaisesStoresNothing(p.world, c, t, budget);
    } else {
      StoreTracks(p.world, changes, p.acked, t);
    }
  }

  lemma RaisesStoresNothing(w: World, c: Change, t: Transform, budget: nat)
    requires TransformRaises(c, t)
    ensures Attempt(w, c, t, budget) == w
  {
  }

  lemma AgreementIsBetween(cache: Objects, now: Objects, next: Objects)
    requires Agrees(cache, now)
    ensures Between(cache, now, next)
  {
  }

  lemma {:induction false} NewEventIsHonest(p: Pipeline, changes: seq<Change>, t: Transform, budget: nat)
    requires ValidLog(changes) && KeepsUuids(t) && NamesTypes(t) && Total(t)
    requires CacheTracks(p, changes, t) && p.acked < |changes|
    ensures var events := Deliver(p, changes, t, budget).world.events;
            || events == p.world.events
            || (&& events != [] && DropLast(events) == p.world.events
                && ChainedAt(events, |events| - 1, true)
                && (Caught(p, changes, t) && Agrees(p.world.cache, View(changes[..p.acked], t))
                    ==> ChainedAt(events, |events| - 1, false)))
  {
    var c := changes[p.acked];
    var event := EventOf(NewOf(c, t), OldOf(c, p.world.cache));
    AttemptOutcomes(p.world, c, t, budget);
    if event.Some? {
      assert DropLast(p.world.events + [event.value]) == p.world.events;
      EventIsHonest(p, changes, t);
    }
  }

  /** The event of the change in progress, against what a consumer holds when it is sent. */
  lemma EventIsHonest(p: Pipeline, changes: seq<Change>, t: Transform)
    requires ValidLog(changes) && KeepsUuids(t) && NamesTypes(t) && Total(t)
    requires CacheTracks(p, changes, t) && p.acked < |changes|
    requires EventOf(NewOf(changes[p.acked], t), OldOf(changes[p.acked], p.world.cache)).Some?
    ensures var held := ReplicaOf(p.world.events);
            var e := EventOf(NewOf(changes[p.acked], t), OldOf(changes[p.acked], p.world.cache)).value;
            && (Chained(e, held) || RedeliveryTrace(e, held))
            && (Caught(p, changes, t) && Agrees(p.world.cache, View(changes[..p.acked], t)) ==> Chained(e, held))
  {
    var c := changes[p.acked];
    EventReachesNextView(p.world, changes, p.acked, t);
    ViewStep(changes, p.acked, t);
    assert ValidAt(changes, p.acked);
    hide View, ReplicaOf, DirectoryAfter;
    var u := UuidOf(c);
    if Caught(p, changes, t) {
      assert c.before.Some? <==> u in View(changes[..p.acked], t);
    }
  }

  lemma NothingLeft(p: Pipeline, changes: seq<Change>, t: Transform, budget: nat)
    requires p.acked >= |changes|
    ensures Deliver(p, changes, t, budget) == p
  {
  }

  /** Under any crashes an event's old side is what consumers hold, or betrays a redelivery. */
  lemma {:induction false} OldSideUnderCrashes(changes: seq<Change>, t: Transform, budgets: seq<nat>)
    requires ValidLog(changes) && KeepsUuids(t) && NamesTypes(t) && Total(t)
    ensures var p := Deliveries(changes, t, budgets);
            CacheTracks(p, changes, t) && AllChained(p.world.events, true)
  {
    if budgets != [] {
      var p := Deliveries(changes, t, DropLast(budgets));
      OldSideUnderCrashes(changes, t, DropLast(budgets));
      DeliverKeepsTrack(p, changes, t, Last(budgets));
      hide Deliver, CacheTracks, ChainedAt, AllChained;
      if p.acked < |changes| {
        NewEventIsHonest(p, changes, t, Last(budgets));
      } else {
        NothingLeft(p, changes, t, Last(budgets));
      }
      AppendChained(p.world.events, Deliveries(changes, t, budgets).world.events, true);
    }
  }

  /** The i-th delivery is completed and acknowledged, if there are changes left. */
  predicate Advances(changes: seq<Change>, t: Transform, budgets: seq<nat>, i: nat)
    requires i < |budgets|
  {
    var p := Deliveries(changes, t, budgets[..i]);
    p.acked < |changes| ==> Deliver(p, changes, t, budgets[i]).acked > p.acked
  }

  ghost predicate CrashFree(changes: seq<Change>, t: Transform, budgets: seq<nat>) {
    forall i :: 0 <= i < |budgets| ==> Advances(changes, t, budgets, i)
  }

  lemma CrashFreeSoFar(changes: seq<Change>, t: Transform, budgets: seq<nat>)
    requires budgets != [] && CrashFree(changes, t, budgets)
    ensures CrashFree(changes, t, DropLast(budgets))
    ensures var p := Deliveries(changes, t, DropLast(budgets));
            p.acked < |changes| ==> Deliver(p, changes, t, Last(budgets)).acked > p.acked
  {
    hide Deliver, Deliveries;
    var init := DropLast(budgets);
    assert Advances(changes, t, budgets, |budgets| - 1);
    forall i | 0 <= i < |init|
      ensures Advances(changes, t, init, i)
    {
      assert init[..i] == budgets[..i] && init[i] == budgets[i];
      assert Advances(changes, t, budgets, i);
    }
  }

  /** Without crashes every event's old side is exactly what consumers hold at that point. */
  lemma {:induction false} OldSideWithoutCrashes(changes: seq<Change>, t: Transform, budgets: seq<nat>)
    requires ValidLog(changes) && KeepsUuids(t) && NamesTypes(t) && Total(t)
    requires CrashFree(changes, t, budgets)
    ensures var p := Deliveries(changes, t, budgets);
            && CacheTracks(p, changes, t) && Caught(p, changes, t)
            && Agrees(p.world.cache, View(changes[..p.acked], t))
            && AllChained(p.world.events, false)
  {
    if budgets != [] {
      var p, budget := Deliveries(changes, t, DropLast(budgets)), Last(budgets);
      CrashFreeSoFar(changes, t, budgets);
      OldSideWithoutCrashes(changes, t, DropLast(budgets));
      DeliverKeepsInvariant(p, changes, t, budget);
      DeliverKeepsTrack(p, changes, t, budget);
      hide Deliver, ChainedAt, AllChained, View, Agrees, ReplicaOf, CrashFree;
      if p.acked < |changes| {
        NewEventIsHonest(p, changes, t, budget);
      } else {
        NothingLeft(p, changes, t, budget);
      }
      AppendChained(p.world.events, Deliveries(changes, t, budgets).world.events, false);
    }
  }
}
