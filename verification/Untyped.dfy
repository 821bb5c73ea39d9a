/** Convergence without the assumption that every object has a type: exactly which changes must name a topic. */
module Untyped {
  import opened Models
  import opened Sequences
  import opened Replica
  import opened Transformer
  import opened Convergence

  // ---------- The cache is a function of the log ----------

  function StoreOn(cache: Objects, after: Option<UdmObject>): Objects {
    if after.Some? then cache[after.value.uuid := after.value] else cache
  }

  /** The old-object cache after the changes: every object as it was last represented, deleted or not. */
  function CacheAfter(changes: seq<Change>, t: Transform): Objects {
    if changes == [] then map[] else StoreOn(CacheAfter(DropLast(changes), t), NewOf(Last(changes), t))
  }

  lemma CacheStep(changes: seq<Change>, k: nat, t: Transform)
    requires k < |changes|
    ensures CacheAfter(changes[..k + 1], t) == StoreOn(CacheAfter(changes[..k], t), NewOf(changes[k], t))
  {
    assert DropLast(changes[..k + 1]) == changes[..k];
  }

  lemma {:induction false} CacheCoversView(changes: seq<Change>, k: nat, t: Transform)
    requires ValidLog(changes) && KeepsUuids(t) && k <= |changes|
    ensures var cache := CacheAfter(changes[..k], t);
            CacheKeyed(cache) && View(changes[..k], t).Keys <= cache.Keys
  {
    if k > 0 {
      CacheCoversView(changes, k - 1, t);
      CacheStep(changes, k - 1, t);
      hide View, CacheAfter;
      NextViewKeys(changes, k - 1, t);
    } else {
      assert changes[..0] == [];
    }
  }

  /** The topic the k-th change is sent under; there is none if it is empty. */
  function TopicAt(changes: seq<Change>, k: nat, t: Transform): string
    requires k < |changes|
  {
    TopicOf(NewOf(changes[k], t), OldOf(changes[k], CacheAfter(changes[..k], t)))
  }

  /** The k-th change names a topic or leaves the representation as it was. */
  predicate KeepsUp(changes: seq<Change>, k: nat, t: Transform)
    requires k < |changes|
  {
    TopicAt(changes, k, t) != "" || Lookup(View(changes[..k], t), UuidOf(changes[k])) == NewOf(changes[k], t)
  }

  // ---------- One attempt ----------

  /** The cache while the k-th change is in progress. */
  predicate CacheInProgress(cache: Objects, changes: seq<Change>, k: nat, t: Transform)
    requires k < |changes|
  {
    cache == CacheAfter(changes[..k], t) || cache == CacheAfter(changes[..k + 1], t)
  }

  /** The view before the change or, if it can be sent at all, the one after it. */
  predicate ReplicaInProgress(held: Objects, changes: seq<Change>, k: nat, t: Transform)
    requires k < |changes|
  {
    || held == View(changes[..k], t)
    || (held == View(changes[..k + 1], t) && TopicAt(changes, k, t) != "")
  }

  lemma CacheWhileInProgress(cache: Objects, changes: seq<Change>, k: nat, t: Transform)
    requires ValidLog(changes) && KeepsUuids(t) && k < |changes| && CacheInProgress(cache, changes, k, t)
    ensures CacheKeyed(cache) && View(changes[..k], t).Keys <= cache.Keys
    ensures TopicOf(NewOf(changes[k], t), OldOf(changes[k], cache)) == TopicAt(changes, k, t)
    ensures StoreOn(cache, NewOf(changes[k], t)) == CacheAfter(changes[..k + 1], t)
  {
    hide View, CacheAfter;
    CacheCoversView(changes, k, t);
    CacheStep(changes, k, t);
  }

  lemma StoreIsStoreOn(w: World, after: Option<UdmObject>)
    ensures StoreNew(w, after) == World(StoreOn(w.cache, after), w.events)
  {
  }

  lemma AttemptWithoutTypes(w: World, changes: seq<Change>, k: nat, t: Transform, budget: nat)
    requires ValidLog(changes) && KeepsUuids(t) && k < |changes|
    requires CacheInProgress(w.cache, changes, k, t) && ReplicaInProgress(ReplicaOf(w.events), changes, k, t)
    ensures var w' := Attempt(w, changes[k], t, budget);
            && CacheInProgress(w'.cache, changes, k, t)
            && ReplicaInProgress(ReplicaOf(w'.events), changes, k, t)
            && (Completes(w, changes[k], t, budget) ==>
                  && w'.cache == CacheAfter(changes[..k + 1], t)
                  && (ReplicaOf(w'.events) == View(changes[..k + 1], t) <==> KeepsUp(changes, k, t)))
  {
    hide View, CacheAfter, ReplicaOf, Receive, StoreNew, SendNew, Attempt, Completes, CallCount, ValidLog, CacheKeyed,
         StoreOn, TopicAt;
    var c := changes[k];
    var event := EventOf(NewOf(c, t), OldOf(c, w.cache));
    CacheWhileInProgress(w.cache, changes, k, t);
    AttemptOutcomes(w, c, t, budget);
    StoreIsStoreOn(w, NewOf(c, t));
    StoreAndSendFrame(w, NewOf(c, t), event);
    SendReplays(StoreNew(w, NewOf(c, t)), event);
    EventReachesNextView(w, changes, k, t);
    SameViewExactlyWhen(changes, k, t);
    assert event.Some? <==> TopicAt(changes, k, t) != "";
  }

  // ---------- Every run ----------

  /** Every one of the first n changes keeps the replica up to date. */
  ghost predicate AllKeepUp(changes: seq<Change>, n: nat, t: Transform)
    requires n <= |changes|
  {
    forall k :: 0 <= k < n ==> KeepsUp(changes, k, t)
  }

  /** If the i-th delivery ends in an acknowledgement the replica shows exactly the acknowledged changes. */
  ghost predicate RightAt(changes: seq<Change>, t: Transform, budgets: seq<nat>, i: nat)
    requires i < |budgets|
  {
    var p, p' := Deliveries(changes, t, budgets[..i]), Deliveries(changes, t, budgets[..i + 1]);
    p'.acked > p.acked ==> p'.acked <= |changes| && Caught(p', changes, t)
  }

  ghost predicate RightAtEveryAck(changes: seq<Change>, t: Transform, budgets: seq<nat>) {
    forall i :: 0 <= i < |budgets| ==> RightAt(changes, t, budgets, i)
  }

  lemma RightAtEveryAckStep(changes: seq<Change>, t: Transform, budgets: seq<nat>)
    requires budgets != []
    ensures RightAtEveryAck(changes, t, budgets) <==>
            && RightAtEveryAck(changes, t, DropLast(budgets))
            && (var p, p' := Deliveries(changes, t, DropLast(budgets)), Deliveries(changes, t, budgets);
                p'.acked > p.acked ==> p'.acked <= |changes| && Caught(p', changes, t))
  {
    hide Deliveries, Caught;
    var init := DropLast(budgets);
    assert budgets[..|budgets| - 1] == init && budgets[..|budgets|] == budgets;
    forall i | 0 <= i < |init|
      ensures RightAt(changes, t, init, i) <==> RightAt(changes, t, budgets, i)
    {
      assert init[..i] == budgets[..i] && init[..i + 1] == budgets[..i + 1];
    }
    assert RightAt(changes, t, budgets, |budgets| - 1) <==>
             (var p, p' := Deliveries(changes, t, init), Deliveries(changes, t, budgets);
              p'.acked > p.acked ==> p'.acked <= |changes| && Caught(p', changes, t));
  }

  /** The cache, and the replica as long as all acknowledged changes kept it up to date. */
  ghost predicate UntypedInvariant(p: Pipeline, changes: seq<Change>, t: Transform) {
    && p.acked <= |changes|
    && (if p.acked < |changes| then CacheInProgress(p.world.cache, changes, p.acked, t)
        else p.world.cache == CacheAfter(changes, t))
    && (AllKeepUp(changes, p.acked, t) ==>
          if p.acked < |changes| then ReplicaInProgress(ReplicaOf(p.world.events), changes, p.acked, t)
          else ReplicaOf(p.world.events) == View(changes, t))
  }

  lemma AttemptKeepsCache(w: World, changes: seq<Change>, k: nat, t: Transform, budget: nat)
    requires ValidLog(changes) && KeepsUuids(t) && k < |changes| && CacheInProgress(w.cache, changes, k, t)
    ensures var w' := Attempt(w, changes[k], t, budget);
            && CacheInProgress(w'.cache, changes, k, t)
            && (Completes(w, changes[k], t, budget) ==> w'.cache == CacheAfter(changes[..k + 1], t))
  {
    hide View, CacheAfter, StoreNew, SendNew, Attempt, Completes, CallCount, ValidLog, CacheKeyed, StoreOn, TopicAt;
    var c := changes[k];
    CacheWhileInProgress(w.cache, changes, k, t);
    AttemptOutcomes(w, c, t, budget);
    StoreIsStoreOn(w, NewOf(c, t));
    StoreAndSendFrame(w, NewOf(c, t), EventOf(NewOf(c, t), OldOf(c, w.cache)));
  }

  lemma DeliverWithoutTypes(p: Pipeline, changes: seq<Change>, t: Transform, budget: nat)
    requires ValidLog(changes) && KeepsUuids(t) && UntypedInvariant(p, changes, t)
    ensures var p' := Deliver(p, changes, t, budget);
            && UntypedInvariant(p', changes, t)
            && (p'.acked > p.acked && AllKeepUp(changes, p.acked, t) ==>
                  (Caught(p', changes, t) <==> KeepsUp(changes, p.acked, t)))
            && p.acked <= p'.acked <= p.acked + 1
  {
    hide View, CacheAfter, ReplicaOf, Attempt, Completes, CallCount, ValidLog, KeepsUp, TopicAt;
    if p.acked < |changes| {
      assert changes[..|changes|] == changes;
      AttemptKeepsCache(p.world, changes, p.acked, t, budget);
      if AllKeepUp(changes, p.acked, t) {
        AttemptWithoutTypes(p.world, changes, p.acked, t, budget);
      }
    }
  }

  /**
    Over any deliveries, cut off after any number of port calls: the replica is right at every
    acknowledgement exactly if every acknowledged change names a topic or leaves the representation
    as it was. The condition is about the LDAP changes alone.
   */
  lemma {:induction false} ConvergesExactlyWhen(changes: seq<Change>, t: Transform, budgets: seq<nat>)
    requires ValidLog(changes) && KeepsUuids(t)
    ensures var p := Deliveries(changes, t, budgets);
            && UntypedInvariant(p, changes, t)
            && (RightAtEveryAck(changes, t, budgets) <==> AllKeepUp(changes, p.acked, t))
  {
    if budgets == [] {
      assert changes[..0] == [];
    } else {
      ConvergesExactlyWhen(changes, t, DropLast(budgets));
      hide RightAtEveryAck, UntypedInvariant, KeepsUp, Deliver, Caught;
      DeliverWithoutTypes(Deliveries(changes, t, DropLast(budgets)), changes, t, Last(budgets));
      RightAtEveryAckStep(changes, t, budgets);
      AckedInRange(Deliveries(changes, t, budgets), changes, t);
    }
  }

  lemma AckedInRange(p: Pipeline, changes: seq<Change>, t: Transform)
    requires UntypedInvariant(p, changes, t)
    ensures p.acked <= |changes|
  {
  }

  /** An object without a type is stored and acknowledged, and nobody hears of it. */
  lemma ObjectWithoutTypeIsLost(e: LdapEntry, obj: UdmObject, t: Transform)
    requires t(e) == Representation(obj) && obj.objectType == "" && obj.uuid == e.entryUUID
    ensures var changes := [Change(None, Some(e))];
            var p := Deliveries(changes, t, [2]);
            && ValidLog(changes) && p.acked == 1 && ReplicaOf(p.world.events) == map[]
            && View(changes, t) == map[obj.uuid := obj]
  {
    var changes := [Change(None, Some(e))];
    assert DropLast([2]) == [] && DropLast(changes) == [];
    forall k | 0 <= k < |changes|
      ensures ValidAt(changes, k)
    {
      assert changes[..0] == [];
    }
    assert DirectoryAfter(changes) == map[obj.uuid := e];
    assert View(changes, t).Keys == {obj.uuid};
  }
}
