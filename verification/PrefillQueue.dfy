/** What serving the queue of prefill requests does to the subscriptions. */
module PrefillQueue {
  import opened Models
  import opened Sequences
  import opened JetStream
  import opened Prefill
  import opened PrefillRetry

  // ---------- The status during a fill ----------

  lemma {:induction false} TopicsAnnounce(dirs: Directories, t: nat, matches: Matches, rts: seq<RealmTopic>)
    ensures var calls := TopicsCalls(dirs, t, matches, rts); calls == [] || calls[0] == SetStatus(Running)
    decreases |rts|
  {
    if rts != [] {
      hide FetchCalls;
      TopicsAnnounce(dirs, t + |TopicCalls(dirs, t, matches, rts[0])|, matches, rts[1..]);
    }
  }

  lemma {:induction false} StaysRunning(w: World, calls: seq<Call>, a: Attempt, tick: nat)
    requires w.sub.Some? && w.sub.value.status == Running && IsFilling(calls)
    ensures var o := Run(w, calls, a, tick);
            o.world.sub.Some? && o.world.sub.value.status == Running && o.tick >= tick
    decreases |calls|
  {
    hide IsFilling, Run, PurgeSubject, Append;
    RunStep(w, calls, a, tick);
    if calls != [] && tick < a.budget && Succeeds(calls[0], w, a.dirs(tick)) {
      FillingParts(calls);
      OneFillingCall(calls[0]);
      StaysRunning(Perform(w, calls[0]), calls[1..], a, tick + 1);
    }
  }

  lemma OneFillingCall(c: Call)
    requires IsFilling([c])
    ensures c.SetStatus? ==> c.status == Running
  {
    assert c in [c];
  }

  /**
    Wherever a fill is cut off, and whatever it found: the status is the old one until the first
    topic, running from then on, and done exactly if every call was made. So whatever the prefill
    subject shows while it is being filled is shown under status running.
   */
  lemma {:induction false} StatusDuringFill(w: World, request: PrefillRequest, matches: Matches, a: Attempt)
    requires w.sub.Some?
    ensures var o := Run(w, FillCalls(a.dirs, matches, request), a, 0);
            && o.world.sub.Some?
            && o.world.sub.value.status ==
               (if o.ok then Done else if o.tick <= 1 then w.sub.value.status else Running)
            && (o.tick == 1 ==> Prefilled(o.world) == [])
            && (o.tick == 0 ==> o.world == w)
  {
    hide Run, Prefilled, TopicsCalls, IsFilling, PurgeSubject;
    var topics := TopicsCalls(a.dirs, 1, matches, request.realmsTopics);
    assert FillCalls(a.dirs, matches, request) == [Purge] + (topics + [SetStatus(Done)]);
    TopicsFill(a.dirs, 1, matches, request.realmsTopics);
    TopicsAnnounce(a.dirs, 1, matches, request.realmsTopics);
    RunConcat(w, [Purge], topics + [SetStatus(Done)], a, 0);
    LastCall(w, Purge, a, 0);
    if a.budget > 0 {
      PurgeEmpties(w);
      TopicsRun(Perform(w, Purge), topics, a);
    }
  }

  lemma TopicsRun(w: World, topics: seq<Call>, a: Attempt)
    requires w.sub.Some? && IsFilling(topics) && (topics == [] || topics[0] == SetStatus(Running))
    ensures var o := Run(w, topics + [SetStatus(Done)], a, 1);
            && o.world.sub.Some? && o.tick >= 1
            && o.world.sub.value.status ==
               (if o.ok then Done else if o.tick == 1 then w.sub.value.status else Running)
            && (o.tick == 1 ==> o.world == w)
  {
    hide Run, IsFilling;
    RunConcat(w, topics, [SetStatus(Done)], a, 1);
    var filled := Run(w, topics, a, 1);
    LastCall(filled.world, SetStatus(Done), a, filled.tick);
    if topics == [] {
      RunNothing(w, a, 1);
    } else {
      RunStep(w, topics, a, 1);
      FillingParts(topics);
      if 1 < a.budget {
        StaysRunning(Perform(w, topics[0]), topics[1..], a, 2);
      }
    }
  }

  // ---------- The queue serves one request after the other ----------

  lemma UpdatedWorld(s: Store, name: string, w: World, w': World)
    requires w.sub.Some? == w'.sub.Some? == (name in s.subs)
    ensures WorldOf(Updated(s, name, w), name) == w
    ensures Updated(Updated(s, name, w), name, w') == Updated(s, name, w')
    ensures Updated(s, name, WorldOf(s, name)) == s
  {
  }

  /** A delivery neither creates nor deletes the subscription. */
  lemma DeliverKeepsSub(r: RequestState, request: PrefillRequest, matches: Matches, maxAttempts: int, a: Attempt)
    ensures Deliver(r, request, matches, maxAttempts, a).world.sub.Some? == r.world.sub.Some?
  {
    hide Run, FillCalls, GiveUpCalls, Purges;
    if !r.acked {
      if r.world.sub.None? {
        DeletedDelivery(r, request, matches, maxAttempts, a);
      } else {
        FillAttempt(r.world, request, matches, a);
        GiveUp(r.world, request, a);
      }
    }
  }

  /**
    The store is what the last n attempts, all of them deliveries of the request at the head, have
    made of the store as it was when that request became the head.
   */
  ghost predicate HeadServed(store: Store, requests: seq<PrefillRequest>, matches: Matches, maxAttempts: int,
                             attempts: seq<Attempt>, n: nat) {
    var q := ServeAll(store, requests, matches, maxAttempts, attempts);
    && n <= |attempts| && q.served < |requests|
    && var q0 := ServeAll(store, requests, matches, maxAttempts, attempts[..|attempts| - n]);
    var name := requests[q.served].subscriptionName;
    var r := Deliveries(WorldOf(q0.store, name), requests[q.served], matches, maxAttempts, attempts[|attempts| - n..]);
    && q0.served == q.served && q0.delivered == 0
    && !r.acked && r.delivered == q.delivered == n
    && r.world.sub.Some? == (name in q0.store.subs)
    && q.store == Updated(q0.store, name, r.world)
  }

  lemma OneMoreAttempt(store: Store, requests: seq<PrefillRequest>, matches: Matches, maxAttempts: int,
                       attempts: seq<Attempt>)
    requires attempts != []
    ensures ServeAll(store, requests, matches, maxAttempts, attempts) ==
            Serve(ServeAll(store, requests, matches, maxAttempts, DropLast(attempts)), requests, matches, maxAttempts,
                  Last(attempts))
  {
  }

  lemma OneMoreTry(w: World, request: PrefillRequest, matches: Matches, maxAttempts: int, attempts: seq<Attempt>,
                   a: Attempt)
    ensures Deliveries(w, request, matches, maxAttempts, attempts + [a]) ==
            Deliver(Deliveries(w, request, matches, maxAttempts, attempts), request, matches, maxAttempts, a)
  {
    assert DropLast(attempts + [a]) == attempts;
  }

  lemma HeadIsFresh(store: Store, requests: seq<PrefillRequest>, matches: Matches, maxAttempts: int,
                    attempts: seq<Attempt>)
    requires var q := ServeAll(store, requests, matches, maxAttempts, attempts);
             q.served < |requests| && q.delivered == 0
    ensures HeadServed(store, requests, matches, maxAttempts, attempts, 0)
  {
    hide ServeAll;
    var q := ServeAll(store, requests, matches, maxAttempts, attempts);
    var w := WorldOf(q.store, requests[q.served].subscriptionName);
    assert attempts[..|attempts| - 0] == attempts && attempts[|attempts| - 0..] == [];
    UpdatedWorld(q.store, requests[q.served].subscriptionName, w, w);
  }

  lemma OneMoreDelivery(q0: QueueState, q: QueueState, r: RequestState, requests: seq<PrefillRequest>,
                        matches: Matches, maxAttempts: int, a: Attempt)
    requires q.served < |requests| && !r.acked && r.delivered == q.delivered
    requires var name := requests[q.served].subscriptionName;
             r.world.sub.Some? == (name in q0.store.subs) && q.store == Updated(q0.store, name, r.world)
    ensures var name := requests[q.served].subscriptionName;
            var r' := Deliver(r, requests[q.served], matches, maxAttempts, a);
            && r'.world.sub.Some? == (name in q0.store.subs) && r'.delivered == q.delivered + 1
            && Serve(q, requests, matches, maxAttempts, a) ==
               QueueState(Updated(q0.store, name, r'.world),
                          if r'.acked then q.served + 1 else q.served, if r'.acked then 0 else r'.delivered)
  {
    var name, request := requests[q.served].subscriptionName, requests[q.served];
    var r' := Deliver(r, request, matches, maxAttempts, a);
    DeliverKeepsSub(r, request, matches, maxAttempts, a);
    UpdatedWorld(q0.store, name, r.world, r'.world);
    hide Run, CallsFor, Updated, WorldOf;
    assert r == RequestState(WorldOf(q.store, name), q.delivered, false);
  }

  lemma {:induction false} QueueHeadServed(store: Store, requests: seq<PrefillRequest>, matches: Matches,
                                           maxAttempts: int, attempts: seq<Attempt>)
    ensures var q := ServeAll(store, requests, matches, maxAttempts, attempts);
            q.served < |requests| ==> HeadServed(store, requests, matches, maxAttempts, attempts, q.delivered)
  {
    var q' := ServeAll(store, requests, matches, maxAttempts, attempts);
    if q'.served < |requests| {
      if q'.delivered == 0 {
        HeadIsFresh(store, requests, matches, maxAttempts, attempts);
      } else {
        var init, q := DropLast(attempts), ServeAll(store, requests, matches, maxAttempts, DropLast(attempts));
        QueueHeadServed(store, requests, matches, maxAttempts, init);
        HeadStaysServed(store, requests, matches, maxAttempts, attempts);
      }
    }
  }

  lemma HeadStaysServed(store: Store, requests: seq<PrefillRequest>, matches: Matches, maxAttempts: int,
                        attempts: seq<Attempt>)
    requires attempts != []
    requires var q := ServeAll(store, requests, matches, maxAttempts, DropLast(attempts));
             HeadServed(store, requests, matches, maxAttempts, DropLast(attempts), q.delivered)
    requires ServeAll(store, requests, matches, maxAttempts, attempts).delivered != 0
    ensures var q' := ServeAll(store, requests, matches, maxAttempts, attempts);
            HeadServed(store, requests, matches, maxAttempts, attempts, q'.delivered)
  {
    hide Serve, ServeAll, Deliver, Deliveries, Updated, WorldOf;
    OneMoreAttempt(store, requests, matches, maxAttempts, attempts);
    var init, a := DropLast(attempts), Last(attempts);
    var q := ServeAll(store, requests, matches, maxAttempts, init);
    var n := q.delivered;
    var m := |init| - n;
    var q0 := ServeAll(store, requests, matches, maxAttempts, init[..m]);
    var request := requests[q.served];
    var w := WorldOf(q0.store, request.subscriptionName);
    assert init[..m] == attempts[..m] && attempts[m..] == init[m..] + [a];
    OneMoreTry(w, request, matches, maxAttempts, init[m..], a);
    OneMoreDelivery(q0, q, Deliveries(w, request, matches, maxAttempts, init[m..]), requests, matches, maxAttempts, a);
  }

  /**
    Serving the queue is serving its requests one after the other: the store is what the deliveries
    of the request at the head, this one included, have made of the store as it was when the
    request became the head, and the next request is served, from its first delivery on, exactly
    after an acknowledgement. So whatever holds of the deliveries of one request holds in the queue.
   */
  lemma {:induction false} ServesLikeDeliveries(store: Store, requests: seq<PrefillRequest>, matches: Matches,
                                                maxAttempts: int, attempts: seq<Attempt>)
    requires attempts != []
    requires ServeAll(store, requests, matches, maxAttempts, DropLast(attempts)).served < |requests|
    ensures var q := ServeAll(store, requests, matches, maxAttempts, DropLast(attempts));
            var m, request := |attempts| - 1 - q.delivered, requests[q.served];
            && m >= 0
            && var q0 := ServeAll(store, requests, matches, maxAttempts, attempts[..m]);
            var w := WorldOf(q0.store, request.subscriptionName);
            var r := Deliveries(w, request, matches, maxAttempts, attempts[m..]);
            && q0.served == q.served && q0.delivered == 0
            && r.delivered == |attempts| - m
            && ServeAll(store, requests, matches, maxAttempts, attempts) ==
               QueueState(Updated(q0.store, request.subscriptionName, r.world),
                          if r.acked then q.served + 1 else q.served, if r.acked then 0 else r.delivered)
  {
    hide Serve, ServeAll, Deliver, Deliveries, Updated, WorldOf;
    OneMoreAttempt(store, requests, matches, maxAttempts, attempts);
    var init, a := DropLast(attempts), Last(attempts);
    QueueHeadServed(store, requests, matches, maxAttempts, init);
    var q := ServeAll(store, requests, matches, maxAttempts, init);
    var m := |init| - q.delivered;
    var q0 := ServeAll(store, requests, matches, maxAttempts, init[..m]);
    var w := WorldOf(q0.store, requests[q.served].subscriptionName);
    assert init[..m] == attempts[..m] && attempts[m..] == init[m..] + [a];
    OneMoreTry(w, requests[q.served], matches, maxAttempts, init[m..], a);
    OneMoreDelivery(q0, q, Deliveries(w, requests[q.served], matches, maxAttempts, init[m..]), requests, matches,
                    maxAttempts, a);
  }

  // ---------- What the requests have led to ----------

  function PrefilledIn(s: Store, name: string): seq<Message>
    requires name in s.subs
  {
    Messages(OnSubject(s.subs[name].stream, PrefillSubject))
  }

  function LiveIn(s: Store, name: string): seq<Stored>
    requires name in s.subs
  {
    OnSubject(s.subs[name].stream, MainSubject)
  }

  /** An acknowledged request has all it asked for under status done, or was given up and noted as a failure. */
  ghost predicate Outcome(s: Store, request: PrefillRequest, matches: Matches, maxAttempts: int, dir: Directory) {
    && request.subscriptionName in s.subs
    && (|| (&& s.subs[request.subscriptionName].status == Done
            && PrefilledIn(s, request.subscriptionName) == Expected(dir, matches, request.realmsTopics))
        || (&& s.subs[request.subscriptionName].status == Failed
            && maxAttempts != -1 && request in s.failures))
  }

  /** What one delivery of the request at the head changes. */
  lemma ServeOne(q: QueueState, requests: seq<PrefillRequest>, matches: Matches, maxAttempts: int, a: Attempt,
                 dir: Directory)
    requires Constant(a.dirs, dir) && q.served < |requests|
    ensures var q' := Serve(q, requests, matches, maxAttempts, a);
            var name := requests[q.served].subscriptionName;
            && q'.store.subs.Keys == q.store.subs.Keys
            && (forall n :: n in q.store.subs && n != name ==> q'.store.subs[n] == q.store.subs[n])
            && (name in q.store.subs ==> LiveIn(q'.store, name) == LiveIn(q.store, name))
            && (forall x :: x in q.store.failures ==> x in q'.store.failures)
            && (if q'.served == q.served then q'.delivered == q.delivered + 1
                else q'.served == q.served + 1 && q'.delivered == 0
                     && Outcome(q'.store, requests[q.served], matches, maxAttempts, dir))
  {
    var request := requests[q.served];
    var r := RequestState(WorldOf(q.store, request.subscriptionName), q.delivered, false);
    hide Run, FillCalls, GiveUpCalls, Purges, Expected, TopicsCalls, Published, OnSubject, Messages;
    GiveUp(r.world, request, a);
    if r.world.sub.None? {
      DeletedDelivery(r, request, matches, maxAttempts, a);
    } else {
      FillAttempt(r.world, request, matches, a);
      TopicsPublish(a.dirs, 1, matches, request.realmsTopics, dir);
    }
  }

  /** The request has been delivered. */
  predicate Begun(q: QueueState, i: nat) {
    i < q.served || (i == q.served && q.delivered > 0)
  }

  /** No later request for the same subscription has been delivered. */
  predicate LastBegun(q: QueueState, requests: seq<PrefillRequest>, i: nat)
    requires i < |requests|
  {
    forall j :: i < j < |requests| && Begun(q, j) ==> requests[j].subscriptionName != requests[i].subscriptionName
  }

  ghost predicate QueueInv(store: Store, q: QueueState, requests: seq<PrefillRequest>, matches: Matches,
                           maxAttempts: int, dir: Directory) {
    && q.served <= |requests| && (q.served == |requests| ==> q.delivered == 0)
    && q.store.subs.Keys == store.subs.Keys
    && (forall n :: n in store.subs ==> LiveIn(q.store, n) == LiveIn(store, n))
    && (forall n :: n in store.subs && NotAsked(q, requests, n) ==> q.store.subs[n] == store.subs[n])
    && Outcomes(q, requests, matches, maxAttempts, dir)
  }

  /** The outcome of every acknowledged request that no later one has overtaken. */
  ghost predicate Outcomes(q: QueueState, requests: seq<PrefillRequest>, matches: Matches, maxAttempts: int,
                           dir: Directory)
  {
    forall i :: 0 <= i < q.served && i < |requests| && LastBegun(q, requests, i) ==>
      Outcome(q.store, requests[i], matches, maxAttempts, dir)
  }

  /** No request for the subscription has been delivered. */
  predicate NotAsked(q: QueueState, requests: seq<PrefillRequest>, name: string) {
    forall i :: 0 <= i < |requests| && Begun(q, i) ==> requests[i].subscriptionName != name
  }

  lemma ServeKeepsQueue(store: Store, q: QueueState, requests: seq<PrefillRequest>, matches: Matches,
                        maxAttempts: int, a: Attempt, dir: Directory)
    requires Constant(a.dirs, dir) && q.served < |requests|
    requires QueueInv(store, q, requests, matches, maxAttempts, dir)
    ensures QueueInv(store, Serve(q, requests, matches, maxAttempts, a), requests, matches, maxAttempts, dir)
  {
    hide Serve, Outcomes, Outcome, Constant, OnSubject;
    var q' := Serve(q, requests, matches, maxAttempts, a);
    ServeOne(q, requests, matches, maxAttempts, a, dir);
    ServeKeepsOutcomes(q, requests, matches, maxAttempts, a, dir);
    assert Begun(q', q.served);
    forall n | n in store.subs && NotAsked(q', requests, n)
      ensures n != requests[q.served].subscriptionName && NotAsked(q, requests, n)
    {
    }
  }

  lemma ServeKeepsOutcomes(q: QueueState, requests: seq<PrefillRequest>, matches: Matches, maxAttempts: int,
                           a: Attempt, dir: Directory)
    requires Constant(a.dirs, dir) && q.served < |requests| && Outcomes(q, requests, matches, maxAttempts, dir)
    ensures Outcomes(Serve(q, requests, matches, maxAttempts, a), requests, matches, maxAttempts, dir)
  {
    hide Serve, Outcome, Constant;
    var q' := Serve(q, requests, matches, maxAttempts, a);
    ServeOne(q, requests, matches, maxAttempts, a, dir);
    assert Begun(q', q.served);
    forall i | 0 <= i < q.served && LastBegun(q', requests, i)
      ensures Outcome(q'.store, requests[i], matches, maxAttempts, dir)
    {
      assert requests[i].subscriptionName != requests[q.served].subscriptionName;
      assert LastBegun(q, requests, i);
      OutcomeStays(q.store, q'.store, requests[i], matches, maxAttempts, dir);
    }
  }

  lemma OutcomeStays(s: Store, s': Store, request: PrefillRequest, matches: Matches, maxAttempts: int, dir: Directory)
    requires Outcome(s, request, matches, maxAttempts, dir) && s'.subs.Keys == s.subs.Keys
    requires request.subscriptionName in s.subs ==>
               s'.subs[request.subscriptionName] == s.subs[request.subscriptionName]
    requires forall x :: x in s.failures ==> x in s'.failures
    ensures Outcome(s', request, matches, maxAttempts, dir)
  {
  }

  /**
    Over all deliveries, however they are cut off, while the directory does not change: every
    acknowledged request that no later one for the same subscription has overtaken has got exactly
    what it asked for under status done, or status failed with the request itself in the failure
    queue. All live messages stay, and so does every subscription nobody has asked to prefill.
   */
  lemma {:induction false} EveryRequestIsServed(store: Store, requests: seq<PrefillRequest>, matches: Matches,
                                                maxAttempts: int, attempts: seq<Attempt>, dir: Directory)
    requires forall a :: a in attempts ==> Constant(a.dirs, dir)
    ensures QueueInv(store, ServeAll(store, requests, matches, maxAttempts, attempts), requests, matches, maxAttempts,
                     dir)
  {
    if attempts != [] {
      hide QueueInv, Constant, Serve;
      var q := ServeAll(store, requests, matches, maxAttempts, DropLast(attempts));
      assert Last(attempts) in attempts && forall a :: a in DropLast(attempts) ==> a in attempts;
      EveryRequestIsServed(store, requests, matches, maxAttempts, DropLast(attempts), dir);
      if q.served < |requests| {
        ServeKeepsQueue(store, q, requests, matches, maxAttempts, Last(attempts), dir);
      } else {
        NothingToServe(q, requests, matches, maxAttempts, Last(attempts));
      }
    }
  }

  lemma NothingToServe(q: QueueState, requests: seq<PrefillRequest>, matches: Matches, maxAttempts: int, a: Attempt)
    requires q.served >= |requests|
    ensures Serve(q, requests, matches, maxAttempts, a) == q
  {
  }

  /** The world is as w on the prefill subject, or shows a prefix of one clean run. */
  ghost predicate ShowsPrefix(w: World, w': World, expected: seq<Message>) {
    && w.sub.Some? && w'.sub.Some?
    && (Prefilled(w') == Prefilled(w) || Prefilled(w') <= expected)
  }

  lemma DeliverShows(w: World, r: RequestState, request: PrefillRequest, matches: Matches, maxAttempts: int,
                     a: Attempt, dir: Directory)
    requires Constant(a.dirs, dir) && ShowsPrefix(w, r.world, Expected(dir, matches, request.realmsTopics))
    ensures ShowsPrefix(w, Deliver(r, request, matches, maxAttempts, a).world,
                        Expected(dir, matches, request.realmsTopics))
  {
    hide Run, Published, Expected, FillCalls, GiveUpCalls, TopicsCalls, Purges, OnSubject, Messages;
    FillAttempt(r.world, request, matches, a);
    TopicsPublish(a.dirs, 1, matches, request.realmsTopics, dir);
    GiveUp(r.world, request, a);
  }

  lemma {:induction false} DeliveriesShow(w: World, request: PrefillRequest, matches: Matches, maxAttempts: int,
                                          attempts: seq<Attempt>, dir: Directory)
    requires w.sub.Some? && forall a :: a in attempts ==> Constant(a.dirs, dir)
    ensures ShowsPrefix(w, Deliveries(w, request, matches, maxAttempts, attempts).world,
                        Expected(dir, matches, request.realmsTopics))
  {
    if attempts != [] {
      hide Deliver, Expected, Prefilled, Constant;
      assert Last(attempts) in attempts && forall x :: x in DropLast(attempts) ==> x in attempts;
      DeliveriesShow(w, request, matches, maxAttempts, DropLast(attempts), dir);
      DeliverShows(w, Deliveries(w, request, matches, maxAttempts, DropLast(attempts)), request, matches, maxAttempts,
                   Last(attempts), dir);
    }
  }

  /**
    A request in progress shows a prefix of what it asks for, or still what was there when it
    became the head of the queue; every other subscription is as it was then.
   */
  lemma {:induction false} RequestInProgress(store: Store, requests: seq<PrefillRequest>, matches: Matches,
                                             maxAttempts: int, attempts: seq<Attempt>, dir: Directory)
    requires forall a :: a in attempts ==> Constant(a.dirs, dir)
    requires ServeAll(store, requests, matches, maxAttempts, attempts).served < |requests|
    ensures var q := ServeAll(store, requests, matches, maxAttempts, attempts);
            var name := requests[q.served].subscriptionName;
            && q.delivered <= |attempts|
            && var q0 := ServeAll(store, requests, matches, maxAttempts, attempts[..|attempts| - q.delivered]);
            && q0.served == q.served && q0.delivered == 0 && q.store.subs.Keys == q0.store.subs.Keys
            && (forall n :: n in q.store.subs && n != name ==> q.store.subs[n] == q0.store.subs[n])
            && (name in q.store.subs ==>
                  || PrefilledIn(q.store, name) == PrefilledIn(q0.store, name)
                  || PrefilledIn(q.store, name) <= Expected(dir, matches, requests[q.served].realmsTopics))
  {
    hide ServeAll, Deliveries, Expected, OnSubject, Messages;
    var q := ServeAll(store, requests, matches, maxAttempts, attempts);
    QueueHeadServed(store, requests, matches, maxAttempts, attempts);
    var request, m := requests[q.served], |attempts| - q.delivered;
    var q0 := ServeAll(store, requests, matches, maxAttempts, attempts[..m]);
    if request.subscriptionName in q0.store.subs {
      DeliveriesShow(WorldOf(q0.store, request.subscriptionName), request, matches, maxAttempts, attempts[m..], dir);
    }
  }
}
