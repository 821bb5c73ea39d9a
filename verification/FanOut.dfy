/**
  Runs of the dispatcher over the incoming queue: every subscription's main subject is the
  incoming queue filtered by its topics, in order, once redelivered copies are collapsed.
 */
module FanOut {
  import opened Models
  import opened Sequences
  import opened Dispatcher

  /** How much of the incoming queue is acknowledged, and the main subjects of the subscriptions. */
  datatype Progress = Progress(acked: nat, streams: Streams)

  /**
    One delivery of the oldest unacknowledged message: the subscriptions in use, the streams that
    were created and deleted since the one before, how many calls succeed, and who got the message
    if that was not enough.
   */
  datatype Attempt = Attempt(
    subs: seq<Subscription>,
    created: set<string>,
    deleted: set<string>,
    budget: nat,
    sent: set<string>)

  function Targets(subs: seq<Subscription>, m: Message): set<string> {
    Names(Scan(subs, m.realm, m.topic))
  }

  /** Every target has its stream, and the sends and the acknowledgement all succeed. */
  predicate Acks(streams: Streams, a: Attempt, m: Message) {
    |Scan(a.subs, m.realm, m.topic)| < a.budget && Targets(a.subs, m) <= streams.Keys
  }

  /** An acknowledgement comes after all sends; without one any part of the sends may have happened. */
  function Dispatch(p: Progress, incoming: seq<Message>, a: Attempt): Progress {
    var streams := Changed(p.streams, a.created, a.deleted);
    if p.acked >= |incoming| then Progress(p.acked, streams)
    else
      var d := Delivery(p.acked, incoming[p.acked]);
      var targets := Targets(a.subs, d.message);
      if Acks(streams, a, d.message) then Progress(p.acked + 1, Publish(streams, targets, d))
      else Progress(p.acked, Publish(streams, a.sent * targets, d))
  }

  function DispatchAll(incoming: seq<Message>, streams: Streams, attempts: seq<Attempt>): Progress {
    if attempts == [] then Progress(0, streams)
    else Dispatch(DispatchAll(incoming, streams, DropLast(attempts)), incoming, Last(attempts))
  }

  /** The first k incoming messages with their sequence numbers. */
  function Tagged(incoming: seq<Message>, k: nat): seq<Delivery>
    requires k <= |incoming|
  {
    if k == 0 then [] else Tagged(incoming, k - 1) + [Delivery(k - 1, incoming[k - 1])]
  }

  function Wanted(sub: Subscription): Delivery -> bool {
    (d: Delivery) => Wants(sub, d.message.realm, d.message.topic)
  }

  /** The specification of a main subject: what the subscription asked for, in incoming order. */
  function Routed(incoming: seq<Message>, k: nat, sub: Subscription): seq<Delivery>
    requires k <= |incoming|
  {
    Filter(Wanted(sub), Tagged(incoming, k))
  }

  lemma RoutedStep(incoming: seq<Message>, k: nat, sub: Subscription)
    requires k < |incoming|
    ensures Routed(incoming, k + 1, sub) ==
            if Wants(sub, incoming[k].realm, incoming[k].topic)
            then Routed(incoming, k, sub) + [Delivery(k, incoming[k])] else Routed(incoming, k, sub)
  {
    FilterSnoc(Wanted(sub), Tagged(incoming, k), Delivery(k, incoming[k]));
  }

  lemma TargetedExactlyWhenWanted(subs: seq<Subscription>, sub: Subscription, m: Message)
    requires DistinctNames(subs) && sub in subs
    ensures sub.name in Targets(subs, m) <==> Wants(sub, m.realm, m.topic)
  {
    if sub.name in Targets(subs, m) {
      var other :| other in Scan(subs, m.realm, m.topic) && other.name == sub.name;
      var i :| 0 <= i < |subs| && subs[i] == sub;
      var j :| 0 <= j < |subs| && subs[j] == other;
      assert i == j;
    }
  }

  /** Exactly the acknowledged messages from position `from` on, all of them numbered below the next one. */
  ghost predicate UpToDate(stream: seq<Delivery>, incoming: seq<Message>, from: nat, k: nat, sub: Subscription)
    requires from <= k <= |incoming|
  {
    && Routed(incoming, from, sub) + Collapse(stream) == Routed(incoming, k, sub)
    && (stream != [] ==> Last(stream).seqNo < k)
  }

  ghost predicate InOrder(p: Progress, incoming: seq<Message>, from: nat, sub: Subscription) {
    && from <= p.acked <= |incoming|
    && sub.name in p.streams
    && (|| UpToDate(p.streams[sub.name], incoming, from, p.acked, sub)
        || (p.acked < |incoming| && UpToDate(p.streams[sub.name], incoming, from, p.acked + 1, sub)
            && p.streams[sub.name] != []
            && Last(p.streams[sub.name]) == Delivery(p.acked, incoming[p.acked])))
  }

  /** A subscription of this name and with these topics is in the list. */
  ghost predicate Lists(subs: seq<Subscription>, sub: Subscription) {
    exists s :: s in subs && s.name == sub.name && s.realmsTopics == sub.realmsTopics
  }

  /** The subscription is among those in use, and its stream is not deleted. */
  ghost predicate Keeps(a: Attempt, sub: Subscription) {
    DistinctNames(a.subs) && sub.name !in a.deleted && Lists(a.subs, sub)
  }

  lemma KeptIsTargeted(a: Attempt, sub: Subscription, m: Message)
    requires Keeps(a, sub)
    ensures sub.name in Targets(a.subs, m) <==> Wants(sub, m.realm, m.topic)
  {
    var s :| s in a.subs && s.name == sub.name && s.realmsTopics == sub.realmsTopics;
    TargetedExactlyWhenWanted(a.subs, s, m);
  }

  /** The state in which a delivery begins. */
  function Begun(p: Progress, a: Attempt): Progress {
    Progress(p.acked, Changed(p.streams, a.created, a.deleted))
  }

  lemma DispatchKeepsOrder(p: Progress, incoming: seq<Message>, a: Attempt, from: nat, sub: Subscription)
    requires Keeps(a, sub) && InOrder(Begun(p, a), incoming, from, sub)
    ensures var p' := Dispatch(p, incoming, a);
            && InOrder(p', incoming, from, sub)
            && (p'.acked > p.acked ==> UpToDate(p'.streams[sub.name], incoming, from, p'.acked, sub))
  {
    hide Routed, Targets, Collapse, Wants, Acks, Changed;
    if p.acked < |incoming| {
      var d, stream := Delivery(p.acked, incoming[p.acked]), Begun(p, a).streams[sub.name];
      KeptIsTargeted(a, sub, d.message);
      RoutedStep(incoming, p.acked, sub);
      CollapseSnoc(stream, d);
      var before := Routed(incoming, from, sub);
      assert before + (Collapse(stream) + [d]) == (before + Collapse(stream)) + [d];
    }
  }

  lemma ChangeKeepsOrder(p: Progress, incoming: seq<Message>, a: Attempt, from: nat, sub: Subscription)
    requires sub.name !in a.deleted && InOrder(p, incoming, from, sub)
    ensures InOrder(Begun(p, a), incoming, from, sub)
  {
    hide UpToDate;
  }

  lemma NothingRouted(incoming: seq<Message>, sub: Subscription)
    ensures Routed(incoming, 0, sub) == []
  {
  }

  lemma NothingYet(p: Progress, incoming: seq<Message>, sub: Subscription)
    requires p.acked <= |incoming| && sub.name in p.streams && p.streams[sub.name] == []
    ensures InOrder(p, incoming, p.acked, sub)
  {
    hide Routed;
    assert Routed(incoming, p.acked, sub) + [] == Routed(incoming, p.acked, sub);
  }

  /**
    No loss, no reordering: while other subscriptions come and go, after any deliveries, cut off
    after any sends, the main subject of a subscription that stays, with adjacent copies collapsed,
    is the incoming queue filtered by its topics, up to the acknowledged messages plus at most the
    one in progress.
   */
  lemma {:induction false} FanOutInOrder(incoming: seq<Message>, streams: Streams, attempts: seq<Attempt>,
                                         sub: Subscription)
    requires sub.name in streams && streams[sub.name] == []
    requires forall a :: a in attempts ==> Keeps(a, sub)
    ensures var p := DispatchAll(incoming, streams, attempts);
            && InOrder(p, incoming, 0, sub)
            && (attempts != [] && p.acked > DispatchAll(incoming, streams, DropLast(attempts)).acked ==>
                  Collapse(p.streams[sub.name]) == Routed(incoming, p.acked, sub))
  {
    if attempts == [] {
      NothingYet(DispatchAll(incoming, streams, []), incoming, sub);
    } else {
      hide Dispatch, Keeps, Routed;
      var init, a := DropLast(attempts), Last(attempts);
      assert a in attempts && forall x :: x in init ==> x in attempts;
      FanOutInOrder(incoming, streams, init, sub);
      var p := DispatchAll(incoming, streams, init);
      KeptStays(a, sub);
      ChangeKeepsOrder(p, incoming, a, 0, sub);
      DispatchKeepsOrder(p, incoming, a, 0, sub);
      NothingRouted(incoming, sub);
      var stream := DispatchAll(incoming, streams, attempts).streams[sub.name];
      assert [] + Collapse(stream) == Collapse(stream);
    }
  }

  lemma KeptStays(a: Attempt, sub: Subscription)
    requires Keeps(a, sub)
    ensures sub.name !in a.deleted
  {
  }

  /** The same for a subscription that is there from the j-th delivery on: its messages are those from there on. */
  lemma {:induction false} FanOutFromThen(incoming: seq<Message>, streams: Streams, attempts: seq<Attempt>, j: nat,
                                          sub: Subscription)
    requires j < |attempts| && forall i :: j <= i < |attempts| ==> Keeps(attempts[i], sub)
    requires var begun := Begun(DispatchAll(incoming, streams, attempts[..j]), attempts[j]).streams;
             sub.name in begun && begun[sub.name] == []
    ensures InOrder(DispatchAll(incoming, streams, attempts), incoming,
                    DispatchAll(incoming, streams, attempts[..j]).acked, sub)
  {
    hide Dispatch, Keeps, Routed;
    var init, a := DropLast(attempts), Last(attempts);
    var p, from := DispatchAll(incoming, streams, init), DispatchAll(incoming, streams, attempts[..j]).acked;
    assert attempts[|attempts| - 1] == a;
    AckedInRange(incoming, streams, init);
    if j == |attempts| - 1 {
      assert attempts[..j] == init;
      NothingYet(Begun(p, a), incoming, sub);
    } else {
      assert init[..j] == attempts[..j] && init[j] == attempts[j];
      assert forall i :: j <= i < |init| ==> init[i] == attempts[i];
      FanOutFromThen(incoming, streams, init, j, sub);
      KeptStays(a, sub);
      ChangeKeepsOrder(p, incoming, a, from, sub);
    }
    DispatchKeepsOrder(p, incoming, a, from, sub);
  }

  lemma {:induction false} AckedInRange(incoming: seq<Message>, streams: Streams, attempts: seq<Attempt>)
    ensures DispatchAll(incoming, streams, attempts).acked <= |incoming|
  {
    if attempts != [] {
      AckedInRange(incoming, streams, DropLast(attempts));
    }
  }

  // ---------- The queue behind a missing stream ----------

  /** The subscriptions and their streams stay as they are. */
  ghost predicate Undisturbed(attempts: seq<Attempt>, subs: seq<Subscription>) {
    forall a :: a in attempts ==> a.subs == subs && a.created == {} && a.deleted == {}
  }

  /** Every target of the first n messages has its stream. */
  predicate AllHaveStreams(incoming: seq<Message>, subs: seq<Subscription>, streams: Streams, n: nat)
    requires n <= |incoming|
  {
    forall k :: 0 <= k < n ==> Targets(subs, incoming[k]) <= streams.Keys
  }

  lemma UndisturbedDispatch(p: Progress, incoming: seq<Message>, a: Attempt)
    requires a.created == {} && a.deleted == {}
    ensures var p' := Dispatch(p, incoming, a);
            && p'.streams.Keys == p.streams.Keys
            && p'.acked ==
               if p.acked < |incoming| && Acks(p.streams, a, incoming[p.acked]) then p.acked + 1 else p.acked
  {
    hide Acks, Targets;
    assert Changed(p.streams, {}, {}) == p.streams;
  }

  lemma UndisturbedParts(attempts: seq<Attempt>, a: Attempt, subs: seq<Subscription>)
    ensures Undisturbed(attempts + [a], subs) <==>
            Undisturbed(attempts, subs) && a.subs == subs && a.created == {} && a.deleted == {}
  {
    assert a in attempts + [a] && forall x :: x in attempts ==> x in attempts + [a];
  }

  lemma OneMoreTargeted(incoming: seq<Message>, subs: seq<Subscription>, streams: Streams, p: Progress, a: Attempt)
    requires p.acked < |incoming| && a.subs == subs && p.streams.Keys == streams.Keys
    requires AllHaveStreams(incoming, subs, streams, p.acked) && Acks(p.streams, a, incoming[p.acked])
    ensures AllHaveStreams(incoming, subs, streams, p.acked + 1)
  {
    hide Targets, Scan;
  }

  lemma {:induction false} StuckBehindMissingStream(incoming: seq<Message>, subs: seq<Subscription>, streams: Streams,
                                                    attempts: seq<Attempt>)
    requires Undisturbed(attempts, subs)
    ensures var p := DispatchAll(incoming, streams, attempts);
            && p.streams.Keys == streams.Keys && p.acked <= |incoming|
            && AllHaveStreams(incoming, subs, streams, p.acked)
  {
    if attempts != [] {
      hide Dispatch, Undisturbed, AllHaveStreams, Acks;
      var init, a := DropLast(attempts), Last(attempts);
      assert attempts == init + [a];
      UndisturbedParts(init, a, subs);
      StuckBehindMissingStream(incoming, subs, streams, init);
      var p := DispatchAll(incoming, streams, init);
      UndisturbedDispatch(p, incoming, a);
      if p.acked < |incoming| && Acks(p.streams, a, incoming[p.acked]) {
        OneMoreTargeted(incoming, subs, streams, p, a);
      }
    } else {
      assert AllHaveStreams(incoming, subs, streams, 0);
    }
  }

  lemma {:induction false} AllDispatched(incoming: seq<Message>, subs: seq<Subscription>, streams: Streams, n: nat)
    returns (attempts: seq<Attempt>)
    requires n <= |incoming| && AllHaveStreams(incoming, subs, streams, n)
    ensures Undisturbed(attempts, subs) && DispatchAll(incoming, streams, attempts).acked == n
  {
    attempts := [];
    if n > 0 {
      var before := AllDispatched(incoming, subs, streams, n - 1);
      var m := incoming[n - 1];
      StuckBehindMissingStream(incoming, subs, streams, before);
      var p := DispatchAll(incoming, streams, before);
      var a := Attempt(subs, {}, {}, |Scan(subs, m.realm, m.topic)| + 1, {});
      assert Acks(p.streams, a, m) by {
        assert Targets(subs, incoming[n - 1]) <= streams.Keys;
      }
      hide Dispatch, Undisturbed, AllHaveStreams, Acks, Targets, Scan;
      UndisturbedParts(before, a, subs);
      UndisturbedDispatch(p, incoming, a);
      attempts := before + [a];
      assert DropLast(attempts) == before;
    }
  }

  /**
    The first n incoming messages can all be acknowledged exactly if every subscription they go to
    has its stream: one record without a stream keeps everything behind a message for it from
    everybody.
   */
  lemma {:induction false} QueueAdvancesExactlyWhen(incoming: seq<Message>, subs: seq<Subscription>, streams: Streams,
                                                    n: nat)
    requires n <= |incoming|
    ensures (exists attempts :: Undisturbed(attempts, subs) && DispatchAll(incoming, streams, attempts).acked >= n) <==>
            AllHaveStreams(incoming, subs, streams, n)
  {
    if attempts :| Undisturbed(attempts, subs) && DispatchAll(incoming, streams, attempts).acked >= n {
      StuckBehindMissingStream(incoming, subs, streams, attempts);
    }
    if AllHaveStreams(incoming, subs, streams, n) {
      var attempts := AllDispatched(incoming, subs, streams, n);
    }
  }

  // ---------- The lists a process uses ----------

  /**
    What surrounds one delivery: the content of the subscription bucket, whether a running
    dispatcher has noticed it, the changes it notices during the sends, the streams created and
    deleted before, and the number of calls that succeed.
   */
  datatype Surroundings = Surroundings(
    list: seq<Subscription>,
    noticed: bool,
    watched: map<nat, seq<Subscription>>,
    created: set<string>,
    deleted: set<string>,
    budget: nat)

  predicate DistinctLists(r: Surroundings) {
    DistinctNames(r.list) && forall list :: list in r.watched.Values ==> DistinctNames(list)
  }

  /** The list a process goes on with after a delivery that did not end it. */
  function KnownAfter(p: Progress, incoming: seq<Message>, a: Attempt, r: Surroundings): seq<Subscription> {
    if p.acked >= |incoming| then a.subs
    else Installed(a.subs, r.watched, |Scan(a.subs, incoming[p.acked].realm, incoming[p.acked].topic)|)
  }

  /** Before the first delivery, and after one that failed, there is no process; otherwise the list it knows. */
  function Known(attempts: seq<Attempt>, rounds: seq<Surroundings>, incoming: seq<Message>, streams: Streams)
    : Option<seq<Subscription>>
    requires |attempts| <= |rounds|
  {
    if attempts == [] then None
    else
      var p := DispatchAll(incoming, streams, DropLast(attempts));
      if p.acked < |incoming| && DispatchAll(incoming, streams, attempts).acked == p.acked then None
      else Some(KnownAfter(p, incoming, Last(attempts), rounds[|attempts| - 1]))
  }

  /** A process that starts reads the bucket, and so does one that is told of a change. */
  function InUse(known: Option<seq<Subscription>>, r: Surroundings): seq<Subscription> {
    if known.None? || r.noticed then r.list else known.value
  }

  ghost predicate FollowsAt(attempts: seq<Attempt>, rounds: seq<Surroundings>, incoming: seq<Message>,
                            streams: Streams, i: nat)
    requires i < |attempts| == |rounds|
  {
    var a, r := attempts[i], rounds[i];
    && a.created == r.created && a.deleted == r.deleted && a.budget == r.budget
    && a.subs == InUse(Known(attempts[..i], rounds, incoming, streams), r)
  }

  /** Every delivery uses the list that its process has last read. */
  ghost predicate Follows(attempts: seq<Attempt>, rounds: seq<Surroundings>, incoming: seq<Message>, streams: Streams) {
    && |attempts| == |rounds|
    && forall i :: 0 <= i < |rounds| ==> FollowsAt(attempts, rounds, incoming, streams, i)
  }

  lemma FollowsSnoc(attempts: seq<Attempt>, rounds: seq<Surroundings>, incoming: seq<Message>, streams: Streams,
                    a: Attempt, r: Surroundings)
    requires Follows(attempts, rounds, incoming, streams)
    requires a.created == r.created && a.deleted == r.deleted && a.budget == r.budget
    requires a.subs == InUse(Known(attempts, rounds, incoming, streams), r)
    ensures Follows(attempts + [a], rounds + [r], incoming, streams)
  {
    hide InUse, DispatchAll, KnownAfter;
    forall i | 0 <= i < |rounds| + 1
      ensures FollowsAt(attempts + [a], rounds + [r], incoming, streams, i)
    {
      if i < |rounds| {
        assert (attempts + [a])[..i] == attempts[..i];
        assert FollowsAt(attempts, rounds, incoming, streams, i);
      } else {
        assert (attempts + [a])[..i] == attempts;
      }
    }
  }

  /** A list of distinct names that has the subscription. */
  ghost predicate Listed(subs: seq<Subscription>, sub: Subscription) {
    DistinctNames(subs) && Lists(subs, sub)
  }

  /** The subscription is in the bucket at all times of the delivery, and its stream is not deleted. */
  ghost predicate Stays(r: Surroundings, sub: Subscription) {
    && Listed(r.list, sub) && sub.name !in r.deleted
    && forall list :: list in r.watched.Values ==> Listed(list, sub)
  }

  lemma KnownStaysListed(p: Progress, incoming: seq<Message>, a: Attempt, r: Surroundings, sub: Subscription)
    requires Listed(a.subs, sub) && Stays(r, sub)
    ensures Listed(KnownAfter(p, incoming, a, r), sub)
  {
    hide Listed;
    if p.acked < |incoming| {
      InstalledFrom(a.subs, r.watched, |Scan(a.subs, incoming[p.acked].realm, incoming[p.acked].topic)|);
    }
  }

  /**
    From the first delivery whose process has just read a list with the subscription, the
    subscription is among those in use as long as it stays in the bucket.
   */
  lemma {:induction false} ListedFromThen(attempts: seq<Attempt>, rounds: seq<Surroundings>, incoming: seq<Message>,
                                          streams: Streams, sub: Subscription, k: nat, i: nat)
    requires Follows(attempts, rounds, incoming, streams) && k <= i < |rounds|
    requires rounds[k].noticed || Known(attempts[..k], rounds, incoming, streams).None?
    requires forall x :: k <= x < |rounds| ==> Stays(rounds[x], sub)
    ensures Keeps(attempts[i], sub)
  {
    hide Known, KnownAfter, DispatchAll, Lists, DistinctNames;
    assert FollowsAt(attempts, rounds, incoming, streams, i) && Stays(rounds[i], sub);
    if i > k {
      ListedFromThen(attempts, rounds, incoming, streams, sub, k, i - 1);
      var init := attempts[..i];
      assert DropLast(init) == attempts[..i - 1] && Last(init) == attempts[i - 1];
      KnownIs(init, rounds, incoming, streams);
      KnownStaysListed(DispatchAll(incoming, streams, DropLast(init)), incoming, Last(init), rounds[i - 1], sub);
    }
  }

  lemma KnownIs(attempts: seq<Attempt>, rounds: seq<Surroundings>, incoming: seq<Message>, streams: Streams)
    requires attempts != [] && |attempts| <= |rounds|
    ensures var known := Known(attempts, rounds, incoming, streams);
            known.None? || known.value == KnownAfter(DispatchAll(incoming, streams, DropLast(attempts)), incoming,
                                                     Last(attempts), rounds[|attempts| - 1])
  {
  }

  /**
    A subscription that comes while the dispatcher runs: once a process has read a list with it
    (in the k-th delivery), and its empty stream is there (in the j-th, or already before), its main
    subject is the incoming queue from there on, filtered by its topics, for as long as it stays.
   */
  lemma {:induction false} ServedFromThen(attempts: seq<Attempt>, rounds: seq<Surroundings>, incoming: seq<Message>,
                                          streams: Streams, sub: Subscription, k: nat, j: nat)
    requires Follows(attempts, rounds, incoming, streams) && k <= j < |rounds|
    requires rounds[k].noticed || Known(attempts[..k], rounds, incoming, streams).None?
    requires forall x :: k <= x < |rounds| ==> Stays(rounds[x], sub)
    requires var begun := Begun(DispatchAll(incoming, streams, attempts[..j]), attempts[j]).streams;
             sub.name in begun && begun[sub.name] == []
    ensures InOrder(DispatchAll(incoming, streams, attempts), incoming,
                    DispatchAll(incoming, streams, attempts[..j]).acked, sub)
  {
    hide DispatchAll, Known, Follows, Keeps, Stays, Begun;
    assert |attempts| == |rounds| by { FollowsLength(attempts, rounds, incoming, streams); }
    forall i | j <= i < |attempts|
      ensures Keeps(attempts[i], sub)
    {
      ListedFromThen(attempts, rounds, incoming, streams, sub, k, i);
    }
    FanOutFromThen(incoming, streams, attempts, j, sub);
  }

  lemma FollowsLength(attempts: seq<Attempt>, rounds: seq<Surroundings>, incoming: seq<Message>, streams: Streams)
    requires Follows(attempts, rounds, incoming, streams)
    ensures |attempts| == |rounds|
  {
  }

  /** The list was the content of the bucket at some time. */
  ghost predicate WasList(list: seq<Subscription>, rounds: seq<Surroundings>) {
    exists r :: r in rounds && (list == r.list || list in r.watched.Values)
  }

  /** Every list that is used for a lookup was the content of the bucket at some time before. */
  lemma {:induction false} EveryListWasThere(attempts: seq<Attempt>, rounds: seq<Surroundings>,
                                             incoming: seq<Message>, streams: Streams, i: nat)
    requires Follows(attempts, rounds, incoming, streams) && i < |rounds|
    ensures WasList(attempts[i].subs, rounds[..i + 1])
    ensures (forall r :: r in rounds ==> DistinctLists(r)) ==> DistinctNames(attempts[i].subs)
  {
    hide Known, KnownAfter, DispatchAll, DistinctNames, DistinctLists;
    assert FollowsAt(attempts, rounds, incoming, streams, i);
    assert rounds[i] in rounds[..i + 1];
    if i > 0 {
      EveryListWasThere(attempts, rounds, incoming, streams, i - 1);
      var init := attempts[..i];
      assert DropLast(init) == attempts[..i - 1] && Last(init) == attempts[i - 1];
      KnownIs(init, rounds, incoming, streams);
      KnownWasList(DispatchAll(incoming, streams, DropLast(init)), incoming, Last(init), rounds, i - 1);
      WasListStill(InUse(Known(init, rounds, incoming, streams), rounds[i]), rounds, i);
    } else {
      NothingKnown(rounds, incoming, streams);
      assert attempts[..0] == [];
    }
    if forall r :: r in rounds ==> DistinctLists(r) {
      WasListIsDistinct(attempts[i].subs, rounds[..i + 1]);
    }
  }

  lemma WasListIsDistinct(list: seq<Subscription>, rounds: seq<Surroundings>)
    requires WasList(list, rounds) && forall r :: r in rounds ==> DistinctLists(r)
    ensures DistinctNames(list)
  {
  }

  lemma NothingKnown(rounds: seq<Surroundings>, incoming: seq<Message>, streams: Streams)
    ensures Known([], rounds, incoming, streams) == None
  {
  }

  lemma KnownWasList(p: Progress, incoming: seq<Message>, a: Attempt, rounds: seq<Surroundings>, i: nat)
    requires i < |rounds| && WasList(a.subs, rounds[..i + 1])
    ensures WasList(KnownAfter(p, incoming, a, rounds[i]), rounds[..i + 1])
  {
    if p.acked < |incoming| {
      InstalledFrom(a.subs, rounds[i].watched, |Scan(a.subs, incoming[p.acked].realm, incoming[p.acked].topic)|);
      assert rounds[i] in rounds[..i + 1];
    }
  }

  lemma WasListStill(list: seq<Subscription>, rounds: seq<Surroundings>, i: nat)
    requires i < |rounds|
    ensures WasList(list, rounds[..i]) || list == rounds[i].list ==> WasList(list, rounds[..i + 1])
  {
    assert rounds[i] in rounds[..i + 1] && forall r :: r in rounds[..i] ==> r in rounds[..i + 1];
  }

  // ---------- The service ----------

  /**
    One round of the dispatcher's loop. A process that starts reads the subscriptions; a running
    one reads them again when it is told of a change, and then waits for a message.
   */
  method DispatchNext(service: DispatcherService, incoming: seq<Message>, acked: nat, running: bool, r: Surroundings)
    returns (acked': nat, running': bool, ghost a: Attempt)
    requires DistinctLists(r)
    requires running ==> service.Valid()
    modifies service, service.port
    ensures var p := Progress(acked, old(service.port.streams));
            && Progress(acked', service.port.streams) == Dispatch(p, incoming, a)
            && (running' ==> service.Valid() && service.known == KnownAfter(p, incoming, a, r))
    ensures running' <==> acked >= |incoming| || acked' > acked
    ensures a.created == r.created && a.deleted == r.deleted && a.budget == r.budget
    ensures !running || r.noticed ==> a.subs == r.list
    ensures running && !r.noticed ==> a.subs == old(service.known)
  {
    hide Dispatch;
    acked', running' := acked, true;
    ghost var p := Progress(acked, service.port.streams);
    service.port.Change(r.created, r.deleted);
    service.port.Restart(r.budget);
    if !running || r.noticed {
      service.UpdateSubscriptionsMapping(r.list);
    }
    a := Attempt(service.known, r.created, r.deleted, r.budget, {});
    if acked >= |incoming| {
      DispatchNothing(p, incoming, a);
      return;
    }
    ghost var sent := {};
    running', sent := service.HandleMessage(Delivery(acked, incoming[acked]), r.watched);
    a := a.(sent := sent);
    DispatchIs(p, incoming, a);
    assert sent * Targets(a.subs, incoming[acked]) == sent;
    acked' := if running' then acked + 1 else acked;
  }

  /** The dispatcher's loop over any number of deliveries. */
  method DispatchEvents(service: DispatcherService, incoming: seq<Message>, rounds: seq<Surroundings>)
    returns (acked: nat, ghost attempts: seq<Attempt>)
    requires forall r :: r in rounds ==> DistinctLists(r)
    modifies service, service.port
    ensures Progress(acked, service.port.streams) == DispatchAll(incoming, old(service.port.streams), attempts)
    ensures Follows(attempts, rounds, incoming, old(service.port.streams))
  {
    acked, attempts := 0, [];
    ghost var streams := service.port.streams;
    var running := false;
    for i := 0 to |rounds|
      invariant Progress(acked, service.port.streams) == DispatchAll(incoming, streams, attempts)
      invariant Follows(attempts, rounds[..i], incoming, streams)
      invariant running ==> service.Valid()
      invariant Known(attempts, rounds[..i], incoming, streams) == if running then Some(service.known) else None
    {
      hide Dispatch, Follows, KnownAfter;
      var r := rounds[i];
      ghost var before, a := attempts, Attempt([], {}, {}, 0, {});
      FollowsLength(attempts, rounds[..i], incoming, streams);
      acked, running, a := DispatchNext(service, incoming, acked, running, r);
      attempts := before + [a];
      assert DropLast(attempts) == before && rounds[..i + 1] == rounds[..i] + [r];
      FollowsSnoc(before, rounds[..i], incoming, streams, a, r);
    }
    assert rounds[..|rounds|] == rounds;
  }

  lemma DispatchIs(p: Progress, incoming: seq<Message>, a: Attempt)
    requires p.acked < |incoming|
    ensures var streams, d := Changed(p.streams, a.created, a.deleted), Delivery(p.acked, incoming[p.acked]);
            Dispatch(p, incoming, a) ==
            if Acks(streams, a, d.message) then Progress(p.acked + 1, Publish(streams, Targets(a.subs, d.message), d))
            else Progress(p.acked, Publish(streams, a.sent * Targets(a.subs, d.message), d))
  {
  }

  lemma DispatchNothing(p: Progress, incoming: seq<Message>, a: Attempt)
    requires p.acked >= |incoming|
    ensures Dispatch(p, incoming, a) == Progress(p.acked, Changed(p.streams, a.created, a.deleted))
  {
  }
}
