/**
  The whole pipeline: LDAP changes, transformer, incoming queue, dispatcher, a subscription's two
  subjects, the gate, and the callbacks of a consumer.
 */
module EndToEnd {
  import opened Models
  import opened Sequences
  import opened Replica
  import opened JetStream
  import opened Subscriber
  import Dispatcher
  import FanOut
  import Gate
  import GateOrder
  import GateRuns
  import Handler
  import T = Transformer
  import Convergence
  import Prefill
  import PrefillRetry
  import MovingFill

  // ---------- The transformer's events ----------

  /** An entry is represented under the same type throughout its life. */
  ghost predicate StableTypes(t: T.Transform, typeOf: string -> string) {
    forall e :: t(e).Representation? ==> t(e).obj.objectType == typeOf(e.entryUUID)
  }

  ghost predicate AllFollowTypes(events: seq<Message>, typeOf: string -> string) {
    forall e :: e in events ==> FollowsTypes(e, typeOf)
  }

  lemma AttemptFollowsTypes(w: T.World, c: T.Change, t: T.Transform, typeOf: string -> string, budget: nat)
    requires Convergence.KeepsUuids(t) && StableTypes(t, typeOf)
    requires AllFollowTypes(w.events, typeOf) && HeldByType(w.cache, typeOf)
    ensures var w' := T.Attempt(w, c, t, budget);
            AllFollowTypes(w'.events, typeOf) && HeldByType(w'.cache, typeOf)
  {
  }

  lemma {:induction false} EventsFollowTypes(changes: seq<T.Change>, t: T.Transform, typeOf: string -> string,
                                             budgets: seq<nat>)
    requires Convergence.KeepsUuids(t) && StableTypes(t, typeOf)
    ensures var w := T.Deliveries(changes, t, budgets).world;
            AllFollowTypes(w.events, typeOf) && HeldByType(w.cache, typeOf)
  {
    if budgets != [] {
      EventsFollowTypes(changes, t, typeOf, DropLast(budgets));
      var p := T.Deliveries(changes, t, DropLast(budgets));
      if p.acked < |changes| {
        AttemptFollowsTypes(p.world, changes[p.acked], t, typeOf, Last(budgets));
      }
    }
  }

  lemma {:induction false} ReplayHeldByType(held: Objects, events: seq<Message>, typeOf: string -> string)
    requires AllFollowTypes(events, typeOf) && HeldByType(held, typeOf)
    ensures HeldByType(Replay(held, events), typeOf)
  {
    if events != [] {
      var init, last := DropLast(events), Last(events);
      assert events == init + [last];
      ReplayHeldByType(held, init, typeOf);
      assert FollowsTypes(last, typeOf);
    }
  }

  lemma {:induction false} ReplayConcat(held: Objects, a: seq<Message>, b: seq<Message>)
    ensures Replay(held, a + b) == Replay(Replay(held, a), b)
  {
    if b == [] {
      assert a + b == a;
    } else {
      ReplayConcat(held, a, DropLast(b));
      assert DropLast(a + b) == a + DropLast(b);
    }
  }

  // ---------- Logs of messages ----------

  function Carried<E>(message: E -> Message, log: seq<E>): seq<Message> {
    if log == [] then [] else Carried(message, DropLast(log)) + [message(Last(log))]
  }

  lemma {:induction false} ReplayCarried<E>(message: E -> Message, held: Objects, log: seq<E>)
    ensures Replay(held, Carried(message, log)) == ReplayBy(message, held, log)
  {
    if log != [] {
      ReplayCarried(message, held, DropLast(log));
      ReplaySnoc(held, Carried(message, DropLast(log)), message(Last(log)));
    }
  }

  lemma {:induction false} MessagesAreCarried(log: seq<Stored>)
    ensures Messages(log) == Carried((e: Stored) => e.message, log)
  {
    if log != [] {
      MessagesAreCarried(DropLast(log));
    }
  }

  lemma {:induction false} MessagesConcat(a: seq<Stored>, b: seq<Stored>)
    ensures Messages(a + b) == Messages(a) + Messages(b)
  {
    if b == [] {
      assert a + b == a;
    } else {
      MessagesConcat(a, DropLast(b));
      assert DropLast(a + b) == a + DropLast(b);
    }
  }

  /** Redeliveries to the consumer make no difference to what it holds. */
  lemma HandedReplay(handed: seq<Stored>, prefill: seq<Stored>, live: seq<Stored>)
    requires Collapse(handed) == prefill + live
    ensures ReplicaOf(Messages(handed)) == Replay(ReplicaOf(Messages(prefill)), Messages(live))
  {
    var message := (e: Stored) => e.message;
    CopiesAreHarmless(message, map[], handed);
    MessagesAreCarried(handed);
    MessagesAreCarried(prefill + live);
    ReplayCarried(message, map[], handed);
    ReplayCarried(message, map[], prefill + live);
    MessagesConcat(prefill, live);
    ReplayConcat(map[], Messages(prefill), Messages(live));
  }

  /** Redeliveries to the dispatcher make no difference either. */
  lemma StreamReplay(stream: seq<Dispatcher.Delivery>, held: Objects, incoming: seq<Message>, sub: Subscription)
    requires Collapse(stream) == FanOut.Routed(incoming, |incoming|, sub)
    ensures Replay(held, Carried((d: Dispatcher.Delivery) => d.message, stream)) ==
            CopyAfter(held, incoming, |incoming|, sub)
  {
    var message := (d: Dispatcher.Delivery) => d.message;
    CopiesAreHarmless(message, held, stream);
    ReplayCarried(message, held, stream);
  }

  // ---------- What a consumer holds in the end ----------

  /**
    Other subscriptions come and go while the incoming queue is emptied. Everything dispatched to
    this one since it was known is on its main subject.
   */
  ghost predicate Dispatched(s: Gate.State, incoming: seq<Message>, streams: Dispatcher.Streams,
                             attempts: seq<FanOut.Attempt>, sub: Subscription) {
    var d := FanOut.DispatchAll(incoming, streams, attempts);
    && sub.name in streams && streams[sub.name] == []
    && (forall a :: a in attempts ==> FanOut.Keeps(a, sub))
    && d.acked == |incoming|
    && sub.name in d.streams
    && Messages(s.mainLog) == Carried((x: Dispatcher.Delivery) => x.message, d.streams[sub.name])
  }

  lemma MainSubjectReplay(s: Gate.State, held: Objects, incoming: seq<Message>, streams: Dispatcher.Streams,
                          attempts: seq<FanOut.Attempt>, sub: Subscription)
    requires Dispatched(s, incoming, streams, attempts, sub)
    ensures Replay(held, Messages(s.mainLog)) == CopyAfter(held, incoming, |incoming|, sub)
  {
    hide CopyAfter;
    FanOut.FanOutInOrder(incoming, streams, attempts, sub);
    StreamReplay(FanOut.DispatchAll(incoming, streams, attempts).streams[sub.name], held, incoming, sub);
  }

  /**
    The events `earlier` were dispatched before the subscription was known to the dispatcher, the
    events `incoming` after it. Once the LDAP queue, the incoming queue and both of its subjects
    are empty, a consumer whose prefill was read along the incoming events holds exactly the
    subscription's part of the directory.
   */
  lemma {:induction false} ConsumerConverges(changes: seq<T.Change>, t: T.Transform, typeOf: string -> string,
                                             budgets: seq<nat>, earlier: seq<Message>, incoming: seq<Message>,
                                             streams: Dispatcher.Streams, attempts: seq<FanOut.Attempt>,
                                             sub: Subscription, requestPrefill: bool, steps: seq<Gate.Step>,
                                             cfg: Gate.Config)
    requires Convergence.ValidLog(changes) && Convergence.KeepsUuids(t) && Convergence.NamesTypes(t)
    requires StableTypes(t, typeOf)
    requires T.Deliveries(changes, t, budgets).acked == |changes|
    requires T.Deliveries(changes, t, budgets).world.events == earlier + incoming
    requires cfg.ackLands && GateRuns.HonestRun(Gate.Init(requestPrefill), steps, cfg)
    requires var s := Gate.RunSteps(Gate.Init(requestPrefill), steps, cfg);
             && Dispatched(s, incoming, streams, attempts, sub)
             && s.sub.status == Done && s.sub.stream.entries == []
             && ReadAlong(ReplicaOf(Messages(s.filled)), ReplicaOf(earlier), incoming, sub)
    ensures var s := Gate.RunSteps(Gate.Init(requestPrefill), steps, cfg);
            ReplicaOf(Messages(s.handed)) == Part(Convergence.View(changes, t), sub)
  {
    hide CopyAfter, Part, Convergence.View, ReadAlong, Gate.RunSteps, Replay, Messages, T.Deliveries, FollowsTypes,
         GateRuns.HonestRun, Convergence.ValidLog;
    var s := Gate.RunSteps(Gate.Init(requestPrefill), steps, cfg);
    var snapshot := ReplicaOf(Messages(s.filled));
    GateRuns.EverythingHanded(requestPrefill, steps, cfg);
    HandedReplay(s.handed, s.filled, s.mainLog);
    MainSubjectReplay(s, snapshot, incoming, streams, attempts, sub);
    EventsFollowTypes(changes, t, typeOf, budgets);
    EarlierHeldByType(earlier, incoming, typeOf);
    SnapshotWhileEventsArrive(snapshot, ReplicaOf(earlier), incoming, sub, typeOf);
    ReplayConcat(map[], earlier, incoming);
    Convergence.ConvergesAtTheEnd(changes, t, budgets);
  }

  lemma EarlierHeldByType(earlier: seq<Message>, incoming: seq<Message>, typeOf: string -> string)
    requires AllFollowTypes(earlier + incoming, typeOf)
    ensures AllFollowTypes(incoming, typeOf) && HeldByType(ReplicaOf(earlier), typeOf)
  {
    hide FollowsTypes;
    assert forall e :: e in earlier ==> e in earlier + incoming;
    assert forall e :: e in incoming ==> e in earlier + incoming;
    NothingHeld(typeOf);
    ReplayHeldByType(map[], earlier, typeOf);
  }

  /** The calls are the worker's, and each of them finds the directory as it is after some of the incoming events. */
  ghost predicate ReadsAlong(topics: seq<Prefill.Call>, urlOf: UdmObject -> string, matches: Prefill.Matches,
                             sub: Subscription, held: Objects, incoming: seq<Message>) {
    exists dirs ::
      && topics == Prefill.TopicsCalls(dirs, 1, matches, sub.realmsTopics)
      && MovingFill.Along(dirs, urlOf, held, incoming) && MovingFill.LiteralTopics(dirs, matches, sub)
  }

  /** Every attempt at the prefill reads along the incoming events. */
  ghost predicate AttemptsReadAlong(steps: seq<Gate.Step>, urlOf: UdmObject -> string, matches: Prefill.Matches,
                                    sub: Subscription, held: Objects, incoming: seq<Message>) {
    forall i :: 0 <= i < |steps| && steps[i].WorkerFetch? ==>
      ReadsAlong(steps[i].topics, urlOf, matches, sub, held, incoming)
  }

  /** The fill on the prefill subject when done is reported is that of one attempt. */
  lemma {:induction false} ReportedFill(steps: seq<Gate.Step>, cfg: Gate.Config, urlOf: UdmObject -> string,
                                        matches: Prefill.Matches, sub: Subscription, held: Objects,
                                        incoming: seq<Message>)
    returns (dirs: Prefill.Directories)
    requires cfg.ackLands && Gate.RunSteps(Gate.Init(true), steps, cfg).sub.status == Done
    requires AttemptsReadAlong(steps, urlOf, matches, sub, held, incoming)
    ensures Messages(Gate.RunSteps(Gate.Init(true), steps, cfg).filled) ==
            PrefillRetry.Published(Prefill.TopicsCalls(dirs, 1, matches, sub.realmsTopics))
    ensures MovingFill.Along(dirs, urlOf, held, incoming) && MovingFill.LiteralTopics(dirs, matches, sub)
  {
    hide MovingFill.Along, MovingFill.LiteralTopics, Prefill.TopicsCalls, PrefillRetry.Published, Gate.RunSteps,
         Messages;
    var s := Gate.RunSteps(Gate.Init(true), steps, cfg);
    GateOrder.EveryRunKeeps(true, steps, cfg);
    GateRuns.EveryRunKeepsPlan(true, steps, cfg);
    var i :| 0 <= i < |steps| && GateRuns.Plans(steps[i], s.filledBy);
    assert ReadsAlong(steps[i].topics, urlOf, matches, sub, held, incoming);
    dirs :| && steps[i].topics == Prefill.TopicsCalls(dirs, 1, matches, sub.realmsTopics)
            && MovingFill.Along(dirs, urlOf, held, incoming)
            && MovingFill.LiteralTopics(dirs, matches, sub);
  }

  lemma {:induction false} ReportedFillReadsAlong(steps: seq<Gate.Step>, cfg: Gate.Config,
                                                  urlOf: UdmObject -> string, matches: Prefill.Matches,
                                                  sub: Subscription, held: Objects, incoming: seq<Message>,
                                                  typeOf: string -> string)
    requires cfg.ackLands && Gate.RunSteps(Gate.Init(true), steps, cfg).sub.status == Done
    requires MovingFill.UrlsNameTypes(urlOf) && AttemptsReadAlong(steps, urlOf, matches, sub, held, incoming)
    requires AllFollowTypes(incoming, typeOf) && HeldByType(held, typeOf)
    ensures ReadAlong(ReplicaOf(Messages(Gate.RunSteps(Gate.Init(true), steps, cfg).filled)), held, incoming, sub)
  {
    hide ReadAlong, ReplicaOf, MovingFill.Along, MovingFill.LiteralTopics, MovingFill.UrlsNameTypes,
         AttemptsReadAlong, Prefill.TopicsCalls, PrefillRetry.Published, FollowsTypes, HeldByType, Gate.RunSteps,
         Messages;
    var dirs := ReportedFill(steps, cfg, urlOf, matches, sub, held, incoming);
    MovingFill.FillReadsAlong(dirs, 1, urlOf, matches, sub, held, incoming, typeOf);
  }

  /**
    The headline. The prefill worker reads the directory call by call while it changes, any number
    of times, in attempts cut off anywhere; the transformer, the dispatcher, the API and the
    consumer fail and repeat as they like. Once all queues are empty, what a consumer has built from
    the messages it was handed is exactly its subscription's part of the LDAP directory.
   */
  lemma {:induction false} ConsumerHoldsItsPart(changes: seq<T.Change>, t: T.Transform, typeOf: string -> string,
                                                budgets: seq<nat>, earlier: seq<Message>, incoming: seq<Message>,
                                                streams: Dispatcher.Streams, attempts: seq<FanOut.Attempt>,
                                                sub: Subscription, urlOf: UdmObject -> string,
                                                matches: Prefill.Matches, steps: seq<Gate.Step>, cfg: Gate.Config)
    requires Convergence.ValidLog(changes) && Convergence.KeepsUuids(t) && Convergence.NamesTypes(t)
    requires StableTypes(t, typeOf)
    requires T.Deliveries(changes, t, budgets).acked == |changes|
    requires T.Deliveries(changes, t, budgets).world.events == earlier + incoming
    requires cfg.ackLands && GateRuns.HonestRun(Gate.Init(true), steps, cfg)
    requires MovingFill.UrlsNameTypes(urlOf)
    requires AttemptsReadAlong(steps, urlOf, matches, sub, ReplicaOf(earlier), incoming)
    requires var s := Gate.RunSteps(Gate.Init(true), steps, cfg);
             && Dispatched(s, incoming, streams, attempts, sub)
             && s.sub.status == Done && s.sub.stream.entries == []
    ensures var s := Gate.RunSteps(Gate.Init(true), steps, cfg);
            ReplicaOf(Messages(s.handed)) == Part(Convergence.View(changes, t), sub)
  {
    hide Part, Convergence.View, ReadAlong, Gate.RunSteps, ReplicaOf, Messages, T.Deliveries, FollowsTypes,
         GateRuns.HonestRun, Convergence.ValidLog, AttemptsReadAlong, MovingFill.UrlsNameTypes, Dispatched;
    EventsFollowTypes(changes, t, typeOf, budgets);
    EarlierHeldByType(earlier, incoming, typeOf);
    ReportedFillReadsAlong(steps, cfg, urlOf, matches, sub, ReplicaOf(earlier), incoming, typeOf);
    ConsumerConverges(changes, t, typeOf, budgets, earlier, incoming, streams, attempts, sub, true, steps, cfg);
  }

  // ---------- Without the assumption that objects keep their types ----------

  ghost predicate AllWellFormed(events: seq<Message>) {
    forall e :: e in events ==> WellFormed(e)
  }

  lemma AttemptWellFormed(w: T.World, c: T.Change, t: T.Transform, budget: nat)
    requires AllWellFormed(w.events)
    ensures AllWellFormed(T.Attempt(w, c, t, budget).events)
  {
  }

  lemma {:induction false} EventsWellFormed(changes: seq<T.Change>, t: T.Transform, budgets: seq<nat>)
    ensures AllWellFormed(T.Deliveries(changes, t, budgets).world.events)
  {
    if budgets != [] {
      EventsWellFormed(changes, t, DropLast(budgets));
      var p := T.Deliveries(changes, t, DropLast(budgets));
      hide AllWellFormed, T.Attempt;
      if p.acked < |changes| {
        AttemptWellFormed(p.world, changes[p.acked], t, Last(budgets));
      }
    }
  }

  lemma {:induction false} ReplayHeldByUuid(held: Objects, events: seq<Message>)
    requires MovingFill.HeldByUuid(held)
    ensures MovingFill.HeldByUuid(Replay(held, events))
  {
    if events != [] {
      ReplayHeldByUuid(held, DropLast(events));
    }
  }

  /** No event is about the object, or the reported fill is right about it. */
  lemma ReportedFillStartsWell(steps: seq<Gate.Step>, cfg: Gate.Config, urlOf: UdmObject -> string,
                               matches: Prefill.Matches, sub: Subscription, held: Objects, incoming: seq<Message>,
                               u: string)
    requires cfg.ackLands && Gate.RunSteps(Gate.Init(true), steps, cfg).sub.status == Done
    requires MovingFill.UrlsNameTypes(urlOf) && AttemptsReadAlong(steps, urlOf, matches, sub, held, incoming)
    requires AllWellFormed(incoming) && MovingFill.HeldByUuid(held)
    ensures StartsWell(ReplicaOf(Messages(Gate.RunSteps(Gate.Init(true), steps, cfg).filled)), held, incoming,
                       |incoming|, sub, u)
  {
    hide ReplicaOf, MovingFill.Along, MovingFill.LiteralTopics, MovingFill.UrlsNameTypes, MovingFill.HeldByUuid,
         Prefill.TopicsCalls, PrefillRetry.Published, Gate.RunSteps, Messages, WellFormed, Part;
    var s := Gate.RunSteps(Gate.Init(true), steps, cfg);
    if LastAbout(incoming, |incoming|, u).None? {
      var dirs := ReportedFill(steps, cfg, urlOf, matches, sub, held, incoming);
      NeverMentioned(held, incoming, |incoming|, sub, u);
      MovingFill.FillShowsWhatStays(dirs, 1, urlOf, matches, sub, held, incoming, u);
    }
  }

  /**
    The headline without the assumption that objects keep their types: what a consumer has built in
    the end is its subscription's part of the directory exactly if every object whose last event
    goes to another topic is not in its copy by then.
   */
  lemma {:induction false} ConsumerHoldsItsPartExactlyWhen(changes: seq<T.Change>, t: T.Transform,
                                                           budgets: seq<nat>, earlier: seq<Message>,
                                                           incoming: seq<Message>, streams: Dispatcher.Streams,
                                                           attempts: seq<FanOut.Attempt>, sub: Subscription,
                                                           urlOf: UdmObject -> string, matches: Prefill.Matches,
                                                           steps: seq<Gate.Step>, cfg: Gate.Config)
    requires Convergence.ValidLog(changes) && Convergence.KeepsUuids(t) && Convergence.NamesTypes(t)
    requires T.Deliveries(changes, t, budgets).acked == |changes|
    requires T.Deliveries(changes, t, budgets).world.events == earlier + incoming
    requires cfg.ackLands && GateRuns.HonestRun(Gate.Init(true), steps, cfg)
    requires MovingFill.UrlsNameTypes(urlOf)
    requires AttemptsReadAlong(steps, urlOf, matches, sub, ReplicaOf(earlier), incoming)
    requires var s := Gate.RunSteps(Gate.Init(true), steps, cfg);
             && Dispatched(s, incoming, streams, attempts, sub)
             && s.sub.status == Done && s.sub.stream.entries == []
    ensures var s := Gate.RunSteps(Gate.Init(true), steps, cfg);
            ReplicaOf(Messages(s.handed)) == Part(Convergence.View(changes, t), sub) <==>
            forall u :: LeavesWell(ReplicaOf(Messages(s.filled)), incoming, |incoming|, sub, u)
  {
    hide CopyAfter, Part, Convergence.View, Gate.RunSteps, Replay, Messages, T.Deliveries, GateRuns.HonestRun,
         Convergence.ValidLog, AttemptsReadAlong, MovingFill.UrlsNameTypes, Dispatched, StartsWell, LeavesWell,
         AllWellFormed, WellFormed;
    var s := Gate.RunSteps(Gate.Init(true), steps, cfg);
    var snapshot, held := ReplicaOf(Messages(s.filled)), ReplicaOf(earlier);
    GateRuns.EverythingHanded(true, steps, cfg);
    HandedReplay(s.handed, s.filled, s.mainLog);
    MainSubjectReplay(s, snapshot, incoming, streams, attempts, sub);
    ReplayConcat(map[], earlier, incoming);
    Convergence.ConvergesAtTheEnd(changes, t, budgets);
    EventsWellFormed(changes, t, budgets);
    LaterWellFormed(earlier, incoming);
    ReplayHeldByUuid(map[], earlier);
    forall u
      ensures StartsWell(snapshot, held, incoming, |incoming|, sub, u)
    {
      ReportedFillStartsWell(steps, cfg, urlOf, matches, sub, held, incoming, u);
    }
    SettlesExactlyWhen(snapshot, held, incoming, sub);
  }

  lemma SettlesExactlyWhen(snapshot: Objects, held: Objects, incoming: seq<Message>, sub: Subscription)
    requires AllWellFormed(incoming)
    requires forall u :: StartsWell(snapshot, held, incoming, |incoming|, sub, u)
    ensures CopyAfter(snapshot, incoming, |incoming|, sub) == Part(Replay(held, incoming), sub) <==>
            forall u :: LeavesWell(snapshot, incoming, |incoming|, sub, u)
  {
    hide CopyAfter, Part, Replay, StartsWell, LeavesWell, WellFormed;
    SnapshotSettlesExactlyWhen(snapshot, held, incoming, sub);
  }

  lemma LaterWellFormed(earlier: seq<Message>, incoming: seq<Message>)
    requires AllWellFormed(earlier + incoming)
    ensures AllWellFormed(incoming)
  {
    hide WellFormed;
    assert forall e :: e in incoming ==> e in earlier + incoming;
  }

  lemma NothingHeld(typeOf: string -> string)
    ensures HeldByType(map[], typeOf)
  {
  }

  // ---------- What a callback sees ----------

  lemma {:induction false} CollapsePrefix<E>(a: seq<E>, b: seq<E>)
    requires a <= b
    ensures Collapse(a) <= Collapse(b)
  {
    if a != b {
      CollapsePrefix(a, DropLast(b));
    }
  }

  /**
    Whatever acknowledgements fail, every callback is called with a prefix of the prefill followed
    by the live messages, redeliveries collapsed, and the handler only acknowledges what it was given.
   */
  lemma {:induction false} CallbacksSeeTheOrder(requestPrefill: bool, steps: seq<Gate.Step>, cfg: Gate.Config,
                                                env: Handler.Environment, settings: Handler.Settings, n: nat,
                                                callback: nat)
    requires cfg.ackLands && GateRuns.HonestRun(Gate.Init(requestPrefill), steps, cfg)
    requires callback < settings.callbacks
    requires Handler.Received(Handler.Rounds(env, settings, n).log) ==
             Gate.RunSteps(Gate.Init(requestPrefill), steps, cfg).handed
    ensures var s, log := Gate.RunSteps(Gate.Init(requestPrefill), steps, cfg), Handler.Rounds(env, settings, n).log;
            && Collapse(Handler.SeenBy(log, callback)) <= s.filled + s.mainLog
            && (forall k :: 0 <= k < |log| && log[k].AckTried? ==> log[k].message in s.handed)
  {
    hide Collapse, GateRuns.HonestRun;
    var s, session := Gate.RunSteps(Gate.Init(requestPrefill), steps, cfg), Handler.Rounds(env, settings, n);
    GateRuns.OrderKeptIfHonest(requestPrefill, steps, cfg);
    Handler.EveryRunHandles(env, settings, n);
    CollapsePrefix(Handler.SeenBy(session.log, callback), s.handed);
    forall k | 0 <= k < |session.log| && session.log[k].AckTried?
      ensures session.log[k].message in s.handed
    {
      Handler.AcksComeLast(env, settings, n, k);
      var p :| Handler.HandledBefore(session.log, session.log[k].message, p, k, settings.callbacks);
      Handler.PolledIsReceived(session.log, p);
    }
  }
}
