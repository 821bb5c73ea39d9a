/** The prefill worker (server/core/prefill/service/udm_prefill.py). */
module Prefill {
  import opened Models
  import opened Sequences
  import opened JetStream

  /** What the UDM REST API answers: the object types, the URLs of a type's objects, and the objects. */
  datatype Directory = Directory(
    objectTypes: seq<string>,
    listing: map<string, seq<string>>,
    objects: map<string, UdmObject>)

  /** The directory may have changed between any two calls: what each call of an attempt would find. */
  type Directories = nat -> Directory

  /** re.fullmatch of a topic pattern and a module name. */
  type Matches = (string, string) -> bool

  datatype SubscriptionState = SubscriptionState(stream: Stream, status: FillQueueStatus)

  /** The subscription, which may have been deleted, the prefill-failures queue, and all calls that succeeded. */
  datatype World = World(sub: Option<SubscriptionState>, failures: seq<PrefillRequest>, made: seq<Call>)

  // ---------- Port calls ----------

  datatype Call =
    | Purge
    | SetStatus(status: FillQueueStatus)
    | GetObjectTypes
    | ListObjects(objectType: string)
    | GetObject(url: string)
    | Publish(message: Message)
    | AddToFailures(request: PrefillRequest)

  /** Calls about a deleted subscription fail, and so do requests for what the directory does not have. */
  predicate Succeeds(call: Call, w: World, dir: Directory) {
    match call
    case Purge => w.sub.Some?
    case SetStatus(_) => w.sub.Some?
    case GetObjectTypes => true
    case ListObjects(objectType) => objectType in dir.listing
    case GetObject(url) => url in dir.objects
    case Publish(_) => w.sub.Some?
    case AddToFailures(_) => true
  }

  function Perform(w: World, call: Call): World {
    World(if w.sub.Some? then Some(PerformOn(w.sub.value, call)) else None,
          if call.AddToFailures? then w.failures + [call.request] else w.failures,
          w.made + [call])
  }

  function PerformOn(s: SubscriptionState, call: Call): SubscriptionState {
    match call
    case Purge => s.(stream := PurgeSubject(s.stream, PrefillSubject))
    case SetStatus(status) => s.(status := status)
    case Publish(m) => s.(stream := Append(s.stream, PrefillSubject, m))
    case _ => s
  }

  /** One attempt: what its calls find, and the number of calls after which the process fails. */
  datatype Attempt = Attempt(dirs: Directories, budget: nat)

  /** Where a sequence of calls has led: how many were made, and whether all of them succeeded. */
  datatype Outcome = Outcome(world: World, tick: nat, ok: bool)

  /** The calls one after the other, from the tick-th of the attempt on, up to the first that fails. */
  function Run(w: World, calls: seq<Call>, a: Attempt, tick: nat): Outcome
    decreases |calls|
  {
    if calls == [] then Outcome(w, tick, true)
    else if tick >= a.budget || !Succeeds(calls[0], w, a.dirs(tick)) then Outcome(w, tick, false)
    else Run(Perform(w, calls[0]), calls[1..], a, tick + 1)
  }

  lemma {:induction false} RunConcat(w: World, first: seq<Call>, second: seq<Call>, a: Attempt, tick: nat)
    ensures var o := Run(w, first, a, tick);
            && Run(w, first + second, a, tick) == (if o.ok then Run(o.world, second, a, o.tick) else o)
            && (o.ok ==> o.tick == tick + |first|)
    decreases |first|
  {
    if first == [] {
      assert first + second == second;
    } else {
      assert (first + second)[1..] == first[1..] + second;
      if tick < a.budget && Succeeds(first[0], w, a.dirs(tick)) {
        RunConcat(Perform(w, first[0]), first[1..], second, a, tick + 1);
      }
    }
  }

  lemma RunNothing(w: World, a: Attempt, tick: nat)
    ensures Run(w, [], a, tick) == Outcome(w, tick, true)
  {
  }

  // ---------- The calls of a request ----------

  function ObjectMessage(objectType: string, obj: UdmObject): Message {
    Message("udm", objectType, Body(None, Some(obj)))
  }

  /** What the calls are depends on the answers of earlier ones; t is the number of calls made before. */
  function ObjectCalls(dirs: Directories, t: nat, objectType: string, url: string): seq<Call> {
    [GetObject(url)] + if url in dirs(t).objects then [Publish(ObjectMessage(objectType, dirs(t).objects[url]))] else []
  }

  function UrlsCalls(dirs: Directories, t: nat, objectType: string, urls: seq<string>): seq<Call>
    decreases |urls|
  {
    if urls == [] then []
    else
      var first := ObjectCalls(dirs, t, objectType, urls[0]);
      first + UrlsCalls(dirs, t + |first|, objectType, urls[1..])
  }

  function TypeCalls(dirs: Directories, t: nat, objectType: string): seq<Call> {
    [ListObjects(objectType)]
    + if objectType in dirs(t).listing then UrlsCalls(dirs, t + 1, objectType, dirs(t).listing[objectType]) else []
  }

  function TypesCalls(dirs: Directories, t: nat, objectTypes: seq<string>): seq<Call>
    decreases |objectTypes|
  {
    if objectTypes == [] then []
    else
      var first := TypeCalls(dirs, t, objectTypes[0]);
      first + TypesCalls(dirs, t + |first|, objectTypes[1..])
  }

  function MatchingTypes(dir: Directory, matches: Matches, topic: string): seq<string> {
    Filter((name: string) => matches(topic, name), dir.objectTypes)
  }

  function FetchCalls(dirs: Directories, t: nat, matches: Matches, topic: string): seq<Call> {
    [GetObjectTypes] + TypesCalls(dirs, t + 1, MatchingTypes(dirs(t), matches, topic))
  }

  function TopicCalls(dirs: Directories, t: nat, matches: Matches, rt: RealmTopic): seq<Call> {
    if rt.realm != "udm" then [] else [SetStatus(Running)] + FetchCalls(dirs, t + 1, matches, rt.topic)
  }

  function TopicsCalls(dirs: Directories, t: nat, matches: Matches, rts: seq<RealmTopic>): seq<Call>
    decreases |rts|
  {
    if rts == [] then []
    else
      var first := TopicCalls(dirs, t, matches, rts[0]);
      first + TopicsCalls(dirs, t + |first|, matches, rts[1..])
  }

  /** A whole attempt: purge what an earlier one left, fill topic by topic, report done. */
  function FillCalls(dirs: Directories, matches: Matches, request: PrefillRequest): seq<Call> {
    [Purge] + TopicsCalls(dirs, 1, matches, request.realmsTopics) + [SetStatus(Done)]
  }

  function GiveUpCalls(request: PrefillRequest): seq<Call> {
    [AddToFailures(request), SetStatus(Failed)]
  }

  /** max_prefill_attempts; -1 means no limit. */
  predicate LimitReached(maxAttempts: int, numDelivered: nat) {
    maxAttempts != -1 && numDelivered > maxAttempts
  }

  function CallsFor(dirs: Directories, matches: Matches, request: PrefillRequest, maxAttempts: int, numDelivered: nat)
    : seq<Call>
  {
    if LimitReached(maxAttempts, numDelivered) then GiveUpCalls(request) else FillCalls(dirs, matches, request)
  }

  // ---------- Deliveries of a request ----------

  /** A request in the prefill queue: how often it was delivered, and whether it is acknowledged. */
  datatype RequestState = RequestState(world: World, delivered: nat, acked: bool)

  /** One delivery; unless every call and the final acknowledgement succeed the request is delivered again. */
  function Deliver(r: RequestState, request: PrefillRequest, matches: Matches, maxAttempts: int, a: Attempt)
    : RequestState
  {
    if r.acked then r
    else
      var n := r.delivered + 1;
      var outcome := Run(r.world, CallsFor(a.dirs, matches, request, maxAttempts, n), a, 0);
      RequestState(outcome.world, n, outcome.ok && outcome.tick < a.budget)
  }

  function Deliveries(w: World, request: PrefillRequest, matches: Matches, maxAttempts: int, attempts: seq<Attempt>)
    : RequestState
  {
    if attempts == [] then RequestState(w, 0, false)
    else Deliver(Deliveries(w, request, matches, maxAttempts, DropLast(attempts)), request, matches, maxAttempts,
                 Last(attempts))
  }

  // ---------- The queue of requests ----------

  /** All subscriptions, the prefill-failures queue, and all calls that succeeded. */
  datatype Store = Store(subs: map<string, SubscriptionState>, failures: seq<PrefillRequest>, made: seq<Call>)

  function WorldOf(s: Store, name: string): World {
    World(Lookup(s.subs, name), s.failures, s.made)
  }

  function Updated(s: Store, name: string, w: World): Store {
    Store(if w.sub.Some? then s.subs[name := w.sub.value] else s.subs, w.failures, w.made)
  }

  /** The requests acknowledged so far, and how often the next one was delivered. */
  datatype QueueState = QueueState(store: Store, served: nat, delivered: nat)

  /** One delivery of the oldest unacknowledged request; there is never more than one in flight. */
  function Serve(q: QueueState, requests: seq<PrefillRequest>, matches: Matches, maxAttempts: int, a: Attempt)
    : QueueState
  {
    if q.served >= |requests| then q
    else
      var request := requests[q.served];
      var name := request.subscriptionName;
      var r := Deliver(RequestState(WorldOf(q.store, name), q.delivered, false), request, matches, maxAttempts, a);
      QueueState(Updated(q.store, name, r.world),
                 if r.acked then q.served + 1 else q.served, if r.acked then 0 else r.delivered)
  }

  function ServeAll(s: Store, requests: seq<PrefillRequest>, matches: Matches, maxAttempts: int, attempts: seq<Attempt>)
    : QueueState
  {
    if attempts == [] then QueueState(s, 0, 0)
    else Serve(ServeAll(s, requests, matches, maxAttempts, DropLast(attempts)), requests, matches, maxAttempts,
               Last(attempts))
  }

  // ---------- The service ----------

  /** The port, as one attempt at a request sees it. */
  class PrefillPort {
    var world: World
    var attempt: Attempt
    var tick: nat

    constructor (world: World, attempt: Attempt)
      ensures this.world == world && this.attempt == attempt && tick == 0
    {
      this.world, this.attempt, tick := world, attempt, 0;
    }

    method Restart(world: World, attempt: Attempt)
      modifies this
      ensures this.world == world && this.attempt == attempt && tick == 0
    {
      this.world, this.attempt, tick := world, attempt, 0;
    }

    function After(ok: bool): Outcome
      reads this
    {
      Outcome(world, tick, ok)
    }

    method Make(call: Call) returns (ok: bool)
      modifies this`world, this`tick
      ensures After(ok) == Run(old(world), [call], attempt, old(tick))
    {
      ok := tick < attempt.budget && Succeeds(call, world, attempt.dirs(tick));
      if ok {
        assert [call][1..] == [];
        world, tick := Perform(world, call), tick + 1;
      }
    }

    method AcknowledgeMessage() returns (ok: bool)
      ensures ok == (tick < attempt.budget)
    {
      ok := tick < attempt.budget;
    }
  }

  class UDMPreFill {
    const port: PrefillPort
    const matchTopic: Matches
    const maxPrefillAttempts: int

    constructor (port: PrefillPort, matchTopic: Matches, maxPrefillAttempts: int)
      ensures this.port == port && this.matchTopic == matchTopic && this.maxPrefillAttempts == maxPrefillAttempts
    {
      this.port, this.matchTopic, this.maxPrefillAttempts := port, matchTopic, maxPrefillAttempts;
    }

    method FillObject(url: string, objectType: string) returns (ok: bool)
      modifies port`world, port`tick
      ensures port.After(ok) ==
              Run(old(port.world), ObjectCalls(port.attempt.dirs, old(port.tick), objectType, url),
                  port.attempt, old(port.tick))
    {
      hide Run;
      var a, t := port.attempt, port.tick;
      ok := port.Make(GetObject(url));
      RunConcat(old(port.world), [GetObject(url)], ObjectCalls(a.dirs, t, objectType, url)[1..], a, t);
      GetObjectFound(old(port.world), url, a, t);
      if !ok {
        return;
      }
      ok := port.Make(Publish(ObjectMessage(objectType, a.dirs(t).objects[url])));
    }

    method FillUdmTopic(objectType: string) returns (ok: bool)
      modifies port`world, port`tick
      ensures port.After(ok) ==
              Run(old(port.world), TypeCalls(port.attempt.dirs, old(port.tick), objectType),
                  port.attempt, old(port.tick))
    {
      hide Run;
      var a, t := port.attempt, port.tick;
      ok := port.Make(ListObjects(objectType));
      RunConcat(old(port.world), [ListObjects(objectType)], TypeCalls(a.dirs, t, objectType)[1..], a, t);
      ListObjectsFound(old(port.world), objectType, a, t);
      if !ok {
        return;
      }
      var urls := a.dirs(t).listing[objectType];
      ghost var all := Run(port.world, UrlsCalls(a.dirs, port.tick, objectType, urls), a, port.tick);
      for i := 0 to |urls|
        invariant port.attempt == a
        invariant all == Run(port.world, UrlsCalls(a.dirs, port.tick, objectType, urls[i..]), a, port.tick)
      {
        ghost var first := ObjectCalls(a.dirs, port.tick, objectType, urls[i]);
        RunConcat(port.world, first, UrlsCalls(a.dirs, port.tick + |first|, objectType, urls[i + 1..]), a, port.tick);
        assert urls[i..][1..] == urls[i + 1..];
        ok := FillObject(urls[i], objectType);
        if !ok {
          return;
        }
      }
      RunNothing(port.world, a, port.tick);
      ok := true;
    }

    method FetchUdm(topic: string) returns (ok: bool)
      modifies port`world, port`tick
      ensures port.After(ok) ==
              Run(old(port.world), FetchCalls(port.attempt.dirs, old(port.tick), matchTopic, topic),
                  port.attempt, old(port.tick))
    {
      hide Run;
      var a, t := port.attempt, port.tick;
      ok := port.Make(GetObjectTypes);
      RunConcat(old(port.world), [GetObjectTypes], FetchCalls(a.dirs, t, matchTopic, topic)[1..], a, t);
      if !ok {
        return;
      }
      var matching := MatchingTypes(a.dirs(t), matchTopic, topic);
      ghost var all := Run(port.world, TypesCalls(a.dirs, port.tick, matching), a, port.tick);
      for i := 0 to |matching|
        invariant port.attempt == a
        invariant all == Run(port.world, TypesCalls(a.dirs, port.tick, matching[i..]), a, port.tick)
      {
        ghost var first := TypeCalls(a.dirs, port.tick, matching[i]);
        RunConcat(port.world, first, TypesCalls(a.dirs, port.tick + |first|, matching[i + 1..]), a, port.tick);
        assert matching[i..][1..] == matching[i + 1..];
        ok := FillUdmTopic(matching[i]);
        if !ok {
          return;
        }
      }
      RunNothing(port.world, a, port.tick);
      ok := true;
    }

    /** One round of the loop over the topics; those of other realms are skipped. */
    method FillTopic(rt: RealmTopic) returns (ok: bool)
      modifies port`world, port`tick
      ensures port.After(ok) ==
              Run(old(port.world), TopicCalls(port.attempt.dirs, old(port.tick), matchTopic, rt),
                  port.attempt, old(port.tick))
    {
      hide Run, FetchCalls;
      ghost var a, t := port.attempt, port.tick;
      RunNothing(port.world, a, t);
      if rt.realm != "udm" {
        return true;
      }
      RunConcat(port.world, [SetStatus(Running)], FetchCalls(a.dirs, t + 1, matchTopic, rt.topic), a, t);
      ok := port.Make(SetStatus(Running));
      if ok {
        ok := FetchUdm(rt.topic);
      }
    }

    /** `_handle_message`: the purge and the topics. */
    method Fill(request: PrefillRequest) returns (ok: bool)
      requires port.tick == 0
      modifies port`world, port`tick
      ensures port.After(ok) ==
              Run(old(port.world), [Purge] + TopicsCalls(port.attempt.dirs, 1, matchTopic, request.realmsTopics),
                  port.attempt, 0)
    {
      hide Run, TopicCalls;
      ghost var a := port.attempt;
      var rts := request.realmsTopics;
      ok := port.Make(Purge);
      RunConcat(old(port.world), [Purge], TopicsCalls(a.dirs, 1, matchTopic, rts), a, 0);
      if !ok {
        return;
      }
      ghost var all := Run(port.world, TopicsCalls(a.dirs, port.tick, matchTopic, rts), a, port.tick);
      for i := 0 to |rts|
        invariant port.attempt == a
        invariant all == Run(port.world, TopicsCalls(a.dirs, port.tick, matchTopic, rts[i..]), a, port.tick)
      {
        ghost var first := TopicCalls(a.dirs, port.tick, matchTopic, rts[i]);
        RunConcat(port.world, first, TopicsCalls(a.dirs, port.tick + |first|, matchTopic, rts[i + 1..]), a, port.tick);
        assert rts[i..][1..] == rts[i + 1..];
        ok := FillTopic(rts[i]);
        if !ok {
          return;
        }
      }
      RunNothing(port.world, a, port.tick);
      ok := true;
    }

    method HandleMessage(request: PrefillRequest, numDelivered: nat) returns (ok: bool)
      requires port.tick == 0
      modifies port`world, port`tick
      ensures port.After(ok) ==
              Run(old(port.world),
                  CallsFor(port.attempt.dirs, matchTopic, request, maxPrefillAttempts, numDelivered), port.attempt, 0)
    {
      hide Run;
      var a := port.attempt;
      if maxPrefillAttempts != -1 && numDelivered > maxPrefillAttempts {
        assert GiveUpCalls(request) == [AddToFailures(request)] + [SetStatus(Failed)];
        RunConcat(port.world, [AddToFailures(request)], [SetStatus(Failed)], a, 0);
        ok := port.Make(AddToFailures(request));
        if ok {
          ok := port.Make(SetStatus(Failed));
        }
        return;
      }
      RunConcat(port.world, [Purge] + TopicsCalls(a.dirs, 1, matchTopic, request.realmsTopics), [SetStatus(Done)],
                a, 0);
      ok := Fill(request);
      if ok {
        ok := port.Make(SetStatus(Done));
      }
    }

    /** The fetch loop over the queue; after a failure the request is delivered again, to a new process if need be. */
    method HandleRequestsToPrefill(store: Store, requests: seq<PrefillRequest>, attempts: seq<Attempt>)
      returns (after: Store, served: nat, delivered: nat)
      modifies port
      ensures QueueState(after, served, delivered) ==
              ServeAll(store, requests, matchTopic, maxPrefillAttempts, attempts)
    {
      hide Run, CallsFor;
      after, served, delivered := store, 0, 0;
      for i := 0 to |attempts|
        invariant QueueState(after, served, delivered) ==
                  ServeAll(store, requests, matchTopic, maxPrefillAttempts, attempts[..i])
      {
        assert DropLast(attempts[..i + 1]) == attempts[..i];
        if served < |requests| {
          var request := requests[served];
          port.Restart(WorldOf(after, request.subscriptionName), attempts[i]);
          delivered := delivered + 1;
          var ok := HandleMessage(request, delivered);
          if ok {
            ok := port.AcknowledgeMessage();
          }
          after := Updated(after, request.subscriptionName, port.world);
          if ok {
            served, delivered := served + 1, 0;
          }
        }
      }
      assert attempts[..|attempts|] == attempts;
    }
  }

  lemma GetObjectFound(w: World, url: string, a: Attempt, tick: nat)
    ensures Run(w, [GetObject(url)], a, tick).ok ==> url in a.dirs(tick).objects
  {
  }

  lemma ListObjectsFound(w: World, objectType: string, a: Attempt, tick: nat)
    ensures Run(w, [ListObjects(objectType)], a, tick).ok ==> objectType in a.dirs(tick).listing
  {
  }
}
