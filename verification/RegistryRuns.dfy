/** Runs of the registry: what completed operations keep, and exactly which interruptions a retry repairs. */
module RegistryRuns {
  import opened Models
  import opened Sequences
  import opened Registry

  // ---------- Completed operations ----------

  datatype Op =
    | DoCreate(new_: NewSubscription, hash: Hash)
    | DoDelete(name: string)
    | DoSetStatus(name: string, status: FillQueueStatus)
    | DoAuthenticate(user: string, password: string, subscription: Option<string>)
    | Expire(keys: set<Key>)

  /** More calls than any operation makes. */
  const UNINTERRUPTED := 5

  function ApplyCut(c: Crypto, s: Session, op: Op, budget: nat): Session {
    match op
    case DoCreate(new_, hash) => s.(registry := Create(c, s.registry, new_, hash, budget).0)
    case DoDelete(name) => s.(registry := Delete(s.registry, name, budget).0)
    case DoSetStatus(name, status) => s.(registry := SetStatus(s.registry, name, status, budget).0)
    case DoAuthenticate(user, password, subscription) =>
      Authenticate(c, s, user, password, subscription, budget).0
    case Expire(keys) => s.(cache := s.cache - keys)
  }

  function Apply(c: Crypto, s: Session, op: Op): Session {
    ApplyCut(c, s, op, UNINTERRUPTED)
  }

  function ApplyAll(c: Crypto, s: Session, ops: seq<Op>): Session {
    if ops == [] then s else Apply(c, ApplyAll(c, s, DropLast(ops)), Last(ops))
  }

  const EMPTY := Session(Registry(map[], map[], {}, {}, []), map[])

  // ---------- How far a cut-off operation gets ----------

  lemma RunFirst(r: Registry, call: Call, rest: seq<Call>, budget: nat)
    ensures Run(r, [call] + rest, budget) ==
            if budget == 0 then Outcome(r, 0, false) else Run(Perform(r, call), rest, budget - 1)
  {
    assert ([call] + rest)[1..] == rest;
  }

  function CallCount(new_: NewSubscription): nat {
    if new_.requestPrefill then 5 else 4
  }

  /** The registry after the first k writes of a registration. */
  function Stage(r: Registry, new_: NewSubscription, hash: Hash, k: nat): Registry {
    Registry(
      if k >= 1 then r.credentials[new_.name := hash] else r.credentials,
      if k >= 2 then r.subscriptions[new_.name := Record(new_)] else r.subscriptions,
      if k >= 3 then r.streams + {new_.name} else r.streams,
      if k >= 4 then r.consumers + {new_.name} else r.consumers,
      if k >= 5 then r.requests + [PrefillRequest(new_.name, new_.realmsTopics)] else r.requests)
  }

  lemma CreateStages(r: Registry, new_: NewSubscription, hash: Hash, budget: nat)
    ensures var o := Run(r, CreateCalls(new_, hash), budget);
            && o.registry == Stage(r, new_, hash, Min(budget, CallCount(new_)))
            && (o.ok <==> CallCount(new_) <= budget)
  {
    hide Run;
    var info, prefill := InfoCalls(new_), PrefillCalls(new_);
    var stream, consumer := [EnsureStream(new_.name)], [EnsureConsumer(new_.name)];
    assert info + prefill == [info[0]] + (stream + (consumer + prefill));
    var r1, r2 := Stage(r, new_, hash, 1), Stage(r, new_, hash, 2);
    var r3, r4 := Stage(r, new_, hash, 3), Stage(r, new_, hash, 4);
    RunFirst(r, PutCredentials(new_.name, hash), info + prefill, budget);
    if budget >= 1 {
      RunFirst(r1, info[0], stream + (consumer + prefill), budget - 1);
    }
    if budget >= 2 {
      RunFirst(r2, stream[0], consumer + prefill, budget - 2);
    }
    if budget >= 3 {
      RunFirst(r3, consumer[0], prefill, budget - 3);
    }
    if budget >= 4 {
      RunNothing(r4, budget - 4);
      if new_.requestPrefill {
        assert prefill == [prefill[0]] + [];
        RunFirst(r4, prefill[0], [], budget - 4);
        if budget >= 5 {
          RunNothing(Perform(r4, prefill[0]), budget - 5);
        }
      }
    }
  }

  function DeleteStage(r: Registry, name: string, k: nat): Registry {
    Registry(
      if k >= 1 then r.credentials - {name} else r.credentials,
      if k >= 2 then r.subscriptions - {name} else r.subscriptions,
      if k >= 3 then r.streams - {name} else r.streams,
      if k >= 3 then r.consumers - {name} else r.consumers,
      r.requests)
  }

  lemma DeleteStages(r: Registry, name: string, budget: nat)
    ensures var o := Run(r, DeleteCalls(name), budget);
            o.registry == DeleteStage(r, name, Min(budget, 4)) && (o.ok <==> 4 <= budget)
  {
    hide Run;
    var info, stream, consumer := [DeleteSubscriptionInfo(name)], [DeleteStream(name)], [DeleteConsumer(name)];
    RunFirst(r, DeleteCredentials(name), info + (stream + consumer), budget);
    if budget >= 1 {
      RunFirst(DeleteStage(r, name, 1), info[0], stream + consumer, budget - 1);
    }
    if budget >= 2 {
      RunFirst(DeleteStage(r, name, 2), stream[0], consumer, budget - 2);
    }
    if budget >= 3 {
      assert consumer == consumer + [];
      RunFirst(DeleteStage(r, name, 3), consumer[0], [], budget - 3);
      if budget >= 4 {
        RunNothing(Perform(DeleteStage(r, name, 3), consumer[0]), budget - 4);
      }
    }
  }

  lemma OneCall(r: Registry, call: Call, budget: nat)
    ensures Run(r, [call], budget) ==
            if budget == 0 then Outcome(r, 0, false) else Outcome(Perform(r, call), budget - 1, true)
  {
    assert [call] == [call] + [];
    RunFirst(r, call, [], budget);
  }

  // ---------- Credentials, records, streams and consumers belong together ----------

  ghost predicate Coupled(r: Registry) {
    && r.credentials.Keys == r.subscriptions.Keys == r.streams == r.consumers
    && forall n :: n in r.subscriptions ==> r.subscriptions[n].name == n
  }

  /** The API lists by credentials and looks the records up; the dispatcher lists the records. */
  function ApiListing(r: Registry): set<(string, Option<Subscription>)> {
    set n | n in r.credentials :: (n, Lookup(r.subscriptions, n))
  }

  function DispatcherListing(r: Registry): set<(string, Option<Subscription>)> {
    set n | n in r.subscriptions :: (n, Some(r.subscriptions[n]))
  }

  lemma ListingsAgreeExactlyWhen(r: Registry)
    ensures ApiListing(r) == DispatcherListing(r) <==> r.credentials.Keys == r.subscriptions.Keys
  {
    if ApiListing(r) == DispatcherListing(r) {
      forall n
        ensures n in r.credentials.Keys <==> n in r.subscriptions.Keys
      {
        if n in r.credentials {
          assert (n, Lookup(r.subscriptions, n)) in ApiListing(r);
        }
        if n in r.subscriptions {
          assert (n, Some(r.subscriptions[n])) in DispatcherListing(r);
        }
      }
    }
    if r.credentials.Keys == r.subscriptions.Keys {
      assert forall n :: n in r.credentials.Keys <==> n in r.subscriptions.Keys;
    }
  }

  /** Every cached verdict is positive and what a verification would say. */
  ghost predicate CacheSound(c: Crypto, cache: Cache) {
    forall k :: k in cache ==> cache[k].valid && cache[k] == VerifyAndUpdate(c, k.password, k.hash)
  }

  lemma ApplyKeepsCoupling(c: Crypto, s: Session, op: Op)
    requires Coupled(s.registry) && CacheSound(c, s.cache)
    ensures Coupled(Apply(c, s, op).registry) && CacheSound(c, Apply(c, s, op).cache)
  {
    hide Run;
    match op
    case DoCreate(new_, hash) => CreateStages(s.registry, new_, hash, UNINTERRUPTED);
    case DoDelete(name) => DeleteStages(s.registry, name, UNINTERRUPTED);
    case DoSetStatus(name, status) =>
      if name in s.registry.subscriptions {
        var info := s.registry.subscriptions[name].(prefillQueueStatus := status);
        OneCall(s.registry, PutSubscription(info), UNINTERRUPTED);
      }
    case DoAuthenticate(user, password, subscription) =>
      AuthenticationIsDirect(c, s, user, password, subscription, UNINTERRUPTED);
    case Expire(keys) =>
  }

  /** After every completed sequence of operations the two listings name the same subscriptions. */
  lemma {:induction false} CouplingIsKept(c: Crypto, ops: seq<Op>)
    ensures var s := ApplyAll(c, EMPTY, ops);
            && Coupled(s.registry) && CacheSound(c, s.cache)
            && ApiListing(s.registry) == DispatcherListing(s.registry)
  {
    if ops != [] {
      CouplingIsKept(c, DropLast(ops));
      ApplyKeepsCoupling(c, ApplyAll(c, EMPTY, DropLast(ops)), Last(ops));
    }
    ListingsAgreeExactlyWhen(ApplyAll(c, EMPTY, ops).registry);
  }

  // ---------- The authentication cache is transparent ----------

  predicate MayAccess(user: string, subscription: Option<string>) {
    subscription.Some? && subscription.value != "" ==> subscription.value == user
  }

  /** One authentication against a sound cache: the verdict, what is cached, and what the rehash changes. */
  lemma FinishIsDirect(c: Crypto, s: Session, user: string, password: string, subscription: Option<string>,
                       hashed: Option<Hash>, budget: nat)
    requires CacheSound(c, s.cache)
    ensures var (s', result) := FinishAuthenticate(c, s, user, password, subscription, hashed, budget);
            var valid := MayAccess(user, subscription) && hashed.Some? && c.verify(password, hashed.value);
            && (result != Rejected <==> valid)
            && CacheSound(c, s'.cache)
            && s'.registry == if valid && c.upgrade(password, hashed.value).Some? && budget > 0
                              then Perform(s.registry, PutCredentials(user, c.upgrade(password, hashed.value).value))
                              else s.registry
  {
    hide Run, Perform;
    var verdict := VerifyAndUpdate(c, password, hashed);
    RunNothing(s.registry, budget);
    if verdict.valid && verdict.newHash.Some? {
      OneCall(s.registry, PutCredentials(user, verdict.newHash.value), budget);
    }
  }

  lemma AuthenticationIsDirect(c: Crypto, s: Session, user: string, password: string, subscription: Option<string>,
                               budget: nat)
    requires CacheSound(c, s.cache)
    ensures var (s', result) := Authenticate(c, s, user, password, subscription, budget);
            && (result != Rejected <==> MayAccess(user, subscription) && VerifyStored(c, s.registry, user, password))
            && CacheSound(c, s'.cache)
            && (|| s'.registry == s.registry
                || (&& VerifyStored(c, s.registry, user, password)
                    && c.upgrade(password, s.registry.credentials[user]).Some?
                    && s'.registry == s.registry.(credentials :=
                         s.registry.credentials[user := c.upgrade(password, s.registry.credentials[user]).value])))
  {
    FinishIsDirect(c, s, user, password, subscription, Lookup(s.registry.credentials, user), budget);
  }

  /**
    An operation cut off after any number of writes, one that finishes on what it read at any time
    before, or a single write of a registration or deletion that overlaps with others.
   */
  datatype Event =
    | Cut(op: Op, budget: nat)
    | Write(call: Call)
    | FinishStatus(info: Subscription, status: FillQueueStatus, budget: nat)
    | FinishAuthentication(user: string, password: string, subscription: Option<string>, hashed: Option<Hash>,
                           budget: nat)

  function Happen(c: Crypto, s: Session, e: Event): Session {
    match e
    case Cut(op, budget) => ApplyCut(c, s, op, budget)
    case Write(call) => s.(registry := Perform(s.registry, call))
    case FinishStatus(info, status, budget) => s.(registry := FinishSetStatus(s.registry, info, status, budget).0)
    case FinishAuthentication(user, password, subscription, hashed, budget) =>
      FinishAuthenticate(c, s, user, password, subscription, hashed, budget).0
  }

  function HappenAll(c: Crypto, s: Session, events: seq<Event>): Session {
    if events == [] then s else Happen(c, HappenAll(c, s, DropLast(events)), Last(events))
  }

  lemma {:induction false} CacheStaysSound(c: Crypto, events: seq<Event>)
    ensures CacheSound(c, HappenAll(c, EMPTY, events).cache)
  {
    if events != [] {
      CacheStaysSound(c, DropLast(events));
      HappenKeepsCache(c, HappenAll(c, EMPTY, DropLast(events)), Last(events));
    }
  }

  lemma HappenKeepsCache(c: Crypto, s: Session, e: Event)
    requires CacheSound(c, s.cache)
    ensures CacheSound(c, Happen(c, s, e).cache)
  {
    hide Run, Authenticate, FinishAuthenticate, Create, Delete, SetStatus, FinishSetStatus;
    match e
    case FinishAuthentication(user, password, subscription, hashed, budget) =>
      FinishIsDirect(c, s, user, password, subscription, hashed, budget);
    case Cut(op, budget) =>
      match op {
        case DoAuthenticate(user, password, subscription) =>
          AuthenticationIsDirect(c, s, user, password, subscription, budget);
        case _ =>
      }
    case Write(call) =>
    case FinishStatus(info, status, budget) =>
  }

  /**
    Whatever operations came before, completed, cut off after any write or overlapping, whatever
    entries expired and hashes were upgraded: the verdict is the one a direct verification against
    the hash now stored would give.
   */
  lemma AuthenticationCacheIsTransparent(c: Crypto, events: seq<Event>, user: string, password: string,
                                         subscription: Option<string>, budget: nat)
    ensures var s := HappenAll(c, EMPTY, events);
            var (s', result) := Authenticate(c, s, user, password, subscription, budget);
            && (result != Rejected <==> MayAccess(user, subscription) && VerifyStored(c, s.registry, user, password))
            && CacheSound(c, s'.cache)
  {
    CacheStaysSound(c, events);
    AuthenticationIsDirect(c, HappenAll(c, EMPTY, events), user, password, subscription, budget);
  }

  // ---------- Registering again ----------

  /** An operation that neither registers nor deletes the name. */
  predicate LeavesAlone(op: Op, name: string) {
    (op.DoCreate? ==> op.new_.name != name) && (op.DoDelete? ==> op.name != name)
  }

  /** The parameters of a registration: the two recorded ones and the passwords that are accepted. */
  ghost predicate SameParameters(c: Crypto, r: Registry, r': Registry, name: string) {
    && name in r.subscriptions && name in r'.subscriptions
    && r'.subscriptions[name].realmsTopics == r.subscriptions[name].realmsTopics
    && r'.subscriptions[name].requestPrefill == r.subscriptions[name].requestPrefill
    && forall p :: VerifyStored(c, r', name, p) <==> VerifyStored(c, r, name, p)
  }

  lemma ApplyKeepsParameters(c: Crypto, s: Session, op: Op, name: string)
    requires UpgradesFaithfully(c) && Coupled(s.registry) && CacheSound(c, s.cache)
    requires name in s.registry.subscriptions && LeavesAlone(op, name)
    ensures SameParameters(c, s.registry, Apply(c, s, op).registry, name)
  {
    hide Run, Coupled;
    match op
    case DoCreate(new_, hash) => CreateStages(s.registry, new_, hash, UNINTERRUPTED);
    case DoDelete(other) => DeleteStages(s.registry, other, UNINTERRUPTED);
    case DoSetStatus(other, status) =>
      if other in s.registry.subscriptions {
        var info := s.registry.subscriptions[other].(prefillQueueStatus := status);
        OneCall(s.registry, PutSubscription(info), UNINTERRUPTED);
        assert s.registry.subscriptions[other].name == other by {
          assert Coupled(s.registry);
          CoupledNames(s.registry, other);
        }
      }
    case DoAuthenticate(user, password, subscription) =>
      AuthenticationIsDirect(c, s, user, password, subscription, UNINTERRUPTED);
    case Expire(keys) =>
  }

  lemma CoupledNames(r: Registry, name: string)
    requires Coupled(r) && name in r.subscriptions
    ensures r.subscriptions[name].name == name
  {
  }

  lemma {:induction false} OperationsKeepParameters(c: Crypto, s: Session, ops: seq<Op>, name: string)
    requires UpgradesFaithfully(c) && Coupled(s.registry) && CacheSound(c, s.cache)
    requires name in s.registry.subscriptions && forall op :: op in ops ==> LeavesAlone(op, name)
    ensures var s' := ApplyAll(c, s, ops);
            Coupled(s'.registry) && CacheSound(c, s'.cache) && SameParameters(c, s.registry, s'.registry, name)
  {
    if ops != [] {
      OperationsKeepParameters(c, s, DropLast(ops), name);
      var before := ApplyAll(c, s, DropLast(ops));
      ApplyKeepsCoupling(c, before, Last(ops));
      ApplyKeepsParameters(c, before, Last(ops), name);
    }
  }

  /**
    After any status updates, logins and other subscriptions' operations, registering a name
    again changes nothing: it reports that the subscription exists if the parameters are those of
    the first registration and a conflict if any of them differs.
   */
  lemma RegistrationIsIdempotent(c: Crypto, s: Session, first: NewSubscription, hash: Hash, ops: seq<Op>,
                                 again: NewSubscription, otherHash: Hash, budget: nat)
    requires UpgradesFaithfully(c) && Coupled(s.registry) && CacheSound(c, s.cache)
    requires first.name !in s.registry.subscriptions && again.name == first.name
    requires forall op :: op in ops ==> LeavesAlone(op, first.name)
    ensures var r := ApplyAll(c, Apply(c, s, DoCreate(first, hash)), ops).registry;
            var (r', result) := Create(c, r, again, otherHash, budget);
            && r' == r && result in {Exists, Conflict}
            && (result == Exists <==> && again.realmsTopics == first.realmsTopics
                                      && again.requestPrefill == first.requestPrefill
                                      && c.verify(again.password, hash))
  {
    hide Run;
    var created := Apply(c, s, DoCreate(first, hash));
    CreateStages(s.registry, first, hash, UNINTERRUPTED);
    ApplyKeepsCoupling(c, s, DoCreate(first, hash));
    OperationsKeepParameters(c, created, ops, first.name);
    assert VerifyStored(c, created.registry, first.name, again.password) <==> c.verify(again.password, hash);
  }

  // ---------- Interrupted registrations ----------

  datatype Try = Try(hash: Hash, budget: nat)

  function CreateTries(c: Crypto, r: Registry, new_: NewSubscription, tries: seq<Try>): Registry {
    if tries == [] then r
    else Create(c, CreateTries(c, r, new_, DropLast(tries)), new_, Last(tries).hash, Last(tries).budget).0
  }

  /** The first try that gets as far as the record fails before its last write. */
  predicate StopsHalfway(new_: NewSubscription, tries: seq<Try>) {
    if tries == [] then false
    else if GotToTheRecord(DropLast(tries)) then StopsHalfway(new_, DropLast(tries))
    else 2 <= Last(tries).budget < CallCount(new_)
  }

  predicate GotToTheRecord(tries: seq<Try>) {
    exists t :: t in tries && t.budget >= 2
  }

  /** What one uninterrupted registration would have led to, whatever hash it had stored. */
  ghost predicate Registered(r: Registry, r': Registry, new_: NewSubscription) {
    exists hash: Hash :: r' == Stage(r, new_, hash, CallCount(new_))
  }

  ghost predicate Unused(r: Registry, name: string) {
    name !in r.credentials && name !in r.subscriptions && name !in r.streams && name !in r.consumers
  }

  /** How many writes the tries have led to, and the hash that is stored if there is one. */
  function Reached(new_: NewSubscription, tries: seq<Try>): (Hash, nat) {
    if tries == [] then ("", 0)
    else
      var before, t := Reached(new_, DropLast(tries)), Last(tries);
      if before.1 >= 2 || t.budget == 0 then before else (t.hash, Min(t.budget, CallCount(new_)))
  }

  lemma StageTwice(r: Registry, new_: NewSubscription, hash: Hash, otherHash: Hash, k: nat, j: nat)
    requires k <= 1 && j >= 1
    ensures Stage(Stage(r, new_, hash, k), new_, otherHash, j) == Stage(r, new_, otherHash, j)
  {
  }

  lemma OneTry(c: Crypto, r: Registry, new_: NewSubscription, hash: Hash, k: nat, t: Try)
    requires Unused(r, new_.name) && k <= CallCount(new_)
    ensures Create(c, Stage(r, new_, hash, k), new_, t.hash, t.budget).0 ==
            if k >= 2 || t.budget == 0 then Stage(r, new_, hash, k)
            else Stage(r, new_, t.hash, Min(t.budget, CallCount(new_)))
  {
    hide Run, CreateCalls;
    if k < 2 {
      CreateStages(Stage(r, new_, hash, k), new_, t.hash, t.budget);
      if t.budget > 0 {
        StageTwice(r, new_, hash, t.hash, k, Min(t.budget, CallCount(new_)));
      }
    }
  }

  lemma {:induction false} TriesReach(c: Crypto, r: Registry, new_: NewSubscription, tries: seq<Try>)
    requires Unused(r, new_.name)
    ensures var (hash, k) := Reached(new_, tries);
            && k <= CallCount(new_)
            && CreateTries(c, r, new_, tries) == Stage(r, new_, hash, k)
            && (k >= 2 <==> GotToTheRecord(tries))
            && (2 <= k < CallCount(new_) <==> StopsHalfway(new_, tries))
  {
    hide Create, Stage;
    if tries == [] {
      NoStage(r, new_);
    } else {
      var (hash, k) := Reached(new_, DropLast(tries));
      TriesReach(c, r, new_, DropLast(tries));
      OneTry(c, r, new_, hash, k, Last(tries));
      assert tries == DropLast(tries) + [Last(tries)];
      assert GotToTheRecord(tries) <==> GotToTheRecord(DropLast(tries)) || Last(tries).budget >= 2;
    }
  }

  lemma NoStage(r: Registry, new_: NewSubscription)
    ensures Stage(r, new_, "", 0) == r
  {
  }

  lemma StagesDiffer(r: Registry, new_: NewSubscription, hash: Hash, otherHash: Hash, k: nat)
    requires Unused(r, new_.name) && k < CallCount(new_)
    ensures Stage(r, new_, hash, k) != Stage(r, new_, otherHash, CallCount(new_))
  {
    var short, full := Stage(r, new_, hash, k), Stage(r, new_, otherHash, CallCount(new_));
    if k < 4 {
      assert new_.name in full.consumers && new_.name !in short.consumers;
    } else {
      assert |full.requests| == |r.requests| + 1 && short.requests == r.requests;
    }
  }

  /**
    Retrying an interrupted registration with the same parameters, any number of times and at
    last without interruption, reaches the state of one uninterrupted registration (up to the
    hash) exactly when no try stopped between the record and its last write: from then on every
    retry reports that the subscription exists, and the missing stream, consumer or prefill
    request is never made.
   */
  lemma RetriedRegistrationCompletesExactlyWhen(c: Crypto, r: Registry, new_: NewSubscription, tries: seq<Try>)
    requires Unused(r, new_.name) && tries != [] && Last(tries).budget >= UNINTERRUPTED
    ensures Registered(r, CreateTries(c, r, new_, tries), new_) <==> !StopsHalfway(new_, tries)
  {
    hide Create, Stage, CreateTries, StopsHalfway;
    TriesReach(c, r, new_, tries);
    var (hash, k) := Reached(new_, tries);
    assert Last(tries) in tries;
    if k < CallCount(new_) {
      forall h: Hash
        ensures Stage(r, new_, hash, k) != Stage(r, new_, h, CallCount(new_))
      {
        StagesDiffer(r, new_, hash, h, k);
      }
    }
  }

  /** A registration that fails right after the record stays without stream and consumer for ever. */
  lemma RetryAfterTheRecordDoesNothing(c: Crypto, r: Registry, new_: NewSubscription, first: Hash, second: Hash)
    requires Unused(r, new_.name) && c.verify(new_.password, first)
    ensures var broken := CreateTries(c, r, new_, [Try(first, 2)]);
            && Create(c, broken, new_, second, UNINTERRUPTED) == (broken, Exists)
            && new_.name in broken.subscriptions && new_.name !in broken.streams && new_.name !in broken.consumers
            && !Registered(r, CreateTries(c, r, new_, [Try(first, 2), Try(second, UNINTERRUPTED)]), new_)
  {
    var tries := [Try(first, 2), Try(second, UNINTERRUPTED)];
    assert DropLast(tries) == [Try(first, 2)] && DropLast([Try(first, 2)]) == [];
    assert Last(DropLast(tries)) in DropLast(tries);
    RetriedRegistrationCompletesExactlyWhen(c, r, new_, tries);
    CreateStages(r, new_, first, 2);
  }

  // ---------- Registrations that overlap ----------

  /** Whose turn it is to make its next write. */
  datatype Turn = First | Second

  /** Two registrations of one name have both found it free; their writes to the two buckets are interleaved. */
  function Race(r: Registry, a: seq<Call>, b: seq<Call>, order: seq<Turn>): Registry
    decreases |order|
  {
    if order == [] then r
    else if order[0].First? then
      if a == [] then Race(r, a, b, order[1..]) else Race(Perform(r, a[0]), a[1..], b, order[1..])
    else
      if b == [] then Race(r, a, b, order[1..]) else Race(Perform(r, b[0]), a, b[1..], order[1..])
  }

  function BucketWrites(new_: NewSubscription, hash: Hash): seq<Call> {
    [PutCredentials(new_.name, hash), PutSubscription(Record(new_))]
  }

  function Firsts(order: seq<Turn>): nat {
    if order == [] then 0 else (if order[0].First? then 1 else 0) + Firsts(order[1..])
  }

  /** Each of the two makes both of its writes. */
  predicate BothWrite(order: seq<Turn>) {
    |order| == 4 && Firsts(order) == 2
  }

  /** The stored hash and record of the name are those of one and the same registration. */
  predicate OneOfThem(r: Registry, a: NewSubscription, ha: Hash, b: NewSubscription, hb: Hash) {
    && a.name in r.credentials && a.name in r.subscriptions
    && (|| (r.credentials[a.name] == ha && r.subscriptions[a.name] == Record(a))
        || (r.credentials[a.name] == hb && r.subscriptions[a.name] == Record(b)))
  }

  lemma {:induction false} FirstsInRange(order: seq<Turn>)
    ensures Firsts(order) <= |order|
  {
    if order != [] {
      FirstsInRange(order[1..]);
    }
  }

  /** The hash stored when a has made i of its two writes, b has made j, and these turns remain. */
  function LastHash(stored: Option<Hash>, ha: Hash, hb: Hash, i: nat, j: nat, order: seq<Turn>): Option<Hash>
    requires i == 0 && j == 0 ==> order != []
  {
    if i == 0 && j == 0 then Some(if order[0].First? then hb else ha)
    else if i == 0 then Some(ha)
    else if j == 0 then Some(hb)
    else stored
  }

  lemma {:induction false} RaceFrom(r: Registry, a: NewSubscription, ha: Hash, b: NewSubscription, hb: Hash,
                                    i: nat, j: nat, order: seq<Turn>)
    requires a.name == b.name && i <= 2 && j <= 2 && |order| == 4 - i - j && Firsts(order) == 2 - i
    ensures var r' := Race(r, BucketWrites(a, ha)[i..], BucketWrites(b, hb)[j..], order);
            && Lookup(r'.credentials, a.name) == LastHash(Lookup(r.credentials, a.name), ha, hb, i, j, order)
            && (order != [] ==> a.name in r'.subscriptions
                                && r'.subscriptions[a.name] == if Last(order).First? then Record(a) else Record(b))
            && (order == [] ==> r' == r)
    decreases |order|
  {
    hide Record;
    RecordName(a);
    RecordName(b);
    if order != [] {
      var as_, bs := BucketWrites(a, ha), BucketWrites(b, hb);
      FirstsInRange(order[1..]);
      if order[0].First? {
        assert as_[i..][0] == as_[i] && as_[i..][1..] == as_[i + 1..];
        RaceFrom(Perform(r, as_[i]), a, ha, b, hb, i + 1, j, order[1..]);
      } else {
        assert bs[j..][0] == bs[j] && bs[j..][1..] == bs[j + 1..];
        RaceFrom(Perform(r, bs[j]), a, ha, b, hb, i, j + 1, order[1..]);
      }
    }
  }

  lemma RecordName(new_: NewSubscription)
    ensures Record(new_).name == new_.name
  {
  }

  /**
    Of two registrations of one name that overlap, with different hashes and records, the stored
    hash and record are those of one of them exactly if the one that writes first does not also
    write last.
   */
  lemma OverlappingRegistrationsAgreeExactlyWhen(r: Registry, a: NewSubscription, ha: Hash, b: NewSubscription,
                                                 hb: Hash, order: seq<Turn>)
    requires a.name == b.name && ha != hb && Record(a) != Record(b) && BothWrite(order)
    ensures OneOfThem(Race(r, BucketWrites(a, ha), BucketWrites(b, hb), order), a, ha, b, hb) <==>
            order[0] != order[|order| - 1]
  {
    hide Race, Record, Firsts;
    RaceFrom(r, a, ha, b, hb, 0, 0, order);
    assert BucketWrites(a, ha)[0..] == BucketWrites(a, ha) && BucketWrites(b, hb)[0..] == BucketWrites(b, hb);
  }

  // ---------- Interrupted deletions ----------

  function DeleteTries(r: Registry, name: string, budgets: seq<nat>): Registry {
    if budgets == [] then r else Delete(DeleteTries(r, name, DropLast(budgets)), name, Last(budgets)).0
  }

  predicate RemovedTheRecord(budgets: seq<nat>) {
    exists i :: 0 <= i < |budgets| && budgets[i] >= 2
  }

  /** The first try that gets as far as the record removes nothing after it. */
  predicate LeavesStream(budgets: seq<nat>) {
    if budgets == [] then false
    else if RemovedTheRecord(DropLast(budgets)) then LeavesStream(DropLast(budgets))
    else Last(budgets) == 2
  }

  function Removed(budgets: seq<nat>): nat {
    if budgets == [] then 0
    else
      var before := Removed(DropLast(budgets));
      if before >= 2 || Last(budgets) == 0 then before else Min(Last(budgets), 4)
  }

  lemma OneDeletion(r: Registry, name: string, k: nat, budget: nat)
    requires name in r.subscriptions && k <= 4
    ensures Delete(DeleteStage(r, name, k), name, budget).0 ==
            DeleteStage(r, name, if k >= 2 || budget == 0 then k else Min(budget, 4))
  {
    hide Run, DeleteCalls;
    if k < 2 {
      DeleteStages(DeleteStage(r, name, k), name, budget);
    }
  }

  lemma {:induction false} DeletionsReach(r: Registry, name: string, budgets: seq<nat>)
    requires name in r.subscriptions
    ensures var k := Removed(budgets);
            && k <= 4
            && DeleteTries(r, name, budgets) == DeleteStage(r, name, k)
            && (k >= 2 <==> RemovedTheRecord(budgets))
            && (k == 2 <==> LeavesStream(budgets))
  {
    hide Delete;
    if budgets != [] {
      DeletionsReach(r, name, DropLast(budgets));
      OneDeletion(r, name, Removed(DropLast(budgets)), Last(budgets));
      assert budgets == DropLast(budgets) + [Last(budgets)];
      assert Last(budgets) == budgets[|budgets| - 1];
      assert forall i :: 0 <= i < |budgets| - 1 ==> DropLast(budgets)[i] == budgets[i];
    }
  }

  /**
    Retrying an interrupted deletion removes everything exactly when no try stopped right after
    the record: from then on every retry answers that there is no such subscription, and its
    stream with the messages in it stays.
   */
  lemma RetriedDeletionCompletesExactlyWhen(r: Registry, name: string, budgets: seq<nat>)
    requires Coupled(r) && name in r.subscriptions && budgets != [] && Last(budgets) >= UNINTERRUPTED
    ensures Unused(DeleteTries(r, name, budgets), name) <==> !LeavesStream(budgets)
  {
    hide DeleteTries, LeavesStream, Removed;
    DeletionsReach(r, name, budgets);
    assert budgets[|budgets| - 1] >= 2;
  }

  /** A deletion that fails right after the record leaves the stream behind, and its retry finds nothing to delete. */
  lemma RetryAfterRemovingTheRecordFindsNothing(r: Registry, name: string)
    requires Coupled(r) && name in r.subscriptions
    ensures var broken := DeleteTries(r, name, [2]);
            && Delete(broken, name, UNINTERRUPTED) == (broken, NotFound)
            && name in broken.streams && name in broken.consumers
  {
    assert DropLast([2]) == [];
    DeleteStages(r, name, 2);
  }

  // ---------- A status update is a read and a write ----------

  predicate SameUpToStatus(a: Subscription, b: Subscription) {
    a == b.(prefillQueueStatus := a.prefillQueueStatus)
  }

  lemma Finished(r: Registry, info: Subscription, status: FillQueueStatus)
    ensures FinishSetStatus(r, info, status, UNINTERRUPTED).0 ==
            r.(subscriptions := r.subscriptions[info.name := info.(prefillQueueStatus := status)])
  {
    OneCall(r, PutSubscription(info.(prefillQueueStatus := status)), UNINTERRUPTED);
  }

  /**
    set_subscription_queue_status reads the record, and later writes it back. Between the two,
    other operations may complete. The write then does what an update at that moment would do, and
    leaves the parts together and the subscription's parameters alone, exactly if the record now
    stored is the one that was read, up to its status.
   */
  lemma StaleStatusWriteExactlyWhen(c: Crypto, s: Session, name: string, status: FillQueueStatus, between: seq<Op>)
    requires Coupled(s.registry) && CacheSound(c, s.cache) && name in s.registry.subscriptions
    ensures var info, now := s.registry.subscriptions[name], ApplyAll(c, s, between).registry;
            var after := FinishSetStatus(now, info, status, UNINTERRUPTED).0;
            var same := name in now.subscriptions && SameUpToStatus(now.subscriptions[name], info);
            && (Coupled(after) && SameParameters(c, now, after, name) <==> same)
            && (after == SetStatus(now, name, status, UNINTERRUPTED).0 <==> same)
  {
    hide ApplyAll, FinishSetStatus;
    var info, now := s.registry.subscriptions[name], ApplyAll(c, s, between).registry;
    OperationsKeepCoupling(c, s, between);
    Finished(now, info, status);
    var after := FinishSetStatus(now, info, status, UNINTERRUPTED).0;
    assert after.subscriptions[name] == info.(prefillQueueStatus := status);
    if name in now.subscriptions {
      Finished(now, now.subscriptions[name], status);
      assert now.subscriptions[name].name == name == info.name;
      var direct := SetStatus(now, name, status, UNINTERRUPTED).0;
      assert direct.subscriptions[name] == now.subscriptions[name].(prefillQueueStatus := status);
    } else {
      assert after.subscriptions != now.subscriptions;
    }
  }

  /** The parts alone still belong together exactly if some record of the name is there at the write. */
  lemma StaleStatusWriteKeepsCouplingExactlyWhen(c: Crypto, s: Session, name: string, status: FillQueueStatus,
                                                 between: seq<Op>)
    requires Coupled(s.registry) && CacheSound(c, s.cache) && name in s.registry.subscriptions
    ensures var info := s.registry.subscriptions[name].(prefillQueueStatus := status);
            var s' := ApplyAll(c, s, between);
            Coupled(Perform(s'.registry, PutSubscription(info))) <==> name in s'.registry.subscriptions
  {
    OperationsKeepCoupling(c, s, between);
  }

  /** A record written back after its deletion is listed by the dispatcher but not by the API. */
  lemma StatusWrittenAfterDeletion(c: Crypto, s: Session, name: string, status: FillQueueStatus)
    requires Coupled(s.registry) && CacheSound(c, s.cache) && name in s.registry.subscriptions
    ensures var info := s.registry.subscriptions[name].(prefillQueueStatus := status);
            var r := Perform(Apply(c, s, DoDelete(name)).registry, PutSubscription(info));
            name in r.subscriptions && name !in r.credentials && name !in r.streams
            && ApiListing(r) != DispatcherListing(r)
  {
    var info := s.registry.subscriptions[name].(prefillQueueStatus := status);
    var r := Perform(Apply(c, s, DoDelete(name)).registry, PutSubscription(info));
    DeleteStages(s.registry, name, UNINTERRUPTED);
    assert name in r.subscriptions.Keys && name !in r.credentials.Keys;
    ListingsAgreeExactlyWhen(r);
  }

  lemma ApplyTwo(c: Crypto, s: Session, first: Op, second: Op)
    ensures ApplyAll(c, s, [first, second]) == Apply(c, Apply(c, s, first), second)
  {
    hide Apply;
    assert DropLast([first, second]) == [first] && DropLast([first]) == [];
    assert ApplyAll(c, s, [first]) == Apply(c, s, first);
  }

  lemma DeletedAndRegistered(c: Crypto, s: Session, new_: NewSubscription, hash: Hash)
    requires Coupled(s.registry) && new_.name in s.registry.subscriptions
    ensures var s' := ApplyAll(c, s, [DoDelete(new_.name), DoCreate(new_, hash)]);
            && new_.name in s'.registry.subscriptions && s'.registry.subscriptions[new_.name] == Record(new_)
            && new_.name in s'.registry.credentials && s'.registry.credentials[new_.name] == hash
            && s'.cache == s.cache
  {
    hide Run, Stage, DeleteStage;
    ApplyTwo(c, s, DoDelete(new_.name), DoCreate(new_, hash));
    hide ApplyAll;
    DeleteStages(s.registry, new_.name, UNINTERRUPTED);
    var deleted := Delete(s.registry, new_.name, UNINTERRUPTED).0;
    NoRecord(s.registry, new_.name);
    CreateStages(deleted, new_, hash, UNINTERRUPTED);
    FullStage(deleted, new_, hash);
  }

  lemma NoRecord(r: Registry, name: string)
    ensures name !in DeleteStage(r, name, 4).subscriptions
  {
  }

  lemma FullStage(r: Registry, new_: NewSubscription, hash: Hash)
    ensures var r' := Stage(r, new_, hash, CallCount(new_));
            && new_.name in r'.subscriptions && r'.subscriptions[new_.name] == Record(new_)
            && new_.name in r'.credentials && r'.credentials[new_.name] == hash
  {
  }

  /** A record written back after its name was registered anew replaces the topics of the new registration. */
  lemma StatusWrittenAfterReRegistration(c: Crypto, s: Session, status: FillQueueStatus, other: NewSubscription,
                                         hash: Hash)
    requires Coupled(s.registry) && CacheSound(c, s.cache) && other.name in s.registry.subscriptions
    requires other.realmsTopics != s.registry.subscriptions[other.name].realmsTopics
    ensures var info := s.registry.subscriptions[other.name];
            var now := ApplyAll(c, s, [DoDelete(other.name), DoCreate(other, hash)]).registry;
            var after := FinishSetStatus(now, info, status, UNINTERRUPTED).0;
            && Coupled(after) && other.name in now.subscriptions && other.name in after.subscriptions
            && now.subscriptions[other.name].realmsTopics == other.realmsTopics
            && after.subscriptions[other.name].realmsTopics == info.realmsTopics
  {
    hide ApplyAll, FinishSetStatus;
    var ops := [DoDelete(other.name), DoCreate(other, hash)];
    var info := s.registry.subscriptions[other.name];
    DeletedAndRegistered(c, s, other, hash);
    OperationsKeepCoupling(c, s, ops);
    Finished(ApplyAll(c, s, ops).registry, info, status);
  }

  // ---------- An authentication is a read and perhaps a write ----------

  /** The user's stored hash accepts the same passwords in both registries, and the parts belong together. */
  ghost predicate KeepsPasswords(c: Crypto, now: Registry, after: Registry, user: string) {
    Coupled(after) && forall p :: VerifyStored(c, after, user, p) <==> VerifyStored(c, now, user, p)
  }

  /**
    authenticate_user reads the stored hash, and later may store an upgraded one. Between the two,
    other operations may complete. The write then keeps the parts together and accepts the
    passwords accepted before it exactly if the user still has a hash and it accepts what the one
    that was read accepts.
   */
  lemma StaleRehashExactlyWhen(c: Crypto, s: Session, user: string, password: string, subscription: Option<string>,
                               between: seq<Op>)
    requires UpgradesFaithfully(c) && Coupled(s.registry) && CacheSound(c, s.cache) && MayAccess(user, subscription)
    requires VerifyStored(c, s.registry, user, password)
    requires c.upgrade(password, s.registry.credentials[user]).Some?
    ensures var read, s' := s.registry.credentials[user], ApplyAll(c, s, between);
            var now := s'.registry;
            var after := FinishAuthenticate(c, s', user, password, subscription, Some(read), UNINTERRUPTED).0.registry;
            KeepsPasswords(c, now, after, user) <==>
            user in now.credentials && forall p :: c.verify(p, now.credentials[user]) <==> c.verify(p, read)
  {
    hide ApplyAll, FinishAuthenticate;
    var read, s' := s.registry.credentials[user], ApplyAll(c, s, between);
    OperationsKeepCoupling(c, s, between);
    FinishIsDirect(c, s', user, password, subscription, Some(read), UNINTERRUPTED);
    StoredHash(c, s'.registry, user, password, read);
  }

  lemma StoredHash(c: Crypto, now: Registry, user: string, password: string, read: Hash)
    requires UpgradesFaithfully(c) && Coupled(now) && c.verify(password, read) && c.upgrade(password, read).Some?
    ensures var after := Perform(now, PutCredentials(user, c.upgrade(password, read).value));
            KeepsPasswords(c, now, after, user) <==>
            user in now.credentials && forall p :: c.verify(p, now.credentials[user]) <==> c.verify(p, read)
  {
    var after := Perform(now, PutCredentials(user, c.upgrade(password, read).value));
    assert user in after.credentials.Keys;
    assert forall p :: VerifyStored(c, after, user, p) <==> c.verify(p, read);
    if user in now.credentials {
      assert after.credentials.Keys == now.credentials.Keys;
      assert forall p :: VerifyStored(c, now, user, p) <==> c.verify(p, now.credentials[user]);
    } else {
      assert user !in after.subscriptions.Keys;
    }
  }

  /** A hash stored after the deletion of its subscription is listed by the API without a record. */
  lemma RehashAfterDeletion(c: Crypto, s: Session, user: string, hash: Hash)
    requires Coupled(s.registry) && user in s.registry.subscriptions
    ensures var r := Perform(Apply(c, s, DoDelete(user)).registry, PutCredentials(user, hash));
            user in r.credentials && user !in r.subscriptions && ApiListing(r) != DispatcherListing(r)
  {
    var r := Perform(Apply(c, s, DoDelete(user)).registry, PutCredentials(user, hash));
    DeleteStages(s.registry, user, UNINTERRUPTED);
    assert user in r.credentials.Keys && user !in r.subscriptions.Keys;
    ListingsAgreeExactlyWhen(r);
  }

  /** A hash stored after its name was registered anew locks out the new password and lets the old one in. */
  lemma RehashAfterReRegistration(c: Crypto, s: Session, password: string, subscription: Option<string>,
                                  other: NewSubscription, hash: Hash)
    requires UpgradesFaithfully(c) && Coupled(s.registry) && CacheSound(c, s.cache)
    requires MayAccess(other.name, subscription) && VerifyStored(c, s.registry, other.name, password)
    requires c.upgrade(password, s.registry.credentials[other.name]).Some?
    requires c.verify(other.password, hash) && !VerifyStored(c, s.registry, other.name, other.password)
    ensures var user, read := other.name, s.registry.credentials[other.name];
            var s' := ApplyAll(c, s, [DoDelete(user), DoCreate(other, hash)]);
            var after := FinishAuthenticate(c, s', user, password, subscription, Some(read), UNINTERRUPTED).0.registry;
            && VerifyStored(c, s'.registry, user, other.password)
            && !VerifyStored(c, after, user, other.password) && VerifyStored(c, after, user, password)
  {
    hide ApplyAll, FinishAuthenticate;
    var user, read := other.name, s.registry.credentials[other.name];
    var s' := ApplyAll(c, s, [DoDelete(user), DoCreate(other, hash)]);
    assert user in s.registry.credentials.Keys;
    DeletedAndRegistered(c, s, other, hash);
    FinishIsDirect(c, s', user, password, subscription, Some(read), UNINTERRUPTED);
  }

  lemma {:induction false} OperationsKeepCoupling(c: Crypto, s: Session, ops: seq<Op>)
    requires Coupled(s.registry) && CacheSound(c, s.cache)
    ensures Coupled(ApplyAll(c, s, ops).registry) && CacheSound(c, ApplyAll(c, s, ops).cache)
  {
    if ops != [] {
      OperationsKeepCoupling(c, s, DropLast(ops));
      ApplyKeepsCoupling(c, ApplyAll(c, s, DropLast(ops)), Last(ops));
    }
  }
}
