/** The subscription registry (server/services/subscriptions.py and the create route that calls it). */
module Registry {
  import opened Models

  type Hash = string

  /** passlib: verify, and the replacement verify_and_update asks to store, if any. */
  datatype Crypto = Crypto(verify: (string, Hash) -> bool, upgrade: (string, Hash) -> Option<Hash>)

  /** An upgraded hash accepts exactly what the old one accepted. */
  ghost predicate UpgradesFaithfully(c: Crypto) {
    forall p, h :: c.verify(p, h) && c.upgrade(p, h).Some? ==>
      forall q :: c.verify(q, c.upgrade(p, h).value) <==> c.verify(q, h)
  }

  datatype NewSubscription =
    NewSubscription(name: string, realmsTopics: seq<RealmTopic>, requestPrefill: bool, password: string)

  /** The two KV buckets, the subscription streams with their consumers, and the prefill queue. */
  datatype Registry = Registry(
    credentials: map<string, Hash>,
    subscriptions: map<string, Subscription>,
    streams: set<string>,
    consumers: set<string>,
    requests: seq<PrefillRequest>)

  // ---------- Port calls ----------

  datatype Call =
    | PutCredentials(name: string, hash: Hash)
    | PutSubscription(sub: Subscription)
    | EnsureStream(name: string)
    | EnsureConsumer(name: string)
    | RequestPrefill(request: PrefillRequest)
    | DeleteCredentials(name: string)
    | DeleteSubscriptionInfo(name: string)
    | DeleteStream(name: string)
    | DeleteConsumer(name: string)

  /** A stream takes its consumers with it when it is deleted. */
  function Perform(r: Registry, call: Call): Registry {
    match call
    case PutCredentials(name, hash) => r.(credentials := r.credentials[name := hash])
    case PutSubscription(sub) => r.(subscriptions := r.subscriptions[sub.name := sub])
    case EnsureStream(name) => r.(streams := r.streams + {name})
    case EnsureConsumer(name) => r.(consumers := r.consumers + {name})
    case RequestPrefill(request) => r.(requests := r.requests + [request])
    case DeleteCredentials(name) => r.(credentials := r.credentials - {name})
    case DeleteSubscriptionInfo(name) => r.(subscriptions := r.subscriptions - {name})
    case DeleteStream(name) => r.(streams := r.streams - {name}, consumers := r.consumers - {name})
    case DeleteConsumer(name) => r.(consumers := r.consumers - {name})
  }

  /** Where a sequence of calls has led: ok is false if the process failed before the last of them. */
  datatype Outcome = Outcome(registry: Registry, callsLeft: nat, ok: bool)

  function Run(r: Registry, calls: seq<Call>, budget: nat): Outcome
    decreases |calls|
  {
    if calls == [] then Outcome(r, budget, true)
    else if budget == 0 then Outcome(r, 0, false)
    else Run(Perform(r, calls[0]), calls[1..], budget - 1)
  }

  lemma {:induction false} RunConcat(r: Registry, a: seq<Call>, b: seq<Call>, budget: nat)
    ensures var first := Run(r, a, budget);
            Run(r, a + b, budget) == if first.ok then Run(first.registry, b, first.callsLeft) else first
    decreases |a|
  {
    if a == [] {
      assert a + b == b;
    } else {
      assert (a + b)[1..] == a[1..] + b;
      if budget > 0 {
        RunConcat(Perform(r, a[0]), a[1..], b, budget - 1);
      }
    }
  }

  lemma RunNothing(r: Registry, budget: nat)
    ensures Run(r, [], budget) == Outcome(r, budget, true)
  {
  }

  // ---------- Operations ----------

  function VerifyStored(c: Crypto, r: Registry, name: string, password: string): bool {
    name in r.credentials && c.verify(password, r.credentials[name])
  }

  predicate Matching(c: Crypto, r: Registry, new_: NewSubscription) {
    && new_.name in r.subscriptions
    && r.subscriptions[new_.name].requestPrefill == new_.requestPrefill
    && r.subscriptions[new_.name].realmsTopics == new_.realmsTopics
    && VerifyStored(c, r, new_.name, new_.password)
  }

  datatype CreateResult = Created | Exists | Conflict | Interrupted

  function Record(new_: NewSubscription): Subscription {
    Subscription(new_.name, new_.realmsTopics, new_.requestPrefill, if new_.requestPrefill then Pending else Done)
  }

  /** prepare_and_store_subscription_info: the record, then the stream and its consumer. */
  function InfoCalls(new_: NewSubscription): seq<Call> {
    [PutSubscription(Record(new_)), EnsureStream(new_.name), EnsureConsumer(new_.name)]
  }

  function PrefillCalls(new_: NewSubscription): seq<Call> {
    if new_.requestPrefill then [RequestPrefill(PrefillRequest(new_.name, new_.realmsTopics))] else []
  }

  function CreateCalls(new_: NewSubscription, hash: Hash): seq<Call> {
    [PutCredentials(new_.name, hash)] + (InfoCalls(new_) + PrefillCalls(new_))
  }

  /** The create request, cut off after `budget` of its writes; `hash` is what bcrypt happened to produce. */
  function Create(c: Crypto, r: Registry, new_: NewSubscription, hash: Hash, budget: nat): (Registry, CreateResult) {
    if new_.name in r.subscriptions then (r, if Matching(c, r, new_) then Exists else Conflict)
    else
      var outcome := Run(r, CreateCalls(new_, hash), budget);
      (outcome.registry, if outcome.ok then Created else Interrupted)
  }

  function DeleteCalls(name: string): seq<Call> {
    [DeleteCredentials(name)] + ([DeleteSubscriptionInfo(name)] + ([DeleteStream(name)] + [DeleteConsumer(name)]))
  }

  datatype Reply = Ok | NotFound | Broken

  function Delete(r: Registry, name: string, budget: nat): (Registry, Reply) {
    if name !in r.subscriptions then (r, NotFound)
    else
      var outcome := Run(r, DeleteCalls(name), budget);
      (outcome.registry, if outcome.ok then Ok else Broken)
  }

  /** The second half of a status update: the record read before is written back with the new status. */
  function FinishSetStatus(r: Registry, info: Subscription, status: FillQueueStatus, budget: nat): (Registry, Reply) {
    var outcome := Run(r, [PutSubscription(info.(prefillQueueStatus := status))], budget);
    (outcome.registry, if outcome.ok then Ok else Broken)
  }

  function SetStatus(r: Registry, name: string, status: FillQueueStatus, budget: nat): (Registry, Reply) {
    if name !in r.subscriptions then (r, NotFound) else FinishSetStatus(r, r.subscriptions[name], status, budget)
  }

  // ---------- The authentication cache ----------

  /** The key of an entry: the arguments of verify_and_update_password. */
  datatype Key = Key(password: string, hash: Option<Hash>, subscription: Option<string>)

  datatype Verdict = Verdict(valid: bool, newHash: Option<Hash>)

  type Cache = map<Key, Verdict>

  /** verify_and_update; without a stored hash nothing is valid. */
  function VerifyAndUpdate(c: Crypto, password: string, hash: Option<Hash>): Verdict {
    if hash.Some? && c.verify(password, hash.value) then Verdict(true, c.upgrade(password, hash.value))
    else Verdict(false, None)
  }

  datatype Session = Session(registry: Registry, cache: Cache)

  function RehashCalls(user: string, newHash: Option<Hash>): seq<Call> {
    if newHash.Some? then [PutCredentials(user, newHash.value)] else []
  }

  datatype AuthResult = Accepted | Rejected | Unanswered

  /**
    The second half of authenticate_user, with the hash read before and whatever the TTL cache
    still holds; Unanswered if storing a new hash fails.
   */
  function FinishAuthenticate(c: Crypto, s: Session, user: string, password: string, subscription: Option<string>,
                              hashed: Option<Hash>, budget: nat)
    : (Session, AuthResult)
  {
    if subscription.Some? && subscription.value != "" && subscription.value != user then (s, Rejected)
    else
      var key := Key(password, hashed, subscription);
      var verdict := if key in s.cache then s.cache[key] else VerifyAndUpdate(c, password, hashed);
      if !verdict.valid then (Session(s.registry, s.cache - {key}), Rejected)
      else
        var outcome := Run(s.registry, RehashCalls(user, verdict.newHash), budget);
        (Session(outcome.registry, s.cache[key := verdict]), if outcome.ok then Accepted else Unanswered)
  }

  function Authenticate(c: Crypto, s: Session, user: string, password: string, subscription: Option<string>,
                        budget: nat)
    : (Session, AuthResult)
  {
    FinishAuthenticate(c, s, user, password, subscription, Lookup(s.registry.credentials, user), budget)
  }

  // ---------- The service ----------

  class Port {
    var registry: Registry
    var callsLeft: nat

    constructor (registry: Registry)
      ensures this.registry == registry
    {
      this.registry, callsLeft := registry, 0;
    }

    method Restart(callsLeft: nat)
      modifies this`callsLeft
      ensures this.callsLeft == callsLeft
    {
      this.callsLeft := callsLeft;
    }

    function After(ok: bool): Outcome
      reads this
    {
      Outcome(registry, callsLeft, ok)
    }

    method Make(call: Call) returns (ok: bool)
      modifies this
      ensures After(ok) == Run(old(registry), [call], old(callsLeft))
    {
      ok := callsLeft > 0;
      if ok {
        assert [call][1..] == [];
        callsLeft, registry := callsLeft - 1, Perform(registry, call);
      }
    }
  }

  class SubscriptionService {
    const port: Port
    const crypto: Crypto
    var cache: Cache

    constructor (port: Port, crypto: Crypto)
      ensures this.port == port && this.crypto == crypto && cache == map[]
    {
      this.port, this.crypto, cache := port, crypto, map[];
    }

    method IsSubscriptionsMatching(newSub: NewSubscription, existing: Subscription) returns (matching: bool)
      requires newSub.name in port.registry.subscriptions && existing == port.registry.subscriptions[newSub.name]
      ensures matching == Matching(crypto, port.registry, newSub)
    {
      if existing.requestPrefill != newSub.requestPrefill {
        return false;
      }
      if newSub.realmsTopics != existing.realmsTopics {
        return false;
      }
      var hashed := Lookup(port.registry.credentials, newSub.name);
      matching := hashed.Some? && crypto.verify(newSub.password, hashed.value);
    }

    method PrepareAndStoreSubscriptionInfo(newSub: NewSubscription) returns (ok: bool)
      modifies port
      ensures port.After(ok) == Run(old(port.registry), InfoCalls(newSub), old(port.callsLeft))
    {
      hide Run, Perform;
      var status := if newSub.requestPrefill then Pending else Done;
      var info := Subscription(newSub.name, newSub.realmsTopics, newSub.requestPrefill, status);
      assert InfoCalls(newSub) ==
             [PutSubscription(info)] + ([EnsureStream(newSub.name)] + [EnsureConsumer(newSub.name)]);
      RunConcat(port.registry, [PutSubscription(info)], [EnsureStream(newSub.name)] + [EnsureConsumer(newSub.name)],
                port.callsLeft);
      ok := port.Make(PutSubscription(info));
      if ok {
        RunConcat(port.registry, [EnsureStream(newSub.name)], [EnsureConsumer(newSub.name)], port.callsLeft);
        ok := port.Make(EnsureStream(newSub.name));
      }
      if ok {
        ok := port.Make(EnsureConsumer(newSub.name));
      }
    }

    /** create_subscription with register_subscription; `hash` is what bcrypt happened to produce. */
    method CreateSubscription(newSub: NewSubscription, hash: Hash) returns (result: CreateResult)
      modifies port
      ensures (port.registry, result) == Create(crypto, old(port.registry), newSub, hash, old(port.callsLeft))
    {
      if newSub.name in port.registry.subscriptions {
        var matching := IsSubscriptionsMatching(newSub, port.registry.subscriptions[newSub.name]);
        return if matching then Exists else Conflict;
      }
      hide Run, Perform, InfoCalls;
      RunConcat(port.registry, [PutCredentials(newSub.name, hash)], InfoCalls(newSub) + PrefillCalls(newSub),
                port.callsLeft);
      var ok := port.Make(PutCredentials(newSub.name, hash));
      if !ok {
        return Interrupted;
      }
      RunConcat(port.registry, InfoCalls(newSub), PrefillCalls(newSub), port.callsLeft);
      ok := PrepareAndStoreSubscriptionInfo(newSub);
      if !ok {
        return Interrupted;
      }
      if newSub.requestPrefill {
        ok := port.Make(RequestPrefill(PrefillRequest(newSub.name, newSub.realmsTopics)));
        if !ok {
          return Interrupted;
        }
      } else {
        RunNothing(port.registry, port.callsLeft);
      }
      result := Created;
    }

    method DeleteSubscription(name: string) returns (reply: Reply)
      modifies port
      ensures (port.registry, reply) == Delete(old(port.registry), name, old(port.callsLeft))
    {
      if name !in port.registry.subscriptions {
        return NotFound;
      }
      hide Run, Perform;
      var info, stream, consumer := DeleteSubscriptionInfo(name), DeleteStream(name), DeleteConsumer(name);
      RunConcat(port.registry, [DeleteCredentials(name)], [info] + ([stream] + [consumer]), port.callsLeft);
      var ok := port.Make(DeleteCredentials(name));
      if ok {
        RunConcat(port.registry, [info], [stream] + [consumer], port.callsLeft);
        ok := port.Make(info);
      }
      if ok {
        RunConcat(port.registry, [stream], [consumer], port.callsLeft);
        ok := port.Make(stream);
      }
      if ok {
        ok := port.Make(consumer);
      }
      reply := if ok then Ok else Broken;
    }

    /** What set_subscription_queue_status does once it has read the record; others may have written in between. */
    method FinishSetSubscriptionQueueStatus(info: Subscription, status: FillQueueStatus) returns (reply: Reply)
      modifies port
      ensures (port.registry, reply) == FinishSetStatus(old(port.registry), info, status, old(port.callsLeft))
    {
      var ok := port.Make(PutSubscription(info.(prefillQueueStatus := status)));
      reply := if ok then Ok else Broken;
    }

    method SetSubscriptionQueueStatus(name: string, status: FillQueueStatus) returns (reply: Reply)
      modifies port
      ensures (port.registry, reply) == SetStatus(old(port.registry), name, status, old(port.callsLeft))
    {
      if name !in port.registry.subscriptions {
        return NotFound;
      }
      reply := FinishSetSubscriptionQueueStatus(port.registry.subscriptions[name], status);
    }

    /** The TTL cache may drop any of its entries at any time. */
    method Expire(keys: set<Key>)
      modifies this`cache
      ensures cache == old(cache) - keys
    {
      cache := cache - keys;
    }

    method VerifyAndUpdatePassword(key: Key) returns (verdict: Verdict)
      modifies this`cache
      ensures verdict == if key in old(cache) then old(cache)[key] else VerifyAndUpdate(crypto, key.password, key.hash)
      ensures cache == old(cache)[key := verdict]
    {
      if key !in cache {
        cache := cache[key := VerifyAndUpdate(crypto, key.password, key.hash)];
      }
      verdict := cache[key];
    }

    /** What authenticate_user does once it has read the stored hash; others may have written in between. */
    method FinishAuthenticateUser(user: string, password: string, subscription: Option<string>, hashed: Option<Hash>)
      returns (result: AuthResult)
      modifies port, this`cache
      ensures (Session(port.registry, cache), result) ==
              FinishAuthenticate(crypto, old(Session(port.registry, cache)), user, password, subscription, hashed,
                                 old(port.callsLeft))
    {
      hide Run, Perform;
      if subscription.Some? && subscription.value != "" && subscription.value != user {
        return Rejected;
      }
      var key := Key(password, hashed, subscription);
      var verdict := VerifyAndUpdatePassword(key);
      if verdict.valid {
        var ok := true;
        if verdict.newHash.Some? {
          ok := port.Make(PutCredentials(user, verdict.newHash.value));
        } else {
          RunNothing(port.registry, port.callsLeft);
        }
        result := if ok then Accepted else Unanswered;
      } else {
        assert cache - {key} == old(cache) - {key};
        cache := cache - {key};
        result := Rejected;
      }
    }

    method AuthenticateUser(user: string, password: string, subscription: Option<string>) returns (result: AuthResult)
      modifies port, this`cache
      ensures (Session(port.registry, cache), result) ==
              Authenticate(crypto, old(Session(port.registry, cache)), user, password, subscription,
                           old(port.callsLeft))
    {
      var hashed := Lookup(port.registry.credentials, user);
      result := FinishAuthenticateUser(user, password, subscription, hashed);
    }
  }
}
