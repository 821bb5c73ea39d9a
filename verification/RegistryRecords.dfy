/** What a registration stores and keeps, and what each answer of the registry says about its state. */
module RegistryRecords {
  import opened Models
  import opened Sequences
  import opened Registry
  import opened RegistryRuns
  import Gate

  // ---------- The record, its status and the prefill request ----------

  /** The prefill requests for a name, in the order in which they were queued. */
  function RequestsOf(r: Registry, name: string): seq<PrefillRequest> {
    Filter((q: PrefillRequest) => q.subscriptionName == name, r.requests)
  }

  /** The last status that the operations give to the name, if they give any. */
  function StatusAfter(first: FillQueueStatus, ops: seq<Op>, name: string): FillQueueStatus {
    if ops == [] then first
    else if Last(ops).DoSetStatus? && Last(ops).name == name then Last(ops).status
    else StatusAfter(first, DropLast(ops), name)
  }

  predicate SetsStatusOf(op: Op, name: string) {
    op.DoSetStatus? && op.name == name
  }

  /** The name is registered with these parameters and this status, and exactly these requests for it are queued. */
  predicate Holds(r: Registry, name: string, realmsTopics: seq<RealmTopic>, requestPrefill: bool,
                  status: FillQueueStatus, requests: seq<PrefillRequest>) {
    && name in r.subscriptions
    && r.subscriptions[name] == Subscription(name, realmsTopics, requestPrefill, status)
    && RequestsOf(r, name) == requests
  }

  lemma RequestAdded(r: Registry, name: string, q: PrefillRequest)
    ensures RequestsOf(r.(requests := r.requests + [q]), name) ==
            if q.subscriptionName == name then RequestsOf(r, name) + [q] else RequestsOf(r, name)
  {
    FilterSnoc((x: PrefillRequest) => x.subscriptionName == name, r.requests, q);
  }

  /** Every write of a registration, one after the other. */
  lemma StageHolds(r: Registry, new_: NewSubscription, hash: Hash, name: string)
    ensures var r' := Stage(r, new_, hash, CallCount(new_));
            if name == new_.name then
              Holds(r', name, new_.realmsTopics, new_.requestPrefill,
                    if new_.requestPrefill then Pending else Done,
                    RequestsOf(r, name)
                    + if new_.requestPrefill then [PrefillRequest(name, new_.realmsTopics)] else [])
            else
              && RequestsOf(r', name) == RequestsOf(r, name)
              && Lookup(r'.subscriptions, name) == Lookup(r.subscriptions, name)
  {
    hide Filter;
    RequestAdded(r, name, PrefillRequest(new_.name, new_.realmsTopics));
    assert RequestsOf(r, name) + [] == RequestsOf(r, name);
  }

  lemma OperationKeeps(c: Crypto, s: Session, op: Op, name: string, realmsTopics: seq<RealmTopic>,
                       requestPrefill: bool, status: FillQueueStatus, requests: seq<PrefillRequest>)
    requires Coupled(s.registry) && CacheSound(c, s.cache) && LeavesAlone(op, name)
    requires Holds(s.registry, name, realmsTopics, requestPrefill, status, requests)
    ensures Holds(Apply(c, s, op).registry, name, realmsTopics, requestPrefill,
                  if SetsStatusOf(op, name) then op.status else status, requests)
  {
    hide Run, Filter, Stage, DeleteStage;
    match op
    case DoCreate(other, hash) =>
      CreateStages(s.registry, other, hash, UNINTERRUPTED);
      StageHolds(s.registry, other, hash, name);
    case DoDelete(other) =>
      DeleteStages(s.registry, other, UNINTERRUPTED);
      Deleted(s.registry, other, name);
    case DoSetStatus(other, new_) =>
      if other in s.registry.subscriptions {
        Finished(s.registry, s.registry.subscriptions[other], new_);
        CoupledNames(s.registry, other);
      }
    case DoAuthenticate(user, password, subscription) =>
      AuthenticationIsDirect(c, s, user, password, subscription, UNINTERRUPTED);
    case Expire(keys) =>
  }

  lemma Deleted(r: Registry, other: string, name: string)
    requires other != name
    ensures var r' := DeleteStage(r, other, 4);
            r'.requests == r.requests && Lookup(r'.subscriptions, name) == Lookup(r.subscriptions, name)
  {
  }

  /**
    Once a free name is registered, its record has the given name, topics and prefill flag, and a
    prefill request with these topics is queued exactly if one was asked for. Its status is the
    last one reported since, and before the first report it is pending if prefill was asked for
    and done if not. Operations that neither register nor delete the name keep all that.
   */
  lemma {:induction false} RegistrationHolds(c: Crypto, s: Session, new_: NewSubscription, hash: Hash, ops: seq<Op>)
    requires Coupled(s.registry) && CacheSound(c, s.cache) && new_.name !in s.registry.subscriptions
    requires forall op :: op in ops ==> LeavesAlone(op, new_.name)
    ensures Holds(ApplyAll(c, Apply(c, s, DoCreate(new_, hash)), ops).registry, new_.name, new_.realmsTopics,
                  new_.requestPrefill, StatusAfter(if new_.requestPrefill then Pending else Done, ops, new_.name),
                  RequestsOf(s.registry, new_.name)
                  + if new_.requestPrefill then [PrefillRequest(new_.name, new_.realmsTopics)] else [])
  {
    hide Apply, Holds, RequestsOf;
    var created := Apply(c, s, DoCreate(new_, hash));
    ApplyKeepsCoupling(c, s, DoCreate(new_, hash));
    if ops == [] {
      FirstHolds(c, s, new_, hash);
    } else {
      var before := ApplyAll(c, created, DropLast(ops));
      assert Last(ops) in ops;
      RegistrationHolds(c, s, new_, hash, DropLast(ops));
      OperationsKeepCoupling(c, created, DropLast(ops));
      OperationKeeps(c, before, Last(ops), new_.name, new_.realmsTopics, new_.requestPrefill,
                     StatusAfter(if new_.requestPrefill then Pending else Done, DropLast(ops), new_.name),
                     RequestsOf(s.registry, new_.name)
                     + if new_.requestPrefill then [PrefillRequest(new_.name, new_.realmsTopics)] else []);
    }
  }

  lemma FirstHolds(c: Crypto, s: Session, new_: NewSubscription, hash: Hash)
    requires new_.name !in s.registry.subscriptions
    ensures Holds(Apply(c, s, DoCreate(new_, hash)).registry, new_.name, new_.realmsTopics, new_.requestPrefill,
                  if new_.requestPrefill then Pending else Done,
                  RequestsOf(s.registry, new_.name)
                  + if new_.requestPrefill then [PrefillRequest(new_.name, new_.realmsTopics)] else [])
  {
    hide Run, Stage, Holds, RequestsOf;
    CreateStages(s.registry, new_, hash, UNINTERRUPTED);
    StageHolds(s.registry, new_, hash, new_.name);
  }

  lemma {:induction false} NoStatusSet(first: FillQueueStatus, ops: seq<Op>, name: string)
    requires forall op :: op in ops ==> !SetsStatusOf(op, name)
    ensures StatusAfter(first, ops, name) == first
  {
    if ops != [] {
      assert Last(ops) in ops;
      NoStatusSet(first, DropLast(ops), name);
    }
  }

  /**
    As long as nobody reports a status, a registered subscription is where a run of the gate
    starts: pending exactly if its prefill request is queued, and otherwise done.
   */
  lemma {:induction false} GateStartsAsRegistered(c: Crypto, s: Session, new_: NewSubscription, hash: Hash,
                                                  ops: seq<Op>)
    requires Coupled(s.registry) && CacheSound(c, s.cache) && new_.name !in s.registry.subscriptions
    requires RequestsOf(s.registry, new_.name) == []
    requires forall op :: op in ops ==> LeavesAlone(op, new_.name) && !SetsStatusOf(op, new_.name)
    ensures var r := ApplyAll(c, Apply(c, s, DoCreate(new_, hash)), ops).registry;
            && new_.name in r.subscriptions
            && var record := r.subscriptions[new_.name];
            && record.prefillQueueStatus == Gate.Init(new_.requestPrefill).sub.status
            && (record.prefillQueueStatus == Pending <==> new_.requestPrefill)
            && (record.prefillQueueStatus == Done <==> !new_.requestPrefill)
            && RequestsOf(r, new_.name) ==
               (if record.prefillQueueStatus == Pending then [PrefillRequest(new_.name, new_.realmsTopics)] else [])
            && (Gate.Init(new_.requestPrefill).worker.Waiting? <==> RequestsOf(r, new_.name) != [])
  {
    hide ApplyAll, Apply, RequestsOf;
    RegistrationHolds(c, s, new_, hash, ops);
    NoStatusSet(if new_.requestPrefill then Pending else Done, ops, new_.name);
  }

  // ---------- What the answers say ----------

  /** The parts of a registration are all there, with its own hash and record. */
  predicate Complete(r: Registry, new_: NewSubscription, hash: Hash) {
    && new_.name in r.credentials && r.credentials[new_.name] == hash
    && new_.name in r.subscriptions && new_.name in r.streams && new_.name in r.consumers
    && (new_.requestPrefill ==>
          r.requests != [] && Last(r.requests) == PrefillRequest(new_.name, new_.realmsTopics))
  }

  /** Created answers a registration of a free name that made all its writes, interrupted one that did not. */
  lemma RegistrationAnswers(c: Crypto, r: Registry, new_: NewSubscription, hash: Hash, budget: nat)
    ensures var (r', result) := Create(c, r, new_, hash, budget);
            var free, writes := new_.name !in r.subscriptions, if new_.requestPrefill then 5 else 4;
            && (result == Created <==> free && writes <= budget)
            && (result == Interrupted <==> free && budget < writes)
            && (result == Created ==> Complete(r', new_, hash))
            && (result in {Exists, Conflict} ==> r' == r)
  {
    hide Run;
    CreateStages(r, new_, hash, budget);
  }

  /** Ok answers a deletion that found the subscription and removed all of it. */
  lemma DeletionAnswers(r: Registry, name: string, budget: nat)
    ensures var (r', reply) := Delete(r, name, budget);
            && (reply == NotFound <==> name !in r.subscriptions)
            && (reply == Ok <==> name in r.subscriptions && 4 <= budget)
            && (reply == Ok ==> Unused(r', name))
            && (reply == NotFound ==> r' == r)
            && r'.requests == r.requests
  {
    hide Run;
    DeleteStages(r, name, budget);
  }

  /** Ok answers an update after which the record differs from the one read in its status only. */
  lemma StatusAnswers(r: Registry, name: string, status: FillQueueStatus, budget: nat)
    requires Coupled(r)
    ensures var (r', reply) := SetStatus(r, name, status, budget);
            && (reply == NotFound <==> name !in r.subscriptions)
            && (reply == Ok <==> name in r.subscriptions && budget > 0)
            && (reply != Ok ==> r' == r)
            && (reply == Ok ==>
                  && r'.subscriptions.Keys == r.subscriptions.Keys
                  && r'.subscriptions[name].prefillQueueStatus == status
                  && SameUpToStatus(r'.subscriptions[name], r.subscriptions[name])
                  && (forall n :: n in r.subscriptions && n != name ==> r'.subscriptions[n] == r.subscriptions[n])
                  && r'.(subscriptions := r.subscriptions) == r)
  {
    hide Run;
    if name in r.subscriptions {
      CoupledNames(r, name);
      OneCall(r, PutSubscription(r.subscriptions[name].(prefillQueueStatus := status)), budget);
    }
  }

  /** Unanswered is a valid password whose upgraded hash could not be stored. */
  lemma AuthenticationAnswers(c: Crypto, s: Session, user: string, password: string, subscription: Option<string>,
                              budget: nat)
    requires CacheSound(c, s.cache)
    ensures var (s', result) := Authenticate(c, s, user, password, subscription, budget);
            var valid := MayAccess(user, subscription) && VerifyStored(c, s.registry, user, password);
            && (result == Rejected <==> !valid)
            && (result == Unanswered <==>
                valid && c.upgrade(password, s.registry.credentials[user]).Some? && budget == 0)
            && (result == Accepted && c.upgrade(password, s.registry.credentials[user]).Some? ==>
                  s'.registry.credentials ==
                  s.registry.credentials[user := c.upgrade(password, s.registry.credentials[user]).value])
  {
    hide Run;
    var hashed := Lookup(s.registry.credentials, user);
    RunNothing(s.registry, budget);
    if hashed.Some? && c.upgrade(password, hashed.value).Some? {
      OneCall(s.registry, PutCredentials(user, c.upgrade(password, hashed.value).value), budget);
    }
  }

  /**
    After a valid login the verdict is cached under the password, hash and subscription it was made
    for, and after a rejected one nothing is; the next login with the same ones is answered from there.
   */
  lemma AuthenticationCaches(c: Crypto, s: Session, user: string, password: string, subscription: Option<string>,
                             budget: nat)
    requires CacheSound(c, s.cache) && MayAccess(user, subscription)
    ensures var (s', result) := Authenticate(c, s, user, password, subscription, budget);
            var key := Key(password, Lookup(s.registry.credentials, user), subscription);
            && (key in s'.cache <==> VerifyStored(c, s.registry, user, password))
            && (key in s'.cache ==> s'.cache[key] == VerifyAndUpdate(c, password, key.hash))
            && s'.cache - {key} == s.cache - {key}
  {
    hide Run;
  }
}
