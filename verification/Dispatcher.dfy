/** The dispatcher: the reverse index of subscriptions and the fan-out (server/core/dispatcher/). */
module Dispatcher {
  import opened Models

  // ---------- The index ----------

  /** A Python set of subscriptions: an object with an identity, shared by everyone who looked it up. */
  class SubscriptionSet {
    var members: set<Subscription>

    constructor ()
      ensures members == {}
    {
      members := {};
    }
  }

  /** {realm: {topic: set of subscriptions}} */
  type Mapping = map<string, map<string, SubscriptionSet>>

  predicate Wants(sub: Subscription, realm: string, topic: string) {
    RealmTopic(realm, topic) in sub.realmsTopics
  }

  /** The specification of the index: look at every subscription. */
  function Scan(subs: seq<Subscription>, realm: string, topic: string): set<Subscription> {
    set s | s in subs && Wants(s, realm, topic)
  }

  function Names(subs: set<Subscription>): set<string> {
    set s | s in subs :: s.name
  }

  predicate DistinctNames(subs: seq<Subscription>) {
    forall i, j :: 0 <= i < j < |subs| ==> subs[i].name != subs[j].name
  }

  predicate Has(m: Mapping, rt: RealmTopic) {
    rt.realm in m && rt.topic in m[rt.realm]
  }

  function At(m: Mapping, rt: RealmTopic): SubscriptionSet
    requires Has(m, rt)
  {
    m[rt.realm][rt.topic]
  }

  function Pairs(subs: seq<Subscription>): set<(Subscription, RealmTopic)> {
    set s, rt | s in subs && rt in s.realmsTopics :: (s, rt)
  }

  function PairsWith(sub: Subscription, rts: seq<RealmTopic>): set<(Subscription, RealmTopic)> {
    set rt | rt in rts :: (sub, rt)
  }

  /** The entries are exactly the given pairs, under sets nobody shares, and none of them is empty. */
  ghost predicate Indexes(m: Mapping, sets: set<SubscriptionSet>, pairs: set<(Subscription, RealmTopic)>)
    reads sets
  {
    && NoSharing(m, sets)
    && (forall r :: r in m ==> m[r] != map[])
    && (forall rt :: Has(m, rt) ==> At(m, rt).members != {})
    && (forall rt, s :: Has(m, rt) ==> (s in At(m, rt).members <==> (s, rt) in pairs))
    && (forall rt, s :: (s, rt) in pairs ==> Has(m, rt))
  }

  ghost predicate NoSharing(m: Mapping, sets: set<SubscriptionSet>) {
    && (forall rt :: Has(m, rt) ==> At(m, rt) in sets)
    && (forall rt, rt' :: Has(m, rt) && Has(m, rt') && At(m, rt) == At(m, rt') ==> rt == rt')
  }

  /** `mapping.setdefault(realm, {}).setdefault(topic, set()).add(sub)` */
  method AddToMapping(m: Mapping, ghost sets: set<SubscriptionSet>, rt: RealmTopic, sub: Subscription)
    returns (m': Mapping, ghost sets': set<SubscriptionSet>)
    requires NoSharing(m, sets)
    modifies if Has(m, rt) then {At(m, rt)} else {}
    ensures NoSharing(m', sets') && sets <= sets' && fresh(sets' - sets)
    ensures m'.Keys == m.Keys + {rt.realm}
    ensures forall r :: r in m && r != rt.realm ==> m'[r] == m[r]
    ensures forall rt' :: Has(m', rt') <==> Has(m, rt') || rt' == rt
    ensures forall rt' :: Has(m, rt') ==> At(m', rt') == At(m, rt')
    ensures At(m', rt).members == (if Has(m, rt) then old(At(m, rt).members) else {}) + {sub}
  {
    sets' := sets;
    var topics := if rt.realm in m then m[rt.realm] else map[];
    if rt.topic !in topics {
      var empty := new SubscriptionSet();
      topics := topics[rt.topic := empty];
      sets' := sets + {empty};
    }
    m' := m[rt.realm := topics];
    assert forall rt' :: Has(m', rt') <==> Has(m, rt') || rt' == rt;
    assert forall rt' :: Has(m', rt') ==> At(m', rt') == if rt' == rt then topics[rt.topic] else At(m, rt');
    topics[rt.topic].members := topics[rt.topic].members + {sub};
  }

  method AddPair(m: Mapping, ghost sets: set<SubscriptionSet>, ghost pairs: set<(Subscription, RealmTopic)>,
                 rt: RealmTopic, sub: Subscription)
    returns (m': Mapping, ghost sets': set<SubscriptionSet>)
    requires Indexes(m, sets, pairs)
    modifies sets
    ensures Indexes(m', sets', pairs + {(sub, rt)})
    ensures sets <= sets' && fresh(sets' - sets)
  {
    m', sets' := AddToMapping(m, sets, rt, sub);
    assert Has(m', rt) && rt.topic in m'[rt.realm];
  }

  method AddSubscription(m: Mapping, ghost sets: set<SubscriptionSet>, ghost pairs: set<(Subscription, RealmTopic)>,
                         sub: Subscription)
    returns (m': Mapping, ghost sets': set<SubscriptionSet>)
    requires Indexes(m, sets, pairs)
    modifies sets
    ensures Indexes(m', sets', pairs + PairsWith(sub, sub.realmsTopics))
    ensures sets <= sets' && fresh(sets' - sets)
  {
    var rts := sub.realmsTopics;
    m', sets' := m, sets;
    assert pairs + PairsWith(sub, []) == pairs;
    for j := 0 to |rts|
      invariant sets <= sets' && fresh(sets' - sets)
      invariant Indexes(m', sets', pairs + PairsWith(sub, rts[..j]))
    {
      PairsWithSnoc(pairs, sub, rts, j);
      m', sets' := AddPair(m', sets', pairs + PairsWith(sub, rts[..j]), rts[j], sub);
    }
    assert rts[..|rts|] == rts;
  }

  lemma PairsWithSnoc(pairs: set<(Subscription, RealmTopic)>, sub: Subscription, rts: seq<RealmTopic>, j: nat)
    requires j < |rts|
    ensures pairs + PairsWith(sub, rts[..j + 1]) == pairs + PairsWith(sub, rts[..j]) + {(sub, rts[j])}
  {
    assert rts[..j + 1] == rts[..j] + [rts[j]];
  }

  lemma PairsSnoc(subs: seq<Subscription>, i: nat)
    requires i < |subs|
    ensures Pairs(subs[..i + 1]) == Pairs(subs[..i]) + PairsWith(subs[i], subs[i].realmsTopics)
  {
    assert subs[..i + 1] == subs[..i] + [subs[i]];
  }

  method BuildMapping(subs: seq<Subscription>) returns (m: Mapping, ghost sets: set<SubscriptionSet>)
    ensures fresh(sets) && Indexes(m, sets, Pairs(subs))
  {
    m, sets := map[], {};
    for i := 0 to |subs|
      invariant fresh(sets) && Indexes(m, sets, Pairs(subs[..i]))
    {
      PairsSnoc(subs, i);
      m, sets := AddSubscription(m, sets, Pairs(subs[..i]), subs[i]);
    }
    assert subs[..|subs|] == subs;
  }

  // ---------- The fan-out ----------

  /** An entry of a subscription's main subject, marked with its sequence number in the incoming queue. */
  datatype Delivery = Delivery(seqNo: nat, message: Message)

  type Streams = map<string, seq<Delivery>>

  function Publish(streams: Streams, names: set<string>, d: Delivery): Streams {
    map n | n in streams :: if n in names then streams[n] + [d] else streams[n]
  }

  /** Deleting a subscription deletes its stream; creating one leaves a stream that is there as it is. */
  function Changed(streams: Streams, created: set<string>, deleted: set<string>): Streams {
    map n | n in (streams.Keys - deleted) + created :: if n in streams && n !in deleted then streams[n] else []
  }

  /** The list in use after n sends: the last one read while they were awaited, or the one from before. */
  function Installed(before: seq<Subscription>, rebuilds: map<nat, seq<Subscription>>, n: nat): seq<Subscription> {
    if n == 0 then before else if n - 1 in rebuilds then rebuilds[n - 1] else Installed(before, rebuilds, n - 1)
  }

  lemma {:induction false} InstalledLast(before: seq<Subscription>, rebuilds: map<nat, seq<Subscription>>, n: nat,
                                         i: nat)
    requires i <= n && forall j :: i <= j < n ==> j !in rebuilds
    ensures i == 0 ==> Installed(before, rebuilds, n) == before
    ensures i > 0 && i - 1 in rebuilds ==> Installed(before, rebuilds, n) == rebuilds[i - 1]
  {
    if i < n {
      InstalledLast(before, rebuilds, n - 1, i);
    }
  }

  lemma {:induction false} InstalledFrom(before: seq<Subscription>, rebuilds: map<nat, seq<Subscription>>, n: nat)
    ensures Installed(before, rebuilds, n) in {before} + rebuilds.Values
  {
    if n > 0 && n - 1 !in rebuilds {
      InstalledFrom(before, rebuilds, n - 1);
    }
  }

  /** The port; `callsLeft` is the number of calls that still succeed before the process fails. */
  class DispatcherPort {
    var streams: Streams
    var callsLeft: nat

    constructor (streams: Streams)
      ensures this.streams == streams
    {
      this.streams := streams;
    }

    method Restart(callsLeft: nat)
      modifies this`callsLeft
      ensures this.callsLeft == callsLeft
    {
      this.callsLeft := callsLeft;
    }

    /** What registrations and deletions do to the streams. */
    method Change(created: set<string>, deleted: set<string>)
      modifies this`streams
      ensures streams == Changed(old(streams), created, deleted)
    {
      streams := Changed(streams, created, deleted);
    }

    /** Publishing fails when the stream of the subscription does not exist. */
    method SendMessageToSubscription(name: string, d: Delivery) returns (ok: bool)
      modifies this
      ensures ok == (old(callsLeft) > 0 && name in old(streams))
      ensures ok ==> callsLeft == old(callsLeft) - 1
      ensures streams == if ok then old(streams)[name := old(streams)[name] + [d]] else old(streams)
    {
      ok := callsLeft > 0 && name in streams;
      if ok {
        callsLeft, streams := callsLeft - 1, streams[name := streams[name] + [d]];
      }
    }

    method AcknowledgeMessage() returns (ok: bool)
      modifies this`callsLeft
      ensures ok == (old(callsLeft) > 0)
    {
      ok := callsLeft > 0;
      if ok {
        callsLeft := callsLeft - 1;
      }
    }
  }

  class DispatcherService {
    const port: DispatcherPort
    var subscriptions: Mapping
    ghost var known: seq<Subscription>
    ghost var sets: set<SubscriptionSet>

    /** The mapping in use is the index of the subscriptions last read. */
    ghost predicate Valid()
      reads this, sets
    {
      DistinctNames(known) && Indexes(subscriptions, sets, Pairs(known))
    }

    constructor (port: DispatcherPort)
      ensures Valid() && this.port == port && known == []
    {
      this.port, subscriptions, known, sets := port, map[], [], {};
    }

    /** Fills a new mapping and then installs it; no set that was reachable before is touched. */
    method UpdateSubscriptionsMapping(subs: seq<Subscription>)
      requires DistinctNames(subs)
      modifies this`subscriptions, this`known, this`sets
      ensures Valid() && known == subs && fresh(sets)
    {
      subscriptions, sets := BuildMapping(subs);
      known := subs;
    }

    /** What a lookup of the index gives is what a scan of the subscriptions gives. */
    lemma IndexEqualsScan(realm: string, topic: string)
      requires Valid()
      ensures var rt := RealmTopic(realm, topic);
              && (Has(subscriptions, rt) ==> At(subscriptions, rt).members == Scan(known, realm, topic))
              && (!Has(subscriptions, rt) ==> Scan(known, realm, topic) == {})
      ensures realm in subscriptions ==> exists s, t :: s in known && Wants(s, realm, t)
    {
      var rt := RealmTopic(realm, topic);
      forall s
        ensures s in Scan(known, realm, topic) <==> Has(subscriptions, rt) && s in At(subscriptions, rt).members
      {
        assert (s, rt) in Pairs(known) <==> s in known && rt in s.realmsTopics;
      }
      if realm in subscriptions {
        var t :| t in subscriptions[realm];
        assert Has(subscriptions, RealmTopic(realm, t));
        var s :| s in At(subscriptions, RealmTopic(realm, t)).members;
        assert (s, RealmTopic(realm, t)) in Pairs(known);
        assert Wants(s, realm, t);
      }
    }

    /** Whether the subscriptions in use are `before` or come from one of the lists read since. */
    ghost predicate ReadFrom(before: seq<Subscription>, rebuilds: map<nat, seq<Subscription>>)
      reads this, sets
    {
      Valid() && (known == before || known in rebuilds.Values)
    }

    /** What the watcher of the subscription bucket does while the i-th send is awaited. */
    method Watch(i: nat, rebuilds: map<nat, seq<Subscription>>)
      requires Valid() && forall subs :: subs in rebuilds.Values ==> DistinctNames(subs)
      modifies this`subscriptions, this`known, this`sets
      ensures Valid() && known == if i in rebuilds then rebuilds[i] else old(known)
    {
      if i in rebuilds {
        UpdateSubscriptionsMapping(rebuilds[i]);
      }
    }

    /**
      The send loop over a set that was looked up. Before the i-th send a changed subscription
      list may have been read (`rebuilds`); the set in hand is not affected.
     */
    method SendToAll(found: SubscriptionSet, d: Delivery, rebuilds: map<nat, seq<Subscription>>)
      returns (ok: bool, ghost sent: set<string>)
      requires Valid() && forall subs :: subs in rebuilds.Values ==> DistinctNames(subs)
      requires NamedApart(found.members)
      modifies port, this`subscriptions, this`known, this`sets
      ensures ReadFrom(old(known), rebuilds)
      ensures ok ==> known == Installed(old(known), rebuilds, |found.members|)
      ensures sent <= Names(found.members) * old(port.streams).Keys
      ensures port.streams == Publish(old(port.streams), sent, d)
      ensures ok ==> sent == Names(found.members) && port.callsLeft == old(port.callsLeft) - |found.members|
      ensures ok <==> |found.members| <= old(port.callsLeft) && Names(found.members) <= old(port.streams).Keys
    {
      hide Indexes, DistinctNames, NamedApart, Publish;
      PublishNothing(port.streams, d);
      ghost var targets, streams, budget := found.members, port.streams, port.callsLeft;
      var done: set<Subscription> := {};
      sent, ok := {}, true;
      while done != found.members
        invariant ok && ReadFrom(old(known), rebuilds) && known == Installed(old(known), rebuilds, |done|)
        invariant found.members == targets && done <= targets
        invariant sent == Names(done) && sent <= streams.Keys
        invariant port.streams == Publish(streams, sent, d)
        invariant port.callsLeft == budget - |done|
        decreases targets - done
      {
        Watch(|done|, rebuilds);
        ProperSubset(done, targets);
        var sub :| sub in found.members && sub !in done;
        NamesOneMore(done, targets, sub);
        PublishOneMore(streams, sent, sub.name, d);
        ok := port.SendMessageToSubscription(sub.name, d);
        if !ok {
          return;
        }
        done, sent := done + {sub}, sent + {sub.name};
      }
    }

    /** Sends `d` to every subscription found at the lookup and then acknowledges it. */
    method HandleMessage(d: Delivery, rebuilds: map<nat, seq<Subscription>>) returns (ok: bool, ghost sent: set<string>)
      requires Valid() && forall subs :: subs in rebuilds.Values ==> DistinctNames(subs)
      modifies port, this`subscriptions, this`known, this`sets
      ensures ReadFrom(old(known), rebuilds)
      ensures var targets := Scan(old(known), d.message.realm, d.message.topic);
              && sent <= Names(targets)
              && (ok ==> known == Installed(old(known), rebuilds, |targets|))
              && port.streams == Publish(old(port.streams), sent, d)
              && (ok ==> sent == Names(targets))
              && (ok <==> |targets| < old(port.callsLeft) && Names(targets) <= old(port.streams).Keys)
    {
      IndexEqualsScan(d.message.realm, d.message.topic);
      var rt := RealmTopic(d.message.realm, d.message.topic);
      ok, sent := true, {};
      if Has(subscriptions, rt) {
        ok, sent := SendToAll(At(subscriptions, rt), d, rebuilds);
      } else {
        PublishNothing(port.streams, d);
      }
      if ok {
        ok := port.AcknowledgeMessage();
      }
    }
  }

  predicate NamedApart(subs: set<Subscription>) {
    forall s, s' :: s in subs && s' in subs && s.name == s'.name ==> s == s'
  }

  lemma PublishNothing(streams: Streams, d: Delivery)
    ensures Publish(streams, {}, d) == streams
  {
  }

  lemma PublishOneMore(streams: Streams, sent: set<string>, name: string, d: Delivery)
    requires name !in sent
    ensures var p := Publish(streams, sent, d);
            && p.Keys == streams.Keys
            && (name in streams ==> Publish(streams, sent + {name}, d) == p[name := p[name] + [d]])
  {
  }

  lemma NamesOneMore(done: set<Subscription>, targets: set<Subscription>, sub: Subscription)
    requires NamedApart(targets) && done <= targets && sub in targets && sub !in done
    ensures sub.name !in Names(done) && Names(done + {sub}) == Names(done) + {sub.name}
    ensures done + {sub} <= targets && |done + {sub}| == |done| + 1
    ensures targets - (done + {sub}) < targets - done
  {
  }

  lemma ProperSubset<T>(a: set<T>, b: set<T>)
    requires a <= b && a != b
    ensures |a| < |b| && exists x :: x in b && x !in a
  {
    assert b - a != {} && |b| == |a| + |b - a| by {
      assert a + (b - a) == b;
    }
  }
}
