/** What a subscriber holds after its prefill: the part of the directory its topic patterns match. */
module Snapshot {
  import opened Models
  import opened Sequences
  import opened Replica
  import opened Dispatcher
  import opened Prefill
  import opened PrefillRetry
  import opened Subscriber

  /** Every object is listed exactly under its own type, and a uuid stands for one object. */
  ghost predicate Consistent(dir: Directory) {
    && (forall t, url :: t in dir.listing && url in dir.listing[t] ==>
          url in dir.objects && dir.objects[url].objectType == t)
    && (forall url :: url in dir.objects ==>
          && dir.objects[url].objectType in dir.objectTypes
          && dir.objects[url].objectType in dir.listing
          && url in dir.listing[dir.objects[url].objectType])
    && (forall a, b :: a in dir.objects && b in dir.objects && dir.objects[a].uuid == dir.objects[b].uuid ==>
          dir.objects[a] == dir.objects[b])
  }

  function All(dir: Directory): Objects
    requires Consistent(dir)
  {
    map url | url in dir.objects :: dir.objects[url].uuid := dir.objects[url]
  }

  /** Some topic pattern of the udm realm matches the type. */
  ghost predicate Asked(matches: Matches, rts: seq<RealmTopic>, objectType: string) {
    exists rt :: rt in rts && rt.realm == "udm" && matches(rt.topic, objectType)
  }

  // ---------- The messages of a fill ----------

  predicate IsObject(dir: Directory, objectType: string, url: string, m: Message) {
    url in dir.objects && dir.objects[url].objectType == objectType && m == ObjectMessage(objectType, dir.objects[url])
  }

  lemma {:induction false} UrlsMembers(dir: Directory, objectType: string, urls: seq<string>, m: Message)
    requires forall url :: url in urls ==> url in dir.objects && dir.objects[url].objectType == objectType
    ensures m in UrlsMessages(dir, objectType, urls) <==> exists url :: url in urls && IsObject(dir, objectType, url, m)
  {
    if urls != [] {
      UrlsMembers(dir, objectType, urls[1..], m);
      assert forall url :: url in urls <==> url == urls[0] || url in urls[1..];
      assert m in UrlsMessages(dir, objectType, urls) <==>
             IsObject(dir, objectType, urls[0], m) || m in UrlsMessages(dir, objectType, urls[1..]);
    }
  }

  lemma {:induction false} TypesMembers(dir: Directory, types: seq<string>, m: Message)
    requires Consistent(dir)
    ensures m in TypesMessages(dir, types) <==>
            exists url :: url in dir.objects && dir.objects[url].objectType in types
                          && IsObject(dir, dir.objects[url].objectType, url, m)
  {
    if types != [] {
      var t := types[0];
      TypesMembers(dir, types[1..], m);
      assert types == [t] + types[1..];
      if t in dir.listing {
        UrlsMembers(dir, t, dir.listing[t], m);
      }
      hide TypesMessages, UrlsMessages;
      TypesUnfold(dir, types);
    }
  }

  lemma TypesUnfold(dir: Directory, types: seq<string>)
    requires types != []
    ensures TypesMessages(dir, types) ==
            (if types[0] in dir.listing then UrlsMessages(dir, types[0], dir.listing[types[0]]) else [])
            + TypesMessages(dir, types[1..])
  {
  }

  lemma {:induction false} ExpectedMembers(dir: Directory, matches: Matches, rts: seq<RealmTopic>, m: Message)
    requires Consistent(dir)
    ensures m in Expected(dir, matches, rts) <==>
            exists url :: url in dir.objects && Asked(matches, rts, dir.objects[url].objectType)
                          && IsObject(dir, dir.objects[url].objectType, url, m)
  {
    if rts != [] {
      ExpectedMembers(dir, matches, rts[1..], m);
      var types := MatchingTypes(dir, matches, rts[0].topic);
      TypesMembers(dir, types, m);
      FilterMembers((name: string) => matches(rts[0].topic, name), dir.objectTypes);
      forall t
        ensures Asked(matches, rts, t) <==>
                (rts[0].realm == "udm" && matches(rts[0].topic, t)) || Asked(matches, rts[1..], t)
      {
        assert rts == [rts[0]] + rts[1..];
      }
    }
  }

  // ---------- Replaying a fill ----------

  /** Messages that bring new objects, one object to a uuid. */
  ghost predicate Creates(ms: seq<Message>) {
    && (forall m :: m in ms ==> m.body.before.None? && m.body.after.Some?)
    && (forall m, m' :: m in ms && m' in ms && EventUuid(m) == EventUuid(m') ==> m.body.after == m'.body.after)
  }

  lemma {:induction false} CreatesReplay(ms: seq<Message>, u: string)
    requires Creates(ms)
    ensures u in ReplicaOf(ms) <==> exists m :: m in ms && EventUuid(m) == u
    ensures forall m :: m in ms && EventUuid(m) == u ==> Lookup(ReplicaOf(ms), u) == m.body.after
  {
    if ms != [] {
      var init, last := DropLast(ms), Last(ms);
      assert ms == init + [last];
      assert forall m :: m in init ==> m in ms;
      assert last in ms;
      CreatesReplay(init, u);
      ReplaySnoc(map[], init, last);
    }
  }

  /**
    A completed prefill holds exactly the directory's objects whose type some topic pattern
    matches.
   */
  lemma PrefillHoldsWhatMatches(dir: Directory, matches: Matches, rts: seq<RealmTopic>, u: string)
    requires Consistent(dir)
    ensures Lookup(ReplicaOf(Expected(dir, matches, rts)), u) ==
            if u in All(dir) && Asked(matches, rts, All(dir)[u].objectType) then Some(All(dir)[u]) else None
  {
    hide Expected, Asked;
    var ms := Expected(dir, matches, rts);
    forall m | m in ms
      ensures exists url :: url in dir.objects && Asked(matches, rts, dir.objects[url].objectType)
                            && IsObject(dir, dir.objects[url].objectType, url, m)
    {
      ExpectedMembers(dir, matches, rts, m);
    }
    CreatesReplay(ms, u);
    if u in All(dir) && Asked(matches, rts, All(dir)[u].objectType) {
      var url :| url in dir.objects && dir.objects[url].uuid == u;
      var m := ObjectMessage(dir.objects[url].objectType, dir.objects[url]);
      ExpectedMembers(dir, matches, rts, m);
      assert m in ms && EventUuid(m) == u;
    }
  }

  /** The patterns match the type of the object exactly if it is one of the literal topics. */
  ghost predicate SameType(dir: Directory, matches: Matches, sub: Subscription, url: string)
    requires url in dir.objects
  {
    Asked(matches, sub.realmsTopics, dir.objects[url].objectType) <==> Wants(sub, "udm", dir.objects[url].objectType)
  }

  lemma AllHas(dir: Directory, url: string)
    requires Consistent(dir) && url in dir.objects
    ensures dir.objects[url].uuid in All(dir) && All(dir)[dir.objects[url].uuid] == dir.objects[url]
  {
  }

  lemma AllFrom(dir: Directory, u: string) returns (url: string)
    requires Consistent(dir) && u in All(dir)
    ensures url in dir.objects && All(dir)[u] == dir.objects[url]
  {
    url :| url in dir.objects && dir.objects[url].uuid == u;
  }

  /**
    The prefill and the dispatcher agree on the subscriber's part of the directory exactly if, for
    the types of the objects there are, the patterns match the literal topics and nothing else.
   */
  lemma {:induction false} PrefillIsThePartExactlyWhen(dir: Directory, matches: Matches, sub: Subscription)
    requires Consistent(dir)
    ensures ReplicaOf(Expected(dir, matches, sub.realmsTopics)) == Part(All(dir), sub) <==>
            forall url :: url in dir.objects ==> SameType(dir, matches, sub, url)
  {
    hide Expected, Asked, ReplicaOf, Consistent, All;
    var held, part := ReplicaOf(Expected(dir, matches, sub.realmsTopics)), Part(All(dir), sub);
    if held == part {
      forall url | url in dir.objects
        ensures SameType(dir, matches, sub, url)
      {
        AllHas(dir, url);
        PrefillHoldsWhatMatches(dir, matches, sub.realmsTopics, dir.objects[url].uuid);
      }
    }
    if forall url :: url in dir.objects ==> SameType(dir, matches, sub, url) {
      forall u
        ensures Lookup(held, u) == Lookup(part, u)
      {
        PrefillHoldsWhatMatches(dir, matches, sub.realmsTopics, u);
        if u in All(dir) {
          var url := AllFrom(dir, u);
          assert SameType(dir, matches, sub, url);
        }
      }
      SameLookups(held, part);
    }
  }

  /** A directory with one object. */
  function OnlyObject(obj: UdmObject, url: string): Directory {
    Directory([obj.objectType], map[obj.objectType := [url]], map[url := obj])
  }

  lemma OnlyObjectIsConsistent(obj: UdmObject, url: string)
    ensures Consistent(OnlyObject(obj, url))
  {
    assert forall x :: x in [url] <==> x == url;
  }

  lemma OnlyObjectIsAll(obj: UdmObject, url: string)
    requires Consistent(OnlyObject(obj, url))
    ensures All(OnlyObject(obj, url)) == map[obj.uuid := obj]
  {
    hide Consistent;
    var dir := OnlyObject(obj, url);
    AllHas(dir, url);
    forall u | u in All(dir)
      ensures u == obj.uuid
    {
      var x := AllFrom(dir, u);
    }
  }

  /**
    A topic pattern that matches a type it is not equal to: the prefill delivers an object of the
    type, which is not in the subscriber's part, and no event about it is ever routed.
   */
  lemma PatternTopicLeavesStaleObject(matches: Matches, pattern: string, sub: Subscription, obj: UdmObject, url: string)
    requires sub.realmsTopics == [RealmTopic("udm", pattern)]
    requires matches(pattern, obj.objectType) && obj.objectType != pattern
    ensures ReplicaOf(Expected(OnlyObject(obj, url), matches, sub.realmsTopics)) == map[obj.uuid := obj]
    ensures Part(map[obj.uuid := obj], sub) == map[]
    ensures forall e :: WellFormed(e) && e.topic == obj.objectType ==> !Routes(sub, e)
  {
    NotWanted(sub, pattern, obj.objectType);
    PatternFillsObject(matches, pattern, sub, obj, url);
    hide Expected, ReplicaOf, OnlyObject, Wants;
    assert Part(map[obj.uuid := obj], sub) == map[];
  }

  lemma NotWanted(sub: Subscription, pattern: string, objectType: string)
    requires sub.realmsTopics == [RealmTopic("udm", pattern)] && objectType != pattern
    ensures !Wants(sub, "udm", objectType)
  {
    assert RealmTopic("udm", objectType).topic == objectType;
  }

  lemma PatternFillsObject(matches: Matches, pattern: string, sub: Subscription, obj: UdmObject, url: string)
    requires sub.realmsTopics == [RealmTopic("udm", pattern)] && matches(pattern, obj.objectType)
    ensures ReplicaOf(Expected(OnlyObject(obj, url), matches, sub.realmsTopics)) == map[obj.uuid := obj]
  {
    var dir := OnlyObject(obj, url);
    assert sub.realmsTopics[0] in sub.realmsTopics && Asked(matches, sub.realmsTopics, obj.objectType);
    hide Expected, ReplicaOf, Asked, All, Consistent, OnlyObject;
    OnlyObjectIsConsistent(obj, url);
    OnlyObjectIsAll(obj, url);
    forall u
      ensures Lookup(ReplicaOf(Expected(dir, matches, sub.realmsTopics)), u) == Lookup(map[obj.uuid := obj], u)
    {
      PrefillHoldsWhatMatches(dir, matches, sub.realmsTopics, u);
    }
    SameLookups(ReplicaOf(Expected(dir, matches, sub.realmsTopics)), map[obj.uuid := obj]);
  }
}
