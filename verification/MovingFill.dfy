/**
  A prefill of a directory that changes while it is read: objects come and go between the listing
  and the fetch, and each call finds another state.
 */
module MovingFill {
  import opened Models
  import opened Sequences
  import opened Replica
  import opened Prefill
  import opened PrefillRetry
  import opened Subscriber
  import opened Snapshot

  // ---------- What the calls find ----------

  /** The URL of an object names its type, and its place in the directory. */
  ghost predicate UrlsNameTypes(urlOf: UdmObject -> string) {
    forall a, b :: urlOf(a) == urlOf(b) ==> a.objectType == b.objectType
  }

  ghost predicate Shows(dir: Directory, urlOf: UdmObject -> string, objects: Objects) {
    && Consistent(dir) && All(dir) == objects
    && forall url :: url in dir.objects ==> urlOf(dir.objects[url]) == url
  }

  ghost predicate ShowsAfter(dir: Directory, urlOf: UdmObject -> string, held: Objects, incoming: seq<Message>,
                             k: nat)
  {
    k <= |incoming| && Shows(dir, urlOf, Replay(held, incoming[..k]))
  }

  ghost predicate ShowsSometime(dir: Directory, urlOf: UdmObject -> string, held: Objects, incoming: seq<Message>) {
    exists k :: ShowsAfter(dir, urlOf, held, incoming, k)
  }

  /** Each call finds the directory as it is after some number of the events, none before the first of them. */
  ghost predicate Along(dirs: Directories, urlOf: UdmObject -> string, held: Objects, incoming: seq<Message>) {
    forall t :: CallShows(dirs, t, urlOf, held, incoming)
  }

  ghost predicate CallShows(dirs: Directories, t: nat, urlOf: UdmObject -> string, held: Objects,
                            incoming: seq<Message>)
  {
    ShowsSometime(dirs(t), urlOf, held, incoming)
  }

  /** Among the types of the objects that are found, the patterns match the literal topics and nothing else. */
  ghost predicate LiteralTopics(dirs: Directories, matches: Matches, sub: Subscription) {
    forall t :: CallFindsLiteralTopics(dirs, t, matches, sub)
  }

  ghost predicate CallFindsLiteralTopics(dirs: Directories, t: nat, matches: Matches, sub: Subscription) {
    var dir := dirs(t);
    forall url :: url in dir.objects ==> SameType(dir, matches, sub, url)
  }

  // ---------- Where the messages come from ----------

  ghost predicate FetchedAs(dirs: Directories, objectType: string, url: string, m: Message) {
    exists t: nat :: url in dirs(t).objects && m == ObjectMessage(objectType, dirs(t).objects[url])
  }

  ghost predicate ListedAs(dirs: Directories, objectType: string, url: string) {
    exists t: nat :: objectType in dirs(t).listing && url in dirs(t).listing[objectType]
  }

  ghost function TypeSet(types: seq<string>): iset<string> {
    iset t | t in types
  }

  ghost function AskedTypes(matches: Matches, rts: seq<RealmTopic>): iset<string> {
    iset t | Asked(matches, rts, t)
  }

  /** The message is a url listed under one of the types and fetched later, perhaps with another object behind it. */
  ghost predicate FromTypes(dirs: Directories, types: iset<string>, m: Message) {
    exists objectType, url ::
      objectType in types && ListedAs(dirs, objectType, url) && FetchedAs(dirs, objectType, url, m)
  }

  lemma {:induction false} UrlsFrom(dirs: Directories, t: nat, objectType: string, urls: seq<string>, m: Message)
    requires m in Published(UrlsCalls(dirs, t, objectType, urls))
    ensures exists url :: url in urls && FetchedAs(dirs, objectType, url, m)
    decreases |urls|
  {
    hide Published, ObjectCalls, FetchedAs;
    if urls == [] {
      PublishedOne(Purge);
    } else {
      UrlsSplit(dirs, t, objectType, urls);
      var first := ObjectCalls(dirs, t, objectType, urls[0]);
      if m in Published(UrlsCalls(dirs, t + |first|, objectType, urls[1..])) {
        UrlsFrom(dirs, t + |first|, objectType, urls[1..], m);
        var url :| url in urls[1..] && FetchedAs(dirs, objectType, url, m);
        assert url in urls;
      } else {
        FetchedNow(dirs, t, objectType, urls[0]);
        assert urls[0] in urls;
      }
    }
  }

  lemma FetchedNow(dirs: Directories, t: nat, objectType: string, url: string)
    ensures url in dirs(t).objects ==>
              FetchedAs(dirs, objectType, url, ObjectMessage(objectType, dirs(t).objects[url]))
  {
  }

  lemma {:induction false} TypesFrom(dirs: Directories, t: nat, types: seq<string>, m: Message)
    requires m in Published(TypesCalls(dirs, t, types))
    ensures FromTypes(dirs, TypeSet(types), m)
    decreases |types|
  {
    hide Published, TypeCalls, UrlsCalls, FetchedAs;
    if types == [] {
      PublishedOne(Purge);
    } else {
      TypesSplit(dirs, t, types);
      var first := TypeCalls(dirs, t, types[0]);
      if m in Published(TypesCalls(dirs, t + |first|, types[1..])) {
        TypesFrom(dirs, t + |first|, types[1..], m);
        MoreTypes(dirs, TypeSet(types[1..]), TypeSet(types), m);
      } else {
        var urls := dirs(t).listing[types[0]];
        UrlsFrom(dirs, t + 1, types[0], urls, m);
        var url :| url in urls && FetchedAs(dirs, types[0], url, m);
        assert ListedAs(dirs, types[0], url) && types[0] in types;
      }
    }
  }

  lemma MoreTypes(dirs: Directories, types: iset<string>, more: iset<string>, m: Message)
    requires FromTypes(dirs, types, m) && types <= more
    ensures FromTypes(dirs, more, m)
  {
  }

  lemma {:induction false} TopicsFrom(dirs: Directories, t: nat, matches: Matches, rts: seq<RealmTopic>, m: Message)
    requires m in Published(TopicsCalls(dirs, t, matches, rts))
    ensures FromTypes(dirs, AskedTypes(matches, rts), m)
    decreases |rts|
  {
    hide Published, TopicCalls, TypesCalls, FromTypes;
    if rts == [] {
      PublishedOne(Purge);
    } else {
      TopicsSplit(dirs, t, matches, rts);
      var first := TopicCalls(dirs, t, matches, rts[0]);
      var all := AskedTypes(matches, rts);
      if m in Published(TopicsCalls(dirs, t + |first|, matches, rts[1..])) {
        TopicsFrom(dirs, t + |first|, matches, rts[1..], m);
        assert forall rt :: rt in rts[1..] ==> rt in rts;
        MoreTypes(dirs, AskedTypes(matches, rts[1..]), all, m);
      } else {
        var types := MatchingTypes(dirs(t + 1), matches, rts[0].topic);
        TypesFrom(dirs, t + 2, types, m);
        FilterMembers((name: string) => matches(rts[0].topic, name), dirs(t + 1).objectTypes);
        assert rts[0] in rts;
        MoreTypes(dirs, TypeSet(types), all, m);
      }
    }
  }

  // ---------- What is there all the time is not missed ----------

  /** The object is found under the same url by every call. */
  ghost predicate Stays(dirs: Directories, url: string, obj: UdmObject) {
    forall t: nat :: StaysAt(dirs(t), url, obj)
  }

  predicate StaysAt(dir: Directory, url: string, obj: UdmObject) {
    && url in dir.objects && dir.objects[url] == obj
    && obj.objectType in dir.objectTypes
    && obj.objectType in dir.listing && url in dir.listing[obj.objectType]
  }

  lemma {:induction false} UrlsCover(dirs: Directories, t: nat, urls: seq<string>, url: string, obj: UdmObject)
    requires Stays(dirs, url, obj) && url in urls
    ensures ObjectMessage(obj.objectType, obj) in Published(UrlsCalls(dirs, t, obj.objectType, urls))
    decreases |urls|
  {
    hide Published, ObjectCalls, UrlsCalls;
    UrlsSplit(dirs, t, obj.objectType, urls);
    if urls[0] == url {
      assert StaysAt(dirs(t), url, obj);
    } else {
      UrlsCover(dirs, t + |ObjectCalls(dirs, t, obj.objectType, urls[0])|, urls[1..], url, obj);
    }
  }

  lemma {:induction false} TypesCover(dirs: Directories, t: nat, types: seq<string>, url: string, obj: UdmObject)
    requires Stays(dirs, url, obj) && obj.objectType in types
    ensures ObjectMessage(obj.objectType, obj) in Published(TypesCalls(dirs, t, types))
    decreases |types|
  {
    hide Published, TypeCalls, TypesCalls, UrlsCalls;
    TypesSplit(dirs, t, types);
    if types[0] == obj.objectType {
      assert StaysAt(dirs(t), url, obj);
      UrlsCover(dirs, t + 1, dirs(t).listing[obj.objectType], url, obj);
    } else {
      TypesCover(dirs, t + |TypeCalls(dirs, t, types[0])|, types[1..], url, obj);
    }
  }

  lemma {:induction false} TopicsCover(dirs: Directories, t: nat, matches: Matches, rts: seq<RealmTopic>,
                                       url: string, obj: UdmObject)
    requires Stays(dirs, url, obj) && Asked(matches, rts, obj.objectType)
    ensures ObjectMessage(obj.objectType, obj) in Published(TopicsCalls(dirs, t, matches, rts))
    decreases |rts|
  {
    hide Published, TopicCalls, TopicsCalls, TypesCalls;
    var rt :| rt in rts && rt.realm == "udm" && matches(rt.topic, obj.objectType);
    TopicsSplit(dirs, t, matches, rts);
    if rts[0] == rt {
      assert StaysAt(dirs(t + 1), url, obj);
      FilterMembers((name: string) => matches(rt.topic, name), dirs(t + 1).objectTypes);
      TypesCover(dirs, t + 2, MatchingTypes(dirs(t + 1), matches, rt.topic), url, obj);
    } else {
      TopicsCover(dirs, t + |TopicCalls(dirs, t, matches, rts[0])|, matches, rts[1..], url, obj);
    }
  }

  // ---------- Replaying the messages ----------

  /** Of several versions of an object the last one is held. */
  lemma {:induction false} SomeVersionHeld(ms: seq<Message>, u: string)
    requires forall m :: m in ms ==> m.body.before.None? && m.body.after.Some?
    ensures u !in ReplicaOf(ms) ==> forall m :: m in ms ==> EventUuid(m) != u
    ensures u in ReplicaOf(ms) ==> exists m :: m in ms && EventUuid(m) == u && m.body.after == Some(ReplicaOf(ms)[u])
  {
    if ms != [] {
      var init, last := DropLast(ms), Last(ms);
      assert ms == init + [last] && last in ms && forall m :: m in init ==> m in ms;
      SomeVersionHeld(init, u);
      ReplaySnoc(map[], init, last);
    }
  }

  // ---------- The snapshot ----------

  /** An object that is fetched is one the directory has at that time, and of a type that was asked for. */
  lemma FetchedObject(dirs: Directories, urlOf: UdmObject -> string, matches: Matches, sub: Subscription,
                      held: Objects, incoming: seq<Message>, m: Message)
    returns (k: nat)
    requires UrlsNameTypes(urlOf) && Along(dirs, urlOf, held, incoming) && LiteralTopics(dirs, matches, sub)
    requires FromTypes(dirs, AskedTypes(matches, sub.realmsTopics), m)
    ensures k <= |incoming| && m.body.before.None?
    ensures Lookup(Part(Replay(held, incoming[..k]), sub), EventUuid(m)) == m.body.after
    ensures m.body.after.Some?
  {
    hide Asked, Replay, All, Consistent;
    var objectType, url :| Asked(matches, sub.realmsTopics, objectType)
                           && ListedAs(dirs, objectType, url) && FetchedAs(dirs, objectType, url, m);
    var listed: nat :| objectType in dirs(listed).listing && url in dirs(listed).listing[objectType];
    var t: nat :| url in dirs(t).objects && m == ObjectMessage(objectType, dirs(t).objects[url]);
    assert CallShows(dirs, listed, urlOf, held, incoming) && CallShows(dirs, t, urlOf, held, incoming);
    ListedObject(dirs(listed), objectType, url);
    k :| ShowsAfter(dirs(t), urlOf, held, incoming, k);
    AllHas(dirs(t), url);
    assert CallFindsLiteralTopics(dirs, t, matches, sub);
  }

  lemma ListedObject(dir: Directory, objectType: string, url: string)
    requires Consistent(dir) && objectType in dir.listing && url in dir.listing[objectType]
    ensures url in dir.objects && dir.objects[url].objectType == objectType
  {
  }

  // ---------- Prefill messages are events ----------

  ghost predicate Found(dirs: Directories, url: string, obj: UdmObject) {
    exists t: nat :: url in dirs(t).objects && dirs(t).objects[url] == obj
  }

  /**
    Whatever a fill finds: a message it publishes is a creation of the udm realm. Its topic is a
    type that was asked for and under which a url was listed, and its object was found behind it.
   */
  lemma {:induction false} FillPublishesCreations(dirs: Directories, t: nat, matches: Matches, rts: seq<RealmTopic>,
                                                  m: Message)
    requires m in Published(TopicsCalls(dirs, t, matches, rts))
    ensures m.realm == "udm" && m.body.before == None && m.body.after.Some? && Asked(matches, rts, m.topic)
    ensures exists url :: ListedAs(dirs, m.topic, url) && Found(dirs, url, m.body.after.value)
    ensures WellFormed(m) <==> m.body.after.value.objectType == m.topic
  {
    TopicsFrom(dirs, t, matches, rts, m);
    hide Published, TopicsCalls, Asked, ListedAs;
    var objectType, url :| Asked(matches, rts, objectType) && ListedAs(dirs, objectType, url)
                           && FetchedAs(dirs, objectType, url, m);
  }

  /** As long as the URL of an object names its type, a prefill message looks like the live event of a creation. */
  lemma {:induction false} FillPublishesEvents(dirs: Directories, t: nat, urlOf: UdmObject -> string,
                                               matches: Matches, rts: seq<RealmTopic>, held: Objects,
                                               incoming: seq<Message>, m: Message)
    requires UrlsNameTypes(urlOf) && Along(dirs, urlOf, held, incoming)
    requires m in Published(TopicsCalls(dirs, t, matches, rts))
    ensures WellFormed(m)
  {
    FillPublishesCreations(dirs, t, matches, rts, m);
    hide Published, TopicsCalls, Asked, Replay, All, Consistent;
    var url :| ListedAs(dirs, m.topic, url) && Found(dirs, url, m.body.after.value);
    var listed: nat :| m.topic in dirs(listed).listing && url in dirs(listed).listing[m.topic];
    var found: nat :| url in dirs(found).objects && dirs(found).objects[url] == m.body.after.value;
    assert CallShows(dirs, listed, urlOf, held, incoming) && CallShows(dirs, found, urlOf, held, incoming);
    ListedObject(dirs(listed), m.topic, url);
  }

  /** An object that stays in the subscriber's part is found by every call. */
  lemma StayingIsFound(dirs: Directories, urlOf: UdmObject -> string, sub: Subscription, held: Objects,
                       incoming: seq<Message>, u: string)
    requires Along(dirs, urlOf, held, incoming) && PartStays(held, incoming, sub, u) && u in Part(held, sub)
    ensures Stays(dirs, urlOf(held[u]), held[u])
  {
    hide Replay, All;
    forall t: nat
      ensures StaysAt(dirs(t), urlOf(held[u]), held[u])
    {
      assert CallShows(dirs, t, urlOf, held, incoming);
      var k: nat :| ShowsAfter(dirs(t), urlOf, held, incoming, k);
      assert PartStaysAt(held, incoming, k, sub, u);
      assert Lookup(Part(Replay(held, incoming[..k]), sub), u) == Some(held[u]);
      var url := AllFrom(dirs(t), u);
    }
  }

  /** An object the fill does not publish and that stays as it is is not in the subscriber's part. */
  lemma NotMissed(dirs: Directories, t: nat, urlOf: UdmObject -> string, matches: Matches, sub: Subscription,
                  held: Objects, incoming: seq<Message>, u: string)
    requires Along(dirs, urlOf, held, incoming) && LiteralTopics(dirs, matches, sub)
    requires PartStays(held, incoming, sub, u)
    requires HeldByUuid(held)
    requires forall m :: m in Published(TopicsCalls(dirs, t, matches, sub.realmsTopics)) ==> EventUuid(m) != u
    ensures u !in Part(held, sub)
  {
    hide Published, TopicsCalls, PartStays, Along, Replay, Asked;
    if u in Part(held, sub) {
      var obj := held[u];
      var url := urlOf(obj);
      StayingIsFound(dirs, urlOf, sub, held, incoming, u);
      assert StaysAt(dirs(0), url, obj);
      assert CallFindsLiteralTopics(dirs, 0, matches, sub);
      assert EventUuid(ObjectMessage(obj.objectType, obj)) == u;
      TopicsCover(dirs, t, matches, sub.realmsTopics, url, obj);
    }
  }

  predicate HeldByUuid(held: Objects) {
    forall u :: u in held ==> held[u].uuid == u
  }

  /**
    A fill reads types, listings and objects one after the other, each as the directory is after
    some number of the events that the subscriber receives. What it publishes is right about every
    object that stays in the subscriber's part, or out of it, all the while.
   */
  lemma {:induction false} FillShowsWhatStays(dirs: Directories, t: nat, urlOf: UdmObject -> string,
                                              matches: Matches, sub: Subscription, held: Objects,
                                              incoming: seq<Message>, u: string)
    requires UrlsNameTypes(urlOf) && Along(dirs, urlOf, held, incoming) && LiteralTopics(dirs, matches, sub)
    requires HeldByUuid(held) && PartStays(held, incoming, sub, u)
    ensures Lookup(ReplicaOf(Published(TopicsCalls(dirs, t, matches, sub.realmsTopics))), u) ==
            Lookup(Part(held, sub), u)
  {
    hide Published, TopicsCalls, Part, Replay, FromTypes, UrlsNameTypes, Along, LiteralTopics, ReplicaOf;
    var ms := Published(TopicsCalls(dirs, t, matches, sub.realmsTopics));
    var snapshot := ReplicaOf(ms);
    forall m | m in ms
      ensures m.body.before.None? && m.body.after.Some?
    {
      TopicsFrom(dirs, t, matches, sub.realmsTopics, m);
      var k := FetchedObject(dirs, urlOf, matches, sub, held, incoming, m);
    }
    SomeVersionHeld(ms, u);
    if u in snapshot {
      var m :| m in ms && EventUuid(m) == u && m.body.after == Some(snapshot[u]);
      TopicsFrom(dirs, t, matches, sub.realmsTopics, m);
      var k := FetchedObject(dirs, urlOf, matches, sub, held, incoming, m);
      assert PartStaysAt(held, incoming, k, sub, u);
    } else {
      NotMissed(dirs, t, urlOf, matches, sub, held, incoming, u);
    }
  }

  /** If objects keep their types, the fill shows every object as it was at some point, or an event is about it. */
  lemma {:induction false} FillReadsAlong(dirs: Directories, t: nat, urlOf: UdmObject -> string, matches: Matches,
                                          sub: Subscription, held: Objects, incoming: seq<Message>,
                                          typeOf: string -> string)
    requires UrlsNameTypes(urlOf) && Along(dirs, urlOf, held, incoming) && LiteralTopics(dirs, matches, sub)
    requires (forall e :: e in incoming ==> FollowsTypes(e, typeOf)) && HeldByType(held, typeOf)
    ensures ReadAlong(ReplicaOf(Published(TopicsCalls(dirs, t, matches, sub.realmsTopics))), held, incoming, sub)
  {
    hide Published, TopicsCalls, Part, Replay, Touched, UrlsNameTypes, Along, LiteralTopics, ReplicaOf, PartStays;
    var snapshot := ReplicaOf(Published(TopicsCalls(dirs, t, matches, sub.realmsTopics)));
    forall u | !Touched(incoming, |incoming|, sub, u)
      ensures ReadSometime(snapshot, held, incoming, sub, u)
    {
      Untouched(held, incoming, sub, u, typeOf);
      FillShowsWhatStays(dirs, t, urlOf, matches, sub, held, incoming, u);
      StaysAtFirst(held, incoming, sub, u);
      assert ReadAt(snapshot, held, incoming, sub, u, 0);
    }
  }
}
