/** Prefilling restarts safely: what any number of cut-off attempts leaves behind, and how the effort ends. */
module PrefillRetry {
  import opened Models
  import opened Sequences
  import opened JetStream
  import opened Prefill

  // ---------- What one clean run delivers ----------

  function UrlsMessages(dir: Directory, objectType: string, urls: seq<string>): seq<Message> {
    if urls == [] then []
    else (if urls[0] in dir.objects then [ObjectMessage(objectType, dir.objects[urls[0]])] else [])
         + UrlsMessages(dir, objectType, urls[1..])
  }

  function TypesMessages(dir: Directory, objectTypes: seq<string>): seq<Message> {
    if objectTypes == [] then []
    else (if objectTypes[0] in dir.listing then UrlsMessages(dir, objectTypes[0], dir.listing[objectTypes[0]]) else [])
         + TypesMessages(dir, objectTypes[1..])
  }

  /** Topics in request order, matching types in listing order, objects in listing order. */
  function Expected(dir: Directory, matches: Matches, rts: seq<RealmTopic>): seq<Message> {
    if rts == [] then []
    else (if rts[0].realm == "udm" then TypesMessages(dir, MatchingTypes(dir, matches, rts[0].topic)) else [])
         + Expected(dir, matches, rts[1..])
  }

  function Published(calls: seq<Call>): seq<Message> {
    if calls == [] then []
    else if calls[0].Publish? then [calls[0].message] + Published(calls[1..]) else Published(calls[1..])
  }

  lemma {:induction false} PublishedConcat(a: seq<Call>, b: seq<Call>)
    ensures Published(a + b) == Published(a) + Published(b)
  {
    if a == [] {
      assert a + b == b;
    } else {
      assert (a + b)[1..] == a[1..] + b;
      PublishedConcat(a[1..], b);
    }
  }

  lemma PublishedOne(c: Call)
    ensures Published([c]) == if c.Publish? then [c.message] else []
    ensures Published([]) == []
  {
    assert [c][1..] == [];
  }

  /** Nothing changes in the directory while the attempt lasts. */
  ghost predicate Constant(dirs: Directories, dir: Directory) {
    forall t :: dirs(t) == dir
  }

  lemma ObjectPublishes(dirs: Directories, t: nat, objectType: string, url: string)
    ensures Published(ObjectCalls(dirs, t, objectType, url)) ==
            if url in dirs(t).objects then [ObjectMessage(objectType, dirs(t).objects[url])] else []
  {
    hide Published;
    PublishedOne(GetObject(url));
    if url in dirs(t).objects {
      var publish := Publish(ObjectMessage(objectType, dirs(t).objects[url]));
      PublishedConcat([GetObject(url)], [publish]);
      PublishedOne(publish);
    } else {
      assert [GetObject(url)] + [] == [GetObject(url)];
    }
  }

  /** The publishes of one type's fill are those of its objects. */
  lemma TypePublishes(dirs: Directories, t: nat, objectType: string)
    ensures Published(TypeCalls(dirs, t, objectType)) ==
            if objectType in dirs(t).listing
            then Published(UrlsCalls(dirs, t + 1, objectType, dirs(t).listing[objectType])) else []
  {
    hide Published, UrlsCalls;
    PublishedOne(ListObjects(objectType));
    if objectType in dirs(t).listing {
      PublishedConcat([ListObjects(objectType)], UrlsCalls(dirs, t + 1, objectType, dirs(t).listing[objectType]));
    } else {
      assert [ListObjects(objectType)] + [] == [ListObjects(objectType)];
    }
  }

  /** The publishes of one topic's fill are those of its matching types. */
  lemma TopicPublishes(dirs: Directories, t: nat, matches: Matches, rt: RealmTopic)
    ensures Published(TopicCalls(dirs, t, matches, rt)) ==
            if rt.realm == "udm"
            then Published(TypesCalls(dirs, t + 2, MatchingTypes(dirs(t + 1), matches, rt.topic))) else []
  {
    hide Published, TypesCalls, MatchingTypes;
    PublishedOne(GetObjectTypes);
    PublishedOne(SetStatus(Running));
    var types := TypesCalls(dirs, t + 2, MatchingTypes(dirs(t + 1), matches, rt.topic));
    PublishedConcat([GetObjectTypes], types);
    PublishedConcat([SetStatus(Running)], [GetObjectTypes] + types);
  }

  /** A fill's publishes are those of its first part and of the rest. */
  lemma UrlsSplit(dirs: Directories, t: nat, objectType: string, urls: seq<string>)
    requires urls != []
    ensures var first := ObjectCalls(dirs, t, objectType, urls[0]);
            Published(UrlsCalls(dirs, t, objectType, urls)) ==
            (if urls[0] in dirs(t).objects then [ObjectMessage(objectType, dirs(t).objects[urls[0]])] else [])
            + Published(UrlsCalls(dirs, t + |first|, objectType, urls[1..]))
  {
    hide Published, ObjectCalls;
    var first := ObjectCalls(dirs, t, objectType, urls[0]);
    PublishedConcat(first, UrlsCalls(dirs, t + |first|, objectType, urls[1..]));
    ObjectPublishes(dirs, t, objectType, urls[0]);
  }

  lemma TypesSplit(dirs: Directories, t: nat, types: seq<string>)
    requires types != []
    ensures var first := TypeCalls(dirs, t, types[0]);
            Published(TypesCalls(dirs, t, types)) ==
            (if types[0] in dirs(t).listing
             then Published(UrlsCalls(dirs, t + 1, types[0], dirs(t).listing[types[0]])) else [])
            + Published(TypesCalls(dirs, t + |first|, types[1..]))
  {
    hide Published, TypeCalls;
    var first := TypeCalls(dirs, t, types[0]);
    PublishedConcat(first, TypesCalls(dirs, t + |first|, types[1..]));
    TypePublishes(dirs, t, types[0]);
  }

  lemma TopicsSplit(dirs: Directories, t: nat, matches: Matches, rts: seq<RealmTopic>)
    requires rts != []
    ensures var first := TopicCalls(dirs, t, matches, rts[0]);
            Published(TopicsCalls(dirs, t, matches, rts)) ==
            (if rts[0].realm == "udm"
             then Published(TypesCalls(dirs, t + 2, MatchingTypes(dirs(t + 1), matches, rts[0].topic))) else [])
            + Published(TopicsCalls(dirs, t + |first|, matches, rts[1..]))
  {
    hide Published, TopicCalls;
    var first := TopicCalls(dirs, t, matches, rts[0]);
    PublishedConcat(first, TopicsCalls(dirs, t + |first|, matches, rts[1..]));
    TopicPublishes(dirs, t, matches, rts[0]);
  }

  lemma {:induction false} UrlsPublish(dirs: Directories, t: nat, objectType: string, urls: seq<string>, dir: Directory)
    requires Constant(dirs, dir)
    ensures Published(UrlsCalls(dirs, t, objectType, urls)) == UrlsMessages(dir, objectType, urls)
    decreases |urls|
  {
    if urls != [] {
      UrlsPublish(dirs, t + |ObjectCalls(dirs, t, objectType, urls[0])|, objectType, urls[1..], dir);
      hide Published, ObjectCalls, UrlsCalls;
      UrlsSplit(dirs, t, objectType, urls);
    }
  }

  lemma {:induction false} TypesPublish(dirs: Directories, t: nat, types: seq<string>, dir: Directory)
    requires Constant(dirs, dir)
    ensures Published(TypesCalls(dirs, t, types)) == TypesMessages(dir, types)
    decreases |types|
  {
    if types != [] {
      hide Published, TypesCalls, TypeCalls, UrlsCalls, UrlsMessages;
      TypesPublish(dirs, t + |TypeCalls(dirs, t, types[0])|, types[1..], dir);
      TypesSplit(dirs, t, types);
      if types[0] in dir.listing {
        UrlsPublish(dirs, t + 1, types[0], dir.listing[types[0]], dir);
      }
    }
  }

  /** A fill of an unchanging directory publishes what a clean run delivers. */
  lemma {:induction false} TopicsPublish(dirs: Directories, t: nat, matches: Matches, rts: seq<RealmTopic>,
                                         dir: Directory)
    requires Constant(dirs, dir)
    ensures Published(TopicsCalls(dirs, t, matches, rts)) == Expected(dir, matches, rts)
    decreases |rts|
  {
    if rts != [] {
      hide Published, TopicsCalls, TopicCalls, TypesCalls, TypesMessages, MatchingTypes;
      TopicsPublish(dirs, t + |TopicCalls(dirs, t, matches, rts[0])|, matches, rts[1..], dir);
      TopicsSplit(dirs, t, matches, rts);
      TypesPublish(dirs, t + 2, MatchingTypes(dir, matches, rts[0].topic), dir);
    }
  }

  // ---------- A fill program ----------

  /** Calls of a fill after its purge: reads, publishes, and status reports other than done and failed. */
  ghost predicate IsFilling(calls: seq<Call>) {
    forall c :: c in calls ==> !c.Purge? && !c.AddToFailures? && (c.SetStatus? ==> c.status == Running)
  }

  lemma {:induction false} UrlsFill(dirs: Directories, t: nat, objectType: string, urls: seq<string>)
    ensures IsFilling(UrlsCalls(dirs, t, objectType, urls))
    decreases |urls|
  {
    if urls != [] {
      UrlsFill(dirs, t + |ObjectCalls(dirs, t, objectType, urls[0])|, objectType, urls[1..]);
    }
  }

  lemma FillingConcat(a: seq<Call>, b: seq<Call>)
    requires IsFilling(a) && IsFilling(b)
    ensures IsFilling(a + b)
  {
  }

  lemma {:induction false} TypesFill(dirs: Directories, t: nat, types: seq<string>)
    ensures IsFilling(TypesCalls(dirs, t, types))
    decreases |types|
  {
    hide IsFilling, TypeCalls, TypesCalls;
    TypesUnfold(dirs, t, types);
    if types != [] {
      var first := TypeCalls(dirs, t, types[0]);
      TypesFill(dirs, t + |first|, types[1..]);
      TypeFills(dirs, t, types[0]);
      FillingConcat(first, TypesCalls(dirs, t + |first|, types[1..]));
    }
  }

  lemma TypesUnfold(dirs: Directories, t: nat, types: seq<string>)
    ensures types == [] ==> IsFilling(TypesCalls(dirs, t, types))
    ensures types != [] ==>
              TypesCalls(dirs, t, types) ==
              TypeCalls(dirs, t, types[0]) + TypesCalls(dirs, t + |TypeCalls(dirs, t, types[0])|, types[1..])
  {
  }

  lemma TypeFills(dirs: Directories, t: nat, objectType: string)
    ensures IsFilling(TypeCalls(dirs, t, objectType))
  {
    if objectType in dirs(t).listing {
      UrlsFill(dirs, t + 1, objectType, dirs(t).listing[objectType]);
    }
  }

  lemma TopicFills(dirs: Directories, t: nat, matches: Matches, rt: RealmTopic)
    ensures IsFilling(TopicCalls(dirs, t, matches, rt))
  {
    hide TypesCalls, MatchingTypes;
    TypesFill(dirs, t + 2, MatchingTypes(dirs(t + 1), matches, rt.topic));
  }

  lemma {:induction false} TopicsFill(dirs: Directories, t: nat, matches: Matches, rts: seq<RealmTopic>)
    ensures IsFilling(TopicsCalls(dirs, t, matches, rts))
    decreases |rts|
  {
    if rts != [] {
      hide IsFilling, TopicCalls;
      var first := TopicCalls(dirs, t, matches, rts[0]);
      TopicsFill(dirs, t + |first|, matches, rts[1..]);
      TopicFills(dirs, t, matches, rts[0]);
      FillingConcat(first, TopicsCalls(dirs, t + |first|, matches, rts[1..]));
    }
  }

  function Prefilled(w: World): seq<Message>
    requires w.sub.Some?
  {
    Messages(OnSubject(w.sub.value.stream, PrefillSubject))
  }

  function Live(w: World): seq<Stored>
    requires w.sub.Some?
  {
    OnSubject(w.sub.value.stream, MainSubject)
  }

  /** One call of a fill leaves the main subject alone and publishes at most its own message. */
  lemma PerformFills(w: World, c: Call)
    requires w.sub.Some? && IsFilling([c])
    ensures var w' := Perform(w, c);
            && w'.sub.Some? && Live(w') == Live(w) && w'.failures == w.failures
            && Prefilled(w') == Prefilled(w) + Published([c])
  {
    assert c in [c];
    PublishedOne(c);
    if c.Publish? {
      var s := w.sub.value.stream;
      AppendOnSubject(s, PrefillSubject, c.message, PrefillSubject);
      AppendOnSubject(s, PrefillSubject, c.message, MainSubject);
      MessagesSnoc(OnSubject(s, PrefillSubject), Stored(s.lastSeq + 1, PrefillSubject, c.message));
    }
  }

  lemma FillingParts(calls: seq<Call>)
    requires IsFilling(calls) && calls != []
    ensures IsFilling([calls[0]]) && IsFilling(calls[1..]) && !calls[0].Purge?
  {
    assert calls[0] in calls;
  }

  lemma {:induction false} RunFills(w: World, calls: seq<Call>, a: Attempt, tick: nat)
    requires w.sub.Some? && IsFilling(calls)
    ensures var o := Run(w, calls, a, tick);
            && o.world.sub.Some? && Live(o.world) == Live(w) && o.world.failures == w.failures
            && Prefilled(o.world) <= Prefilled(w) + Published(calls)
            && (o.ok ==> Prefilled(o.world) == Prefilled(w) + Published(calls))
            && Purges(o.world.made) == Purges(w.made)
    decreases |calls|
  {
    hide Live, Prefilled, Perform, Published, Purges, Succeeds, IsFilling, Run;
    RunStep(w, calls, a, tick);
    if calls != [] && tick < a.budget && Succeeds(calls[0], w, a.dirs(tick)) {
      FillingParts(calls);
      PerformFills(w, calls[0]);
      OneMoreCall(w, calls[0]);
      var w' := Perform(w, calls[0]);
      RunFills(w', calls[1..], a, tick + 1);
      PublishedConcat([calls[0]], calls[1..]);
      assert calls == [calls[0]] + calls[1..];
      assert Prefilled(w') + Published(calls[1..]) == Prefilled(w) + Published(calls);
    } else if calls == [] {
      PublishedOne(Purge);
      assert Prefilled(w) + [] == Prefilled(w);
    }
  }

  lemma RunStep(w: World, calls: seq<Call>, a: Attempt, tick: nat)
    ensures Run(w, calls, a, tick) ==
            if calls == [] then Outcome(w, tick, true)
            else if tick >= a.budget || !Succeeds(calls[0], w, a.dirs(tick)) then Outcome(w, tick, false)
            else Run(Perform(w, calls[0]), calls[1..], a, tick + 1)
  {
  }

  /** How many fills were begun. */
  function Purges(made: seq<Call>): nat {
    if made == [] then 0 else Purges(DropLast(made)) + if Last(made).Purge? then 1 else 0
  }

  lemma OneMoreCall(w: World, c: Call)
    ensures Purges(Perform(w, c).made) == Purges(w.made) + if c.Purge? then 1 else 0
  {
    assert DropLast(w.made + [c]) == w.made;
  }

  /**
    One attempt, started on whatever an earlier one left: it does nothing at all, or leaves a
    prefix of what its own reads lead to; if it succeeds, exactly that. Live messages stay.
   */
  lemma FillAttempt(w: World, request: PrefillRequest, matches: Matches, a: Attempt)
    requires w.sub.Some?
    ensures var o := Run(w, FillCalls(a.dirs, matches, request), a, 0);
            var published := Published(TopicsCalls(a.dirs, 1, matches, request.realmsTopics));
            && o.world.sub.Some? && Live(o.world) == Live(w) && o.world.failures == w.failures
            && (o.world == w || Prefilled(o.world) <= published)
            && (o.ok ==> Prefilled(o.world) == published && o.world.sub.value.status == Done)
            && Purges(o.world.made) == Purges(w.made) + if a.budget > 0 then 1 else 0
  {
    hide Run, Live, Prefilled, Published, TopicsCalls, IsFilling, Purges;
    var topics := TopicsCalls(a.dirs, 1, matches, request.realmsTopics);
    assert FillCalls(a.dirs, matches, request) == [Purge] + (topics + [SetStatus(Done)]);
    TopicsFill(a.dirs, 1, matches, request.realmsTopics);
    RunConcat(w, [Purge], topics + [SetStatus(Done)], a, 0);
    LastCall(w, Purge, a, 0);
    if a.budget > 0 {
      var purged := Perform(w, Purge);
      PurgeEmpties(w);
      OneMoreCall(w, Purge);
      RunConcat(purged, topics, [SetStatus(Done)], a, 1);
      RunFills(purged, topics, a, 1);
      var filled := Run(purged, topics, a, 1);
      LastCall(filled.world, SetStatus(Done), a, filled.tick);
      StatusOnly(filled.world, Done);
      OneMoreCall(filled.world, SetStatus(Done));
    }
  }

  lemma PurgeEmpties(w: World)
    requires w.sub.Some?
    ensures var w' := Perform(w, Purge);
            w'.sub.Some? && Prefilled(w') == [] && Live(w') == Live(w) && w'.failures == w.failures
  {
    PurgeOnSubject(w.sub.value.stream, PrefillSubject, PrefillSubject);
    PurgeOnSubject(w.sub.value.stream, PrefillSubject, MainSubject);
  }

  lemma StatusOnly(w: World, status: FillQueueStatus)
    requires w.sub.Some?
    ensures var w' := Perform(w, SetStatus(status));
            && w'.sub.Some? && w'.sub.value.status == status
            && Prefilled(w') == Prefilled(w) && Live(w') == Live(w) && w'.failures == w.failures
  {
  }

  lemma LastCall(w: World, c: Call, a: Attempt, tick: nat)
    ensures Run(w, [c], a, tick) ==
            if tick < a.budget && Succeeds(c, w, a.dirs(tick)) then Outcome(Perform(w, c), tick + 1, true)
            else Outcome(w, tick, false)
  {
    assert [c][1..] == [];
  }

  lemma GiveUp(w: World, request: PrefillRequest, a: Attempt)
    ensures var o := Run(w, GiveUpCalls(request), a, 0);
            && (o.ok && o.tick < a.budget <==> w.sub.Some? && a.budget >= 3)
            && o.world.failures == (if a.budget >= 1 then w.failures + [request] else w.failures)
            && o.world.sub == (if w.sub.Some? && a.budget >= 2 then Some(w.sub.value.(status := Failed)) else w.sub)
            && Purges(o.world.made) == Purges(w.made)
  {
    hide Purges, Run;
    assert GiveUpCalls(request) == [AddToFailures(request)] + [SetStatus(Failed)];
    RunConcat(w, [AddToFailures(request)], [SetStatus(Failed)], a, 0);
    LastCall(w, AddToFailures(request), a, 0);
    OneMoreCall(w, AddToFailures(request));
    var o := Run(w, [AddToFailures(request)], a, 0);
    LastCall(o.world, SetStatus(Failed), a, o.tick);
    OneMoreCall(o.world, SetStatus(Failed));
  }

  // ---------- Every run of a request ----------

  /**
    A retried prefill refines one clean run. While the directory does not change, every number
    of attempts, each cut off after any number of calls, leaves a prefix of the clean run on the
    prefill subject; an acknowledged request has either left all of it under status done or was
    given up under status failed. The main subject is never touched.
   */
  lemma {:induction false} RetryRefinesCleanRun(w: World, request: PrefillRequest, matches: Matches, maxAttempts: int,
                                                attempts: seq<Attempt>, dir: Directory)
    requires w.sub.Some? && Prefilled(w) == []
    requires forall a :: a in attempts ==> Constant(a.dirs, dir)
    ensures var r := Deliveries(w, request, matches, maxAttempts, attempts);
            var expected := Expected(dir, matches, request.realmsTopics);
            && r.world.sub.Some? && Live(r.world) == Live(w)
            && Prefilled(r.world) <= expected
            && (r.acked ==> || (r.world.sub.value.status == Done && Prefilled(r.world) == expected)
                            || (r.world.sub.value.status == Failed && LimitReached(maxAttempts, r.delivered)))
  {
    if attempts != [] {
      var r, a := Deliveries(w, request, matches, maxAttempts, DropLast(attempts)), Last(attempts);
      assert a in attempts && forall x :: x in DropLast(attempts) ==> x in attempts;
      RetryRefinesCleanRun(w, request, matches, maxAttempts, DropLast(attempts), dir);
      hide Run, Published, Expected, FillCalls, GiveUpCalls, TopicsCalls, Purges;
      FillAttempt(r.world, request, matches, a);
      TopicsPublish(a.dirs, 1, matches, request.realmsTopics, dir);
      GiveUp(r.world, request, a);
    }
  }

  /** Whatever earlier attempts saw and left: a fill that is acknowledged delivers what its own reads found. */
  lemma LastFillWins(r: RequestState, request: PrefillRequest, matches: Matches, maxAttempts: int, a: Attempt)
    requires r.world.sub.Some? && !r.acked && !LimitReached(maxAttempts, r.delivered + 1)
    ensures var r' := Deliver(r, request, matches, maxAttempts, a);
            && r'.world.sub.Some? && Live(r'.world) == Live(r.world)
            && (r'.acked ==>
                  && r'.world.sub.value.status == Done
                  && Prefilled(r'.world) == Published(TopicsCalls(a.dirs, 1, matches, request.realmsTopics))
                  && forall dir :: Constant(a.dirs, dir) ==>
                       Prefilled(r'.world) == Expected(dir, matches, request.realmsTopics))
  {
    hide Run, Published, Expected, FillCalls, TopicsCalls, Purges;
    FillAttempt(r.world, request, matches, a);
    forall dir | Constant(a.dirs, dir)
      ensures Published(TopicsCalls(a.dirs, 1, matches, request.realmsTopics)) ==
              Expected(dir, matches, request.realmsTopics)
    {
      TopicsPublish(a.dirs, 1, matches, request.realmsTopics, dir);
    }
  }

  /**
    With a limit the fills that are begun, counted by the purges on the stream, are at most that
    many, and exactly that many if every attempt gets as far as its first call; without one nothing
    is ever given up.
   */
  lemma {:induction false} BoundedFills(w: World, request: PrefillRequest, matches: Matches, maxAttempts: int,
                                        attempts: seq<Attempt>)
    requires maxAttempts >= -1 && w.sub.Some?
    ensures var r := Deliveries(w, request, matches, maxAttempts, attempts);
            var fills := if maxAttempts == -1 then r.delivered else Min(r.delivered, maxAttempts);
            && r.delivered <= |attempts| && r.world.sub.Some?
            && Purges(w.made) <= Purges(r.world.made) <= Purges(w.made) + fills
            && ((forall a :: a in attempts ==> a.budget > 0) ==> Purges(r.world.made) == Purges(w.made) + fills)
            && (!LimitReached(maxAttempts, r.delivered) ==> r.world.failures == w.failures)
  {
    if attempts != [] {
      var r, a := Deliveries(w, request, matches, maxAttempts, DropLast(attempts)), Last(attempts);
      assert a in attempts && forall x :: x in DropLast(attempts) ==> x in attempts;
      BoundedFills(w, request, matches, maxAttempts, DropLast(attempts));
      hide Run, FillCalls, GiveUpCalls, Purges;
      FillAttempt(r.world, request, matches, a);
      GiveUp(r.world, request, a);
    }
  }

  /**
    With a limit the request is acknowledged by delivery maxAttempts + 1 if that delivery's three
    calls succeed: once by a fill, or with status failed and exactly one entry in the failure queue.
   */
  lemma EndsAtTheLimit(w: World, request: PrefillRequest, matches: Matches, maxAttempts: nat, attempts: seq<Attempt>)
    requires w.sub.Some? && |attempts| == maxAttempts + 1 && Last(attempts).budget >= 3
    ensures var r := Deliveries(w, request, matches, maxAttempts, attempts);
            && r.acked && r.delivered <= maxAttempts + 1
            && (r.delivered == maxAttempts + 1 ==> && r.world.sub.Some? && r.world.sub.value.status == Failed
                                                   && r.world.failures == w.failures + [request])
            && (r.delivered <= maxAttempts ==> r.world.failures == w.failures)
  {
    hide Run, FillCalls, GiveUpCalls, Purges;
    var r := Deliveries(w, request, matches, maxAttempts, DropLast(attempts));
    BoundedFills(w, request, matches, maxAttempts, DropLast(attempts));
    DeliveredUntilAcked(w, request, matches, maxAttempts, DropLast(attempts));
    GiveUp(r.world, request, Last(attempts));
  }

  lemma {:induction false} DeliveredUntilAcked(w: World, request: PrefillRequest, matches: Matches, maxAttempts: int,
                                               attempts: seq<Attempt>)
    ensures var r := Deliveries(w, request, matches, maxAttempts, attempts);
            r.acked || r.delivered == |attempts|
  {
    if attempts != [] {
      DeliveredUntilAcked(w, request, matches, maxAttempts, DropLast(attempts));
    }
  }

  /** Beyond the limit a delivery is acknowledged exactly when the subscription exists and all calls succeed. */
  lemma GiveUpIsAckedExactlyWhen(r: RequestState, request: PrefillRequest, matches: Matches, maxAttempts: int,
                                 a: Attempt)
    requires !r.acked && LimitReached(maxAttempts, r.delivered + 1)
    ensures Deliver(r, request, matches, maxAttempts, a).acked <==> r.world.sub.Some? && a.budget >= 3
  {
    GiveUp(r.world, request, a);
  }

  /** One delivery of the request of a deleted subscription. */
  lemma DeletedDelivery(r: RequestState, request: PrefillRequest, matches: Matches, maxAttempts: int, a: Attempt)
    requires r.world.sub.None? && !r.acked
    ensures var r' := Deliver(r, request, matches, maxAttempts, a);
            && !r'.acked && r'.world.sub.None? && r'.delivered == r.delivered + 1
            && r'.world.failures == if LimitReached(maxAttempts, r'.delivered) && a.budget > 0
                                    then r.world.failures + [request] else r.world.failures
  {
    GiveUp(r.world, request, a);
    var fill := FillCalls(a.dirs, matches, request);
    assert fill[0] == Purge && !Succeeds(Purge, r.world, a.dirs(0));
  }

  /**
    The request of a subscription deleted meanwhile is never acknowledged, with or without a
    limit: it stays at the head of the queue, and past the limit each delivery that gets as far
    as its first call adds one more entry to the failure queue.
   */
  lemma {:induction false} DeletedSubscriptionIsNeverAcked(w: World, request: PrefillRequest, matches: Matches,
                                                           maxAttempts: int, attempts: seq<Attempt>)
    requires w.sub.None? && maxAttempts >= -1
    ensures var r := Deliveries(w, request, matches, maxAttempts, attempts);
            && !r.acked && r.world.sub.None? && r.delivered == |attempts|
            && (maxAttempts >= 0 && (forall a :: a in attempts ==> a.budget > 0) ==>
                  |r.world.failures| ==
                  |w.failures| + if r.delivered > maxAttempts then r.delivered - maxAttempts else 0)
  {
    if attempts != [] {
      assert Last(attempts) in attempts && forall x :: x in DropLast(attempts) ==> x in attempts;
      DeletedSubscriptionIsNeverAcked(w, request, matches, maxAttempts, DropLast(attempts));
      hide Deliver;
      DeletedDelivery(Deliveries(w, request, matches, maxAttempts, DropLast(attempts)), request, matches, maxAttempts,
                      Last(attempts));
    }
  }

  // ---------- The queue behind it ----------

  /** The subscriptions of the first n requests all exist. */
  predicate AllExist(store: Store, requests: seq<PrefillRequest>, n: nat)
    requires n <= |requests|
  {
    forall i :: 0 <= i < n ==> requests[i].subscriptionName in store.subs
  }

  lemma ServeKeepsNames(q: QueueState, requests: seq<PrefillRequest>, matches: Matches, maxAttempts: int, a: Attempt)
    ensures var q' := Serve(q, requests, matches, maxAttempts, a);
            && q'.store.subs.Keys == q.store.subs.Keys
            && q.served <= q'.served <= q.served + 1
            && (q'.served > q.served ==>
                  q.served < |requests| && requests[q.served].subscriptionName in q.store.subs)
  {
    if q.served < |requests| {
      var request := requests[q.served];
      var r := RequestState(WorldOf(q.store, request.subscriptionName), q.delivered, false);
      if r.world.sub.None? {
        DeletedDelivery(r, request, matches, maxAttempts, a);
      } else {
        hide Run, FillCalls, GiveUpCalls, Purges;
        FillAttempt(r.world, request, matches, a);
        GiveUp(r.world, request, a);
      }
    }
  }

  lemma OneMoreExists(store: Store, q: QueueState, q': QueueState, requests: seq<PrefillRequest>)
    requires q.store.subs.Keys == store.subs.Keys && q.served <= |requests| && AllExist(store, requests, q.served)
    requires q'.served == q.served
             || (&& q'.served == q.served + 1 && q.served < |requests|
                 && requests[q.served].subscriptionName in q.store.subs)
    ensures q'.served <= |requests| && AllExist(store, requests, q'.served)
  {
    assert requests != [] && q.served < |requests| && requests[q.served].subscriptionName in q.store.subs ==>
             requests[q.served].subscriptionName in store.subs.Keys;
  }

  /** A request is only ever acknowledged if the subscriptions of all requests up to it exist. */
  lemma {:induction false} StuckBehindDeleted(store: Store, requests: seq<PrefillRequest>, matches: Matches,
                                              maxAttempts: int, attempts: seq<Attempt>)
    ensures var q := ServeAll(store, requests, matches, maxAttempts, attempts);
            && q.store.subs.Keys == store.subs.Keys
            && q.served <= |requests| && AllExist(store, requests, q.served)
  {
    if attempts != [] {
      hide Serve, AllExist;
      var q := ServeAll(store, requests, matches, maxAttempts, DropLast(attempts));
      StuckBehindDeleted(store, requests, matches, maxAttempts, DropLast(attempts));
      ServeKeepsNames(q, requests, matches, maxAttempts, Last(attempts));
      OneMoreExists(store, q, Serve(q, requests, matches, maxAttempts, Last(attempts)), requests);
    } else {
      assert AllExist(store, requests, 0);
    }
  }

  /** A directory without any object types: nothing can go wrong in a fill of it. */
  const NO_OBJECTS := Directory([], map[], map[])

  ghost predicate NeverFails(calls: seq<Call>) {
    forall c :: c in calls ==> !c.GetObject? && !c.ListObjects?
  }

  lemma {:induction false} RunSucceeds(w: World, calls: seq<Call>, a: Attempt, tick: nat)
    requires w.sub.Some? && NeverFails(calls) && tick + |calls| <= a.budget
    ensures Run(w, calls, a, tick).ok && Run(w, calls, a, tick).tick == tick + |calls|
    decreases |calls|
  {
    if calls != [] {
      assert calls[0] in calls;
      RunSucceeds(Perform(w, calls[0]), calls[1..], a, tick + 1);
    }
  }

  lemma EmptyTopic(t: nat, matches: Matches, rt: RealmTopic)
    ensures var calls := TopicCalls((i: nat) => NO_OBJECTS, t, matches, rt);
            NeverFails(calls) && |calls| <= 2
  {
    assert MatchingTypes(NO_OBJECTS, matches, rt.topic) == [];
  }

  lemma {:induction false} EmptyFill(t: nat, matches: Matches, rts: seq<RealmTopic>)
    ensures var calls := TopicsCalls((i: nat) => NO_OBJECTS, t, matches, rts);
            NeverFails(calls) && |calls| <= 2 * |rts|
    decreases |rts|
  {
    if rts != [] {
      hide TopicCalls;
      var dirs := (i: nat) => NO_OBJECTS;
      EmptyTopic(t, matches, rts[0]);
      EmptyFill(t + |TopicCalls(dirs, t, matches, rts[0])|, matches, rts[1..]);
    }
  }

  function EmptyAttempt(request: PrefillRequest): Attempt {
    Attempt((i: nat) => NO_OBJECTS, 2 * |request.realmsTopics| + 3)
  }

  lemma EmptyAttemptNeverFails(request: PrefillRequest, matches: Matches, maxAttempts: int, n: nat)
    ensures var calls := CallsFor(EmptyAttempt(request).dirs, matches, request, maxAttempts, n);
            NeverFails(calls) && |calls| < EmptyAttempt(request).budget
  {
    EmptyFill(1, matches, request.realmsTopics);
    hide TopicsCalls;
  }

  /** An attempt of which nothing fails gets the request acknowledged, by a fill or by giving up. */
  lemma OneAttemptServes(q: QueueState, requests: seq<PrefillRequest>, matches: Matches, maxAttempts: int)
    requires q.served < |requests| && requests[q.served].subscriptionName in q.store.subs
    ensures Serve(q, requests, matches, maxAttempts, EmptyAttempt(requests[q.served])).served == q.served + 1
  {
    hide CallsFor, NeverFails, EmptyAttempt, Run;
    var request := requests[q.served];
    var a := EmptyAttempt(request);
    EmptyAttemptNeverFails(request, matches, maxAttempts, q.delivered + 1);
    RunSucceeds(WorldOf(q.store, request.subscriptionName),
                CallsFor(a.dirs, matches, request, maxAttempts, q.delivered + 1), a, 0);
  }

  lemma {:induction false} AllServed(store: Store, requests: seq<PrefillRequest>, matches: Matches, maxAttempts: int,
                                     n: nat)
    returns (attempts: seq<Attempt>)
    requires n <= |requests| && AllExist(store, requests, n)
    ensures ServeAll(store, requests, matches, maxAttempts, attempts).served == n
  {
    attempts := [];
    if n > 0 {
      var before := AllServed(store, requests, matches, maxAttempts, n - 1);
      var q := ServeAll(store, requests, matches, maxAttempts, before);
      StuckBehindDeleted(store, requests, matches, maxAttempts, before);
      hide Serve;
      assert requests[n - 1].subscriptionName in store.subs;
      OneAttemptServes(q, requests, matches, maxAttempts);
      attempts := before + [EmptyAttempt(requests[n - 1])];
      assert DropLast(attempts) == before;
    }
  }

  /**
    The first n requests of the queue can all be acknowledged exactly if none of their
    subscriptions was deleted: one deleted subscription keeps every later request waiting for ever.
   */
  lemma {:induction false} QueueAdvancesExactlyWhen(store: Store, requests: seq<PrefillRequest>, matches: Matches,
                                                    maxAttempts: int, n: nat)
    requires n <= |requests|
    ensures (exists attempts :: ServeAll(store, requests, matches, maxAttempts, attempts).served >= n) <==>
            AllExist(store, requests, n)
  {
    if attempts :| ServeAll(store, requests, matches, maxAttempts, attempts).served >= n {
      StuckBehindDeleted(store, requests, matches, maxAttempts, attempts);
    }
    if AllExist(store, requests, n) {
      var attempts := AllServed(store, requests, matches, maxAttempts, n);
    }
  }
}
