/** The promises of the gate over every run, and the runs that show where they end. */
module GateRuns {
  import opened Models
  import opened Sequences
  import opened JetStream
  import opened Stages
  import opened Prefill
  import opened PrefillRetry
  import opened Gate
  import opened GateOrder

  // ---------- No partial prefill is visible ----------

  /** Some attempt of the run set out to publish exactly these messages. */
  ghost predicate PlannedIn(steps: seq<Step>, ms: seq<Message>) {
    exists i :: 0 <= i < |steps| && Plans(steps[i], ms)
  }

  ghost predicate Plans(step: Step, ms: seq<Message>) {
    step.WorkerFetch? && IsFilling(step.topics) && Published(step.topics) == ms
  }

  ghost predicate PlanInv(s: State, requestPrefill: bool, steps: seq<Step>) {
    && (s.worker.NoRequest? <==> !requestPrefill)
    && (s.worker.Busy? && s.worker.todo != [] && Last(s.worker.todo) == SetStatus(Done) ==>
          PlannedIn(steps, s.worker.publishes))
    && (s.sub.status == Done && requestPrefill ==> PlannedIn(steps, s.filledBy))
  }

  lemma PlannedLonger(steps: seq<Step>, step: Step, ms: seq<Message>)
    requires PlannedIn(steps, ms) || Plans(step, ms)
    ensures PlannedIn(steps + [step], ms)
  {
    if PlannedIn(steps, ms) {
      var i :| 0 <= i < |steps| && Plans(steps[i], ms);
      assert Plans((steps + [step])[i], ms);
    } else {
      assert Plans((steps + [step])[|steps|], ms);
    }
  }

  lemma StepKeepsPlan(s: State, requestPrefill: bool, steps: seq<Step>, step: Step, cfg: Config)
    requires cfg.ackLands && GateInv(s) && PlanInv(s, requestPrefill, steps)
    ensures PlanInv(Do(s, step, cfg), requestPrefill, steps + [step])
  {
    var s' := Do(s, step, cfg);
    if s.worker.Busy? && PlannedIn(steps, s.worker.publishes) {
      PlannedLonger(steps, step, s.worker.publishes);
    }
    if PlannedIn(steps, s.filledBy) {
      PlannedLonger(steps, step, s.filledBy);
    }
    if step.WorkerFetch? && s'.worker.Busy? && Plans(step, s'.worker.publishes) {
      PlannedLonger(steps, step, s'.worker.publishes);
    }
    if step.WorkerCall? && s.worker.Busy? && s.worker.todo != [] {
      assert |s.worker.todo| > 1 ==> Last(s.worker.todo[1..]) == Last(s.worker.todo);
      assert s.sub.status != Done;
      if FillsThenDone(s.worker.todo) {
        DoneComesLast(s.worker.todo);
      }
    }
  }

  lemma {:induction false} EveryRunKeepsPlan(requestPrefill: bool, steps: seq<Step>, cfg: Config)
    requires cfg.ackLands
    ensures PlanInv(RunSteps(Init(requestPrefill), steps, cfg), requestPrefill, steps)
  {
    if steps != [] {
      EveryRunKeepsPlan(requestPrefill, DropLast(steps), cfg);
      EveryRunKeeps(requestPrefill, DropLast(steps), cfg);
      StepKeepsPlan(RunSteps(Init(requestPrefill), DropLast(steps), cfg), requestPrefill,
                    DropLast(steps), Last(steps), cfg);
      assert steps == DropLast(steps) + [Last(steps)];
    }
  }

  /**
    If the acknowledgement after status done lands, no message at all is handed to the consumer
    before one attempt has published everything it set out to publish and has reported done; and
    every prefill message handed out is from that attempt.
   */
  lemma NoPartialPrefillIsVisible(requestPrefill: bool, steps: seq<Step>, cfg: Config)
    requires cfg.ackLands
    ensures var s := RunSteps(Init(requestPrefill), steps, cfg);
            s.handed != [] ==>
              && s.sub.status == Done
              && Messages(s.filled) == s.filledBy
              && (requestPrefill ==> PlannedIn(steps, s.filledBy))
              && (forall e :: e in s.handed && e.subject == PrefillSubject ==> e in s.filled)
  {
    EveryRunKeeps(requestPrefill, steps, cfg);
    EveryRunKeepsPlan(requestPrefill, steps, cfg);
    var s := RunSteps(Init(requestPrefill), steps, cfg);
    HandedMembers(s, PrefillSubject);
    CollapseMembers(HandedFrom(s, PrefillSubject));
  }

  /** A fill as the worker runs it is such an attempt, whatever its reads find. */
  lemma FillCallsAreAPlan(dirs: Directories, matches: Matches, request: PrefillRequest)
    ensures var topics := TopicsCalls(dirs, 1, matches, request.realmsTopics);
            && Plans(WorkerFetch(topics), Published(topics))
            && FillCalls(dirs, matches, request) == [Purge] + topics + [SetStatus(Done)]
  {
    TopicsFill(dirs, 1, matches, request.realmsTopics);
  }

  // ---------- The fill status ----------

  predicate StatusMoves(before: FillQueueStatus, after: FillQueueStatus) {
    || before == after
    || (before == Pending && after in {Running, Done, Failed})
    || (before == Running && after in {Done, Failed})
  }

  /** Done and failed are final; a subscription registered without prefill stays done. */
  lemma StatusOnlyMovesForward(requestPrefill: bool, steps: seq<Step>, step: Step, cfg: Config)
    requires cfg.ackLands
    ensures var s := RunSteps(Init(requestPrefill), steps, cfg);
            && StatusMoves(s.sub.status, Do(s, step, cfg).sub.status)
            && (!requestPrefill ==> s.sub.status == Done)
  {
    EveryRunKeeps(requestPrefill, steps, cfg);
    EveryRunKeepsWorkerStatus(requestPrefill, steps, cfg);
    StepKeepsWorkerStatus(RunSteps(Init(requestPrefill), steps, cfg), requestPrefill, step, cfg);
  }

  ghost predicate WorkerStatusInv(s: State, requestPrefill: bool) {
    && (!requestPrefill ==> s.worker.NoRequest? && s.sub.status == Done)
    && (s.sub.status == Failed ==> s.worker.Acknowledged? || (s.worker.Busy? && s.worker.todo == []))
  }

  lemma StepKeepsWorkerStatus(s: State, requestPrefill: bool, step: Step, cfg: Config)
    requires cfg.ackLands && GateInv(s) && WorkerStatusInv(s, requestPrefill)
    ensures WorkerStatusInv(Do(s, step, cfg), requestPrefill)
    ensures StatusMoves(s.sub.status, Do(s, step, cfg).sub.status)
  {
    if step.WorkerCall? && s.worker.Busy? && s.worker.todo != [] {
      if FillsThenDone(s.worker.todo) {
        DoneComesLast(s.worker.todo);
      }
    }
  }

  lemma {:induction false} EveryRunKeepsWorkerStatus(requestPrefill: bool, steps: seq<Step>, cfg: Config)
    requires cfg.ackLands
    ensures WorkerStatusInv(RunSteps(Init(requestPrefill), steps, cfg), requestPrefill)
  {
    if steps != [] {
      EveryRunKeepsWorkerStatus(requestPrefill, DropLast(steps), cfg);
      EveryRunKeeps(requestPrefill, DropLast(steps), cfg);
      hide GateInv, OrderInv;
      StepKeepsWorkerStatus(RunSteps(Init(requestPrefill), DropLast(steps), cfg), requestPrefill, Last(steps), cfg);
    }
  }

  // ---------- Order ----------

  /**
    Each subject by itself is handed out in order and without loss, whatever a fetch answers:
    with adjacent redeliveries collapsed the consumer has seen a prefix of it, and what is no
    longer in the stream has been handed out.
   */
  lemma EachSubjectInOrder(requestPrefill: bool, steps: seq<Step>, cfg: Config)
    requires cfg.ackLands
    ensures var s := RunSteps(Init(requestPrefill), steps, cfg);
            && Collapse(HandedFrom(s, MainSubject)) <= s.mainLog
            && (forall e :: e in s.mainLog ==> e in s.sub.stream.entries || e in s.handed)
            && (s.sub.status != Done ==> s.handed == [])
            && (s.sub.status == Done ==>
                  && Collapse(HandedFrom(s, PrefillSubject)) <= s.filled
                  && (forall e :: e in s.filled ==> e in s.sub.stream.entries || e in s.handed))
  {
    EveryRunKeeps(requestPrefill, steps, cfg);
    var s := RunSteps(Init(requestPrefill), steps, cfg);
    NothingLost(s, MainSubject, s.mainLog);
    if s.sub.status == Done {
      NothingLost(s, PrefillSubject, s.filled);
    }
  }

  lemma NothingLost(s: State, subject: Subject, log: seq<Stored>)
    requires Consumed(log, OnSubject(s.sub.stream, subject), HandedFrom(s, subject))
    ensures Collapse(HandedFrom(s, subject)) <= log
    ensures forall e :: e in log ==> e in s.sub.stream.entries || e in s.handed
  {
    var rest, handed := OnSubject(s.sub.stream, subject), HandedFrom(s, subject);
    FilterMembers(Of(subject), s.sub.stream.entries);
    HandedMembers(s, subject);
    CollapseMembers(handed);
    forall e | e in log
      ensures e in s.sub.stream.entries || e in s.handed
    {
      var i :| 0 <= i < |log| && log[i] == e;
      var gone := |log| - |rest|;
      if i < gone {
        assert Collapse(handed)[i] == e;
      } else {
        assert rest[i - gone] == e;
      }
    }
  }

  /** The n prefill messages come first, and nothing of the other subject is in between. */
  predicate PrefillFirst(seen: seq<Stored>, n: nat) {
    forall i :: 0 <= i < |seen| ==> (seen[i].subject == PrefillSubject <==> i < n)
  }

  /** The order across the two subjects, in terms of what the consumer has seen. */
  lemma WholeOrderExactlyWhen(requestPrefill: bool, steps: seq<Step>, cfg: Config)
    requires cfg.ackLands
    ensures var s := RunSteps(Init(requestPrefill), steps, cfg);
            Collapse(s.handed) <= s.filled + s.mainLog <==> PrefillFirst(Collapse(s.handed), |s.filled|)
  {
    EveryRunKeeps(requestPrefill, steps, cfg);
    var s := RunSteps(Init(requestPrefill), steps, cfg);
    hide Filter, Collapse, GateInv, Consumed, Apart, Increasing;
    if PrefillFirst(Collapse(s.handed), |s.filled|) {
      EachSubjectInOrder(requestPrefill, steps, cfg);
      SortedIsConcatenation(s.handed, |s.filled|);
      if s.handed != [] {
        PrefixesJoin(Collapse(HandedFrom(s, PrefillSubject)), s.filled,
                     Collapse(HandedFrom(s, MainSubject)), s.mainLog);
      } else {
        assert Collapse(s.handed) == [];
      }
    }
  }

  lemma PrefixesJoin<T>(a: seq<T>, a': seq<T>, b: seq<T>, b': seq<T>)
    requires a <= a' && b <= b' && (b != [] ==> a == a')
    ensures a + b <= a' + b'
  {
  }

  lemma FrontHalf(seen: seq<Stored>, n: nat)
    requires PrefillFirst(seen, n)
    ensures Filter(Of(PrefillSubject), seen) == seen[..Min(n, |seen|)]
  {
    hide Filter;
    var isPrefill, k := Of(PrefillSubject), Min(n, |seen|);
    var front, back := seen[..k], seen[k..];
    assert seen == front + back;
    FilterConcat(isPrefill, front, back);
    FilterAll(isPrefill, front);
    FilterNone(isPrefill, back);
    assert front + [] == front;
  }

  lemma BackHalf(seen: seq<Stored>, n: nat)
    requires PrefillFirst(seen, n)
    ensures Filter(Of(MainSubject), seen) == seen[Min(n, |seen|)..]
  {
    hide Filter;
    var isMain, k := Of(MainSubject), Min(n, |seen|);
    var front, back := seen[..k], seen[k..];
    assert seen == front + back;
    FilterConcat(isMain, front, back);
    FilterNone(isMain, front);
    FilterAll(isMain, back);
    assert [] + back == back;
  }

  lemma HalvesHaveNoRepeats(log: seq<Stored>, k: nat)
    requires k <= |Collapse(log)|
    ensures var seen := Collapse(log);
            Collapse(seen[..k]) == seen[..k] && Collapse(seen[k..]) == seen[k..]
  {
    hide Collapse;
    CollapseHasNoRepeats(log);
    CollapseDistinct(Collapse(log)[..k]);
    CollapseDistinct(Collapse(log)[k..]);
  }

  /** A log whose n first distinct entries are its prefill entries is the two sublogs, one after the other. */
  lemma SortedIsConcatenation(handed: seq<Stored>, n: nat)
    requires PrefillFirst(Collapse(handed), n)
    ensures var p := Collapse(Filter(Of(PrefillSubject), handed));
            var m := Collapse(Filter(Of(MainSubject), handed));
            Collapse(handed) == p + m && |p| == Min(n, |Collapse(handed)|)
  {
    hide Filter, Collapse, PrefillFirst;
    var seen := Collapse(handed);
    CollapseFilter(Of(PrefillSubject), handed);
    CollapseFilter(Of(MainSubject), handed);
    FrontHalf(seen, n);
    BackHalf(seen, n);
    HalvesHaveNoRepeats(handed, Min(n, |seen|));
  }

  // ---------- Order, fetch by fetch ----------

  /** A live message is handed out when all prefill messages were, a prefill message when no live one was. */
  ghost predicate HandsInTurn(s: State, s': State) {
    |s'.handed| > |s.handed| ==>
      if Last(s'.handed).subject == MainSubject then Collapse(HandedFrom(s, PrefillSubject)) == s.filled
      else HandedFrom(s, MainSubject) == []
  }

  ghost predicate InTurnAt(requestPrefill: bool, steps: seq<Step>, cfg: Config, i: nat)
    requires i < |steps|
  {
    var s := RunSteps(Init(requestPrefill), steps[..i], cfg);
    HandsInTurn(s, Do(s, steps[i], cfg))
  }

  ghost predicate AllInTurn(requestPrefill: bool, steps: seq<Step>, cfg: Config) {
    forall i :: 0 <= i < |steps| ==> InTurnAt(requestPrefill, steps, cfg, i)
  }

  lemma AllInTurnStep(requestPrefill: bool, steps: seq<Step>, cfg: Config)
    requires steps != []
    ensures AllInTurn(requestPrefill, steps, cfg) <==>
            && AllInTurn(requestPrefill, DropLast(steps), cfg)
            && InTurnAt(requestPrefill, steps, cfg, |steps| - 1)
  {
    hide RunSteps, Do, HandsInTurn;
    var init := DropLast(steps);
    forall i | 0 <= i < |init|
      ensures InTurnAt(requestPrefill, init, cfg, i) <==> InTurnAt(requestPrefill, steps, cfg, i)
    {
      assert init[..i] == steps[..i] && init[i] == steps[i];
    }
  }

  lemma HandedGrows(s: State, step: Step, cfg: Config)
    requires GateInv(s)
    ensures var s' := Do(s, step, cfg);
            && (s'.handed == s.handed || (s'.handed != [] && DropLast(s'.handed) == s.handed))
            && (s.handed != [] || s'.handed != [] ==> s'.filled == s.filled)
  {
    hide WorkerOk, OnSubject, PerformOn, DeleteMessage, Append;
    match step
    case PollFetch(poll, none) =>
    case _ =>
  }

  /** Whether the prefill messages still come first with one more message handed out. */
  lemma OneMoreInTurn(handed: seq<Stored>, x: Stored, filled: seq<Stored>)
    requires Collapse(Filter(Of(PrefillSubject), handed + [x])) <= filled
    ensures PrefillFirst(Collapse(handed + [x]), |filled|) <==>
            && PrefillFirst(Collapse(handed), |filled|)
            && if x.subject == MainSubject then Collapse(Filter(Of(PrefillSubject), handed)) == filled
               else Filter(Of(MainSubject), handed) == []
  {
    hide Filter, Collapse, PrefillFirst;
    CollapseSnoc(handed, x);
    PrefillFirstSnoc(Collapse(handed), x, |filled|);
    if PrefillFirst(Collapse(handed), |filled|) {
      TurnOfNext(handed, x, filled);
    }
  }

  lemma PrefillFirstSnoc(seen: seq<Stored>, x: Stored, n: nat)
    ensures PrefillFirst(seen + [x], n) <==> PrefillFirst(seen, n) && (x.subject == PrefillSubject <==> |seen| < n)
  {
    var longer := seen + [x];
    assert longer[|seen|] == x && forall i :: 0 <= i < |seen| ==> longer[i] == seen[i];
  }

  lemma TurnOfNext(handed: seq<Stored>, x: Stored, filled: seq<Stored>)
    requires PrefillFirst(Collapse(handed), |filled|)
    requires Collapse(Filter(Of(PrefillSubject), handed + [x])) <= filled
    ensures (if x.subject == MainSubject then Collapse(Filter(Of(PrefillSubject), handed)) == filled
             else Filter(Of(MainSubject), handed) == []) <==>
            (handed != [] && Last(handed) == x) || (x.subject == PrefillSubject <==> |Collapse(handed)| < |filled|)
  {
    var seen, n := Collapse(handed), |filled|;
    SortedIsConcatenation(handed, n);
    FilterSnoc(Of(PrefillSubject), handed, x);
    LastSeen(handed, n);
    hide Filter, Collapse, PrefillFirst;
    if x.subject == PrefillSubject {
      TurnOfPrefill(handed, x, filled);
    } else {
      assert Collapse(Filter(Of(PrefillSubject), handed)) <= filled;
    }
  }

  lemma LastSeen(handed: seq<Stored>, n: nat)
    requires PrefillFirst(Collapse(handed), n)
    ensures handed != [] ==>
              Collapse(handed) != [] && (Last(handed).subject == PrefillSubject <==> |Collapse(handed)| <= n)
  {
    hide Collapse;
    assert handed != [] ==> Collapse(handed)[|Collapse(handed)| - 1] == Last(handed);
  }

  lemma TurnOfPrefill(handed: seq<Stored>, x: Stored, filled: seq<Stored>)
    requires PrefillFirst(Collapse(handed), |filled|) && x.subject == PrefillSubject
    requires Collapse(Filter(Of(PrefillSubject), handed + [x])) <= filled
    ensures Filter(Of(MainSubject), handed) == [] <==>
            (handed != [] && Last(handed) == x) || |Collapse(handed)| < |filled|
  {
    hide Filter, Collapse, PrefillFirst;
    var p, m := Filter(Of(PrefillSubject), handed), Filter(Of(MainSubject), handed);
    SortedIsConcatenation(handed, |filled|);
    LastSeen(handed, |filled|);
    if m == [] {
      assert Collapse(m) == [] && Collapse(handed) == Collapse(p);
      FilterSnoc(Of(PrefillSubject), handed, x);
      CollapseSnoc(p, x);
    }
  }

  lemma TurnStep(s: State, s': State)
    requires s'.handed == s.handed || (s'.handed != [] && DropLast(s'.handed) == s.handed)
    requires s'.handed != [] ==> s'.filled == s.filled && Collapse(HandedFrom(s', PrefillSubject)) <= s'.filled
    ensures PrefillFirst(Collapse(s'.handed), |s'.filled|) <==>
            PrefillFirst(Collapse(s.handed), |s.filled|) && HandsInTurn(s, s')
  {
    hide Filter, Collapse;
    if s'.handed == s.handed {
      NothingSeen();
    } else {
      assert s'.handed == s.handed + [Last(s'.handed)];
      OneMoreInTurn(s.handed, Last(s'.handed), s'.filled);
    }
  }

  lemma PrefillInOrder(requestPrefill: bool, steps: seq<Step>, cfg: Config)
    requires cfg.ackLands
    ensures var s := RunSteps(Init(requestPrefill), steps, cfg);
            s.handed != [] ==> Collapse(HandedFrom(s, PrefillSubject)) <= s.filled
  {
    hide Collapse, HandedFrom, RunSteps;
    EachSubjectInOrder(requestPrefill, steps, cfg);
  }

  lemma {:induction false} OrderByTurns(requestPrefill: bool, steps: seq<Step>, cfg: Config)
    requires cfg.ackLands
    ensures var s := RunSteps(Init(requestPrefill), steps, cfg);
            PrefillFirst(Collapse(s.handed), |s.filled|) <==> AllInTurn(requestPrefill, steps, cfg)
  {
    if steps != [] {
      var s := RunSteps(Init(requestPrefill), DropLast(steps), cfg);
      OrderByTurns(requestPrefill, DropLast(steps), cfg);
      AllInTurnStep(requestPrefill, steps, cfg);
      assert steps[..|steps| - 1] == DropLast(steps);
      EveryRunKeeps(requestPrefill, DropLast(steps), cfg);
      HandedGrows(s, Last(steps), cfg);
      PrefillInOrder(requestPrefill, steps, cfg);
      hide Collapse, Do, GateInv, OrderInv, AllInTurn, PrefillFirst, HandsInTurn, HandedFrom;
      TurnStep(s, Do(s, Last(steps), cfg));
    }
  }

  lemma NothingSeen()
    ensures Collapse<Stored>([]) == []
  {
  }

  /**
    Across the two subjects the consumer sees a prefix of prefill followed by live messages
    exactly when each fetch that handed out a live message came after all prefill messages had
    been handed out, and each that handed out a prefill message before any live one.
   */
  lemma {:induction false} OrderHoldsExactlyWhen(requestPrefill: bool, steps: seq<Step>, cfg: Config)
    requires cfg.ackLands
    ensures var s := RunSteps(Init(requestPrefill), steps, cfg);
            Collapse(s.handed) <= s.filled + s.mainLog <==> AllInTurn(requestPrefill, steps, cfg)
  {
    WholeOrderExactlyWhen(requestPrefill, steps, cfg);
    OrderByTurns(requestPrefill, steps, cfg);
  }

  // ---------- Order, if None means that the subject is empty ----------

  /** The step does not answer None from a prefill subject that is not empty. */
  predicate Honest(s: State, step: Step, cfg: Config) {
    step.PollFetch? && step.none && !cfg.emptyMeansEmpty
    && step.poll in s.polls && s.polls[step.poll].stage == Fetching(PrefillSubject)
    ==> PrefillEntries(s) == []
  }

  ghost predicate HonestAt(s: State, steps: seq<Step>, cfg: Config, i: nat)
    requires i < |steps|
  {
    Honest(RunSteps(s, steps[..i], cfg), steps[i], cfg)
  }

  ghost predicate HonestRun(s: State, steps: seq<Step>, cfg: Config) {
    forall i :: 0 <= i < |steps| ==> HonestAt(s, steps, cfg, i)
  }

  lemma HonestStep(s: State, steps: seq<Step>, cfg: Config)
    requires steps != []
    ensures HonestRun(s, steps, cfg) <==>
            && HonestRun(s, DropLast(steps), cfg)
            && Honest(RunSteps(s, DropLast(steps), cfg), Last(steps), cfg)
  {
    hide RunSteps, Honest;
    var init := DropLast(steps);
    assert steps[..|steps| - 1] == init;
    forall i | 0 <= i < |init|
      ensures HonestAt(s, init, cfg, i) <==> HonestAt(s, steps, cfg, i)
    {
      assert init[..i] == steps[..i] && init[i] == steps[i];
    }
    assert HonestAt(s, steps, cfg, |steps| - 1) <==> Honest(RunSteps(s, init, cfg), Last(steps), cfg);
  }

  /** Some process has gone over to live messages, or one has been handed out. */
  predicate LiveOpen(s: State) {
    || s.flags != {}
    || HandedFrom(s, MainSubject) != []
    || exists p :: p in s.polls && s.polls[p].stage == Fetching(MainSubject)
  }

  ghost predicate EmptyInv(s: State) {
    && (LiveOpen(s) ==> PrefillEntries(s) == [])
    && Collapse(s.handed) == Collapse(HandedFrom(s, PrefillSubject)) + Collapse(HandedFrom(s, MainSubject))
  }

  lemma HandingKeepsSplit(handed: seq<Stored>, x: Stored)
    requires Collapse(handed) ==
             Collapse(Filter(Of(PrefillSubject), handed)) + Collapse(Filter(Of(MainSubject), handed))
    requires x.subject == PrefillSubject ==> Filter(Of(MainSubject), handed) == []
    ensures Collapse(handed + [x]) ==
            Collapse(Filter(Of(PrefillSubject), handed + [x])) + Collapse(Filter(Of(MainSubject), handed + [x]))
  {
    hide Filter, Collapse;
    var p, m := Filter(Of(PrefillSubject), handed), Filter(Of(MainSubject), handed);
    FilterSnoc(Of(PrefillSubject), handed, x);
    FilterSnoc(Of(MainSubject), handed, x);
    if x.subject == PrefillSubject {
      assert Collapse(m) == [] && Collapse(handed) == Collapse(p);
      CollapseCongruence(handed, p, x);
    } else {
      HandingLive(handed, p, m, x);
    }
  }

  lemma {:induction false} HandingLive(handed: seq<Stored>, p: seq<Stored>, m: seq<Stored>, x: Stored)
    requires Collapse(handed) == Collapse(p) + Collapse(m) && x.subject == MainSubject
    requires p == Filter(Of(PrefillSubject), handed)
    ensures Collapse(handed + [x]) == Collapse(p) + Collapse(m + [x])
  {
    CollapseSnoc(handed, x);
    CollapseSnoc(m, x);
    FilterMembers(Of(PrefillSubject), handed);
    hide Filter, Collapse;
    if m == [] {
      assert Collapse(m) == [] && Collapse(handed) == Collapse(p);
      assert p != [] ==> Last(p) in p && Last(p).subject == PrefillSubject;
      assert Collapse(handed + [x]) == Collapse(p) + [x];
    } else {
      assert Last(Collapse(handed)) == Last(Collapse(m)) == Last(m);
      assert Collapse(p) + (Collapse(m) + [x]) == (Collapse(p) + Collapse(m)) + [x];
    }
  }

  /** Handing a message out is what a poll does that has live reading open already, if the message is live. */
  lemma HandingOpensNothing(s: State, poll: nat, cfg: Config)
    requires poll in s.polls && s.polls[poll].stage.Fetching?
    requires OnSubject(s.sub.stream, s.polls[poll].stage.subject) != []
    ensures OnSubject(s.sub.stream, s.polls[poll].stage.subject)[0].subject == s.polls[poll].stage.subject
    ensures s.polls[poll].stage.subject == MainSubject ==> LiveOpen(s)
    ensures !LiveOpen(s) ==> HandedFrom(s, MainSubject) == []
    ensures LiveOpen(DoPollFetch(s, poll, false, cfg)) ==> LiveOpen(s)
  {
    var subject := s.polls[poll].stage.subject;
    var waiting := OnSubject(s.sub.stream, subject);
    FilterMembers(Of(subject), s.sub.stream.entries);
    FilterSnoc(Of(MainSubject), s.handed, waiting[0]);
    hide Collapse, Filter, OnSubject;
    assert waiting[0] in waiting;
  }

  lemma HandingKeepsEmpty(s: State, poll: nat, cfg: Config)
    requires EmptyInv(s) && poll in s.polls && s.polls[poll].stage.Fetching?
    requires OnSubject(s.sub.stream, s.polls[poll].stage.subject) != []
    ensures EmptyInv(DoPollFetch(s, poll, false, cfg))
  {
    hide Collapse, Filter, OnSubject, LiveOpen;
    HandingOpensNothing(s, poll, cfg);
    HandingKeepsSplit(s.handed, OnSubject(s.sub.stream, s.polls[poll].stage.subject)[0]);
  }

  lemma NoneKeepsEmpty(s: State, poll: nat, none: bool, cfg: Config)
    requires Honest(s, PollFetch(poll, none), cfg) && EmptyInv(s) && DoPollFetch(s, poll, none, cfg).handed == s.handed
    ensures EmptyInv(DoPollFetch(s, poll, none, cfg))
  {
    hide Collapse, Filter, OnSubject;
  }

  lemma {:induction false} FetchKeepsEmpty(s: State, poll: nat, none: bool, cfg: Config)
    requires cfg.ackLands && Honest(s, PollFetch(poll, none), cfg) && GateInv(s) && EmptyInv(s)
    ensures EmptyInv(DoPollFetch(s, poll, none, cfg))
  {
    hide EmptyInv, GateInv, OnSubject;
    if DoPollFetch(s, poll, none, cfg).handed == s.handed {
      NoneKeepsEmpty(s, poll, none, cfg);
    } else {
      HandingKeepsEmpty(s, poll, cfg);
    }
  }

  lemma {:induction false} StepKeepsEmpty(s: State, step: Step, cfg: Config)
    requires cfg.ackLands && Honest(s, step, cfg) && GateInv(s) && EmptyInv(s)
    ensures EmptyInv(Do(s, step, cfg))
  {
    hide Collapse, Filter;
    match step
    case PollFetch(poll, none) => FetchKeepsEmpty(s, poll, none, cfg);
    case Dispatch(m) => AppendOnSubject(s.sub.stream, MainSubject, m, PrefillSubject);
    case ConsumerAck(i) =>
      if i < |s.handed| {
        DeleteOnSubject(s.sub.stream, s.handed[i].seqNo, PrefillSubject);
        FilterNone(Except(s.handed[i].seqNo), []);
      }
    case WorkerCall =>
      if s.worker.Busy? && s.worker.todo != [] {
        NothingHanded(s, MainSubject);
      }
    case WorkerFetch(topics) =>
    case WorkerCrash =>
    case WorkerAck =>
    case PollBegin(poll, process) =>
    case PollStatus(poll, last) =>
    case ProcessRestart(process) =>
  }

  lemma NothingHanded(s: State, subject: Subject)
    ensures s.handed == [] ==> HandedFrom(s, subject) == []
  {
  }

  lemma {:induction false} EveryRunKeepsEmpty(requestPrefill: bool, steps: seq<Step>, cfg: Config)
    requires cfg.ackLands && HonestRun(Init(requestPrefill), steps, cfg)
    ensures EmptyInv(RunSteps(Init(requestPrefill), steps, cfg))
  {
    if steps != [] {
      HonestStep(Init(requestPrefill), steps, cfg);
      hide HonestRun, Honest;
      EveryRunKeepsEmpty(requestPrefill, DropLast(steps), cfg);
      EveryRunKeeps(requestPrefill, DropLast(steps), cfg);
      StepKeepsEmpty(RunSteps(Init(requestPrefill), DropLast(steps), cfg), Last(steps), cfg);
    }
  }

  /** What the consumer has seen, redeliveries collapsed, is a prefix of the prefill followed by the live messages. */
  predicate Ordered(s: State) {
    Collapse(s.handed) <= s.filled + s.mainLog
  }

  lemma {:induction false} InvariantsOrder(s: State)
    requires GateInv(s) && OrderInv(s) && EmptyInv(s)
    ensures Ordered(s)
  {
    hide Filter, Collapse;
    NothingLost(s, MainSubject, s.mainLog);
    if s.sub.status == Done {
      NothingLost(s, PrefillSubject, s.filled);
    }
    HandedMembers(s, MainSubject);
    HandedMembers(s, PrefillSubject);
    if HandedFrom(s, MainSubject) != [] {
      assert HandedFrom(s, MainSubject)[0] in HandedFrom(s, MainSubject);
      NothingLeft(s.filled, HandedFrom(s, PrefillSubject));
    } else if s.handed == [] {
      NothingSeen();
    } else {
      NothingSeen();
      assert Collapse(s.handed) == Collapse(HandedFrom(s, PrefillSubject));
    }
  }

  /** In every run in which None from the prefill subject means that it is empty, the order is kept. */
  lemma {:induction false} OrderKeptIfHonest(requestPrefill: bool, steps: seq<Step>, cfg: Config)
    requires cfg.ackLands && HonestRun(Init(requestPrefill), steps, cfg)
    ensures Ordered(RunSteps(Init(requestPrefill), steps, cfg))
  {
    hide HonestRun, GateInv, OrderInv, EmptyInv, Ordered;
    EveryRunKeeps(requestPrefill, steps, cfg);
    EveryRunKeepsEmpty(requestPrefill, steps, cfg);
    InvariantsOrder(RunSteps(Init(requestPrefill), steps, cfg));
  }

  /**
    If a fetch answers None only when the subject is empty, then in every run what the consumer
    has seen, redeliveries collapsed, is a prefix of the prefill followed by the live messages.
   */
  lemma PrefillBeforeLive(requestPrefill: bool, steps: seq<Step>, cfg: Config)
    requires cfg.ackLands && cfg.emptyMeansEmpty
    ensures var s := RunSteps(Init(requestPrefill), steps, cfg);
            Collapse(s.handed) <= s.filled + s.mainLog
  {
    OrderKeptIfHonest(requestPrefill, steps, cfg);
  }

  /** A consumer that has emptied both subjects was handed the whole prefill and then every live message. */
  lemma EverythingHanded(requestPrefill: bool, steps: seq<Step>, cfg: Config)
    requires cfg.ackLands && HonestRun(Init(requestPrefill), steps, cfg)
    requires var s := RunSteps(Init(requestPrefill), steps, cfg); s.sub.status == Done && s.sub.stream.entries == []
    ensures var s := RunSteps(Init(requestPrefill), steps, cfg);
            Collapse(s.handed) == s.filled + s.mainLog
  {
    hide HonestRun;
    EveryRunKeeps(requestPrefill, steps, cfg);
    EveryRunKeepsEmpty(requestPrefill, steps, cfg);
    var s := RunSteps(Init(requestPrefill), steps, cfg);
    NothingLeft(s.filled, HandedFrom(s, PrefillSubject));
    NothingLeft(s.mainLog, HandedFrom(s, MainSubject));
  }

  lemma NothingLeft(log: seq<Stored>, handed: seq<Stored>)
    requires Consumed(log, [], handed)
    ensures Collapse(handed) == log
  {
    assert log[..|log|] == log;
  }
}
