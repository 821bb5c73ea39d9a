/** What a lost acknowledgement after status done can do: exactly when a prefill may be read that is not whole. */
module GateWhole {
  import opened Models
  import opened Sequences
  import opened JetStream
  import opened Prefill
  import opened PrefillRetry
  import opened Gate
  import opened GateOrder
  import opened GateLimits

  /** The reported fill is all its attempt set out to publish, and prefill messages come from no other. */
  ghost predicate Whole(s: State) {
    && Messages(s.filled) == s.filledBy
    && forall e :: e in s.handed && e.subject == PrefillSubject ==> e in s.filled
  }

  // ---------- The acknowledgement lands ----------

  lemma StepKeepsReport(s: State, step: Step, cfg: Config)
    requires GateInv(s) && GateInv(Do(s, step, cfg)) && Messages(s.filled) == s.filledBy
    ensures var s' := Do(s, step, cfg); Messages(s'.filled) == s'.filledBy
  {
    hide Messages, OnSubject, WorkerOk;
  }

  lemma {:induction false} ReportIsComplete(requestPrefill: bool, steps: seq<Step>, cfg: Config)
    requires cfg.ackLands
    ensures var s := RunSteps(Init(requestPrefill), steps, cfg); Messages(s.filled) == s.filledBy
  {
    if steps != [] {
      ReportIsComplete(requestPrefill, DropLast(steps), cfg);
      EveryRunKeeps(requestPrefill, DropLast(steps), cfg);
      EveryRunKeeps(requestPrefill, steps, cfg);
      hide GateInv, OrderInv, Do;
      StepKeepsReport(RunSteps(Init(requestPrefill), DropLast(steps), cfg), Last(steps), cfg);
    }
  }

  lemma WholeIfAckLands(requestPrefill: bool, steps: seq<Step>, cfg: Config)
    requires cfg.ackLands
    ensures Whole(RunSteps(Init(requestPrefill), steps, cfg))
  {
    var s := RunSteps(Init(requestPrefill), steps, cfg);
    ReportIsComplete(requestPrefill, steps, cfg);
    EveryRunKeeps(requestPrefill, steps, cfg);
    HandedMembers(s, PrefillSubject);
    if s.handed != [] {
      hide Filter, Collapse;
      forall e | e in s.handed && e.subject == PrefillSubject
        ensures e in s.filled
      {
        HandedIsLogged(s.filled, PrefillEntries(s), HandedFrom(s, PrefillSubject), e);
      }
    }
  }

  // ---------- There is no second fill ----------

  /** The one attempt that may fill is still to come or under way. */
  predicate Filling(w: Worker) {
    w == Waiting(0) || (w.Busy? && w.delivered == 1 && w.todo != [])
  }

  ghost predicate GivingUp(todo: seq<Call>) {
    exists r :: todo == GiveUpCalls(r) || todo == GiveUpCalls(r)[1..]
  }

  /** Nothing is read while the fill lasts; afterwards the prefill subject only gets shorter. */
  ghost predicate SingleFill(s: State) {
    && !s.worker.NoRequest?
    && (s.worker.Busy? ==> s.worker.delivered >= 1)
    && (s.worker.Busy? && s.worker.todo != [] && s.worker.delivered > 1 ==> GivingUp(s.worker.todo))
    && (Filling(s.worker) ==> WorkerOk(s) && !Reading(s) && s.sub.status != Done)
    && (Reading(s) || s.sub.status == Done ==> forall e :: e in PrefillEntries(s) ==> e in s.filled)
    && Whole(s)
  }

  lemma FillingCall(s: State)
    requires SingleFill(s) && Filling(s.worker) && s.worker.Busy?
    ensures SingleFill(DoWorkerCall(s))
  {
    var s' := DoWorkerCall(s);
    assert GateInv(s);
    assert s.handed == [];
    WorkerCallKeepsGate(s);
    hide OnSubject, Messages, WorkerOk, PurgeSubject, Append;
    assert s'.sub.status == Done ==> Messages(s'.filled) == s'.filledBy;
  }

  lemma GivingUpCall(s: State)
    requires SingleFill(s) && s.worker.Busy? && s.worker.todo != [] && GivingUp(s.worker.todo) && !Filling(s.worker)
    ensures SingleFill(DoWorkerCall(s))
  {
    var r :| s.worker.todo == GiveUpCalls(r) || s.worker.todo == GiveUpCalls(r)[1..];
    hide OnSubject, Messages;
    if s.worker.todo == GiveUpCalls(r) {
      assert GivingUp(DoWorkerCall(s).worker.todo);
    }
  }

  lemma SameWorker(s: State, s': State)
    requires s'.worker == s.worker && PrefillEntries(s') == PrefillEntries(s)
    ensures WorkerOk(s') <==> WorkerOk(s)
  {
    hide OnSubject, Messages;
  }

  /** What only reads, or only publishes live messages. */
  lemma ReadingKeepsSingleFill(s: State, s': State)
    requires SingleFill(s) && s'.worker == s.worker && PrefillEntries(s') == PrefillEntries(s)
    requires s'.sub.status == s.sub.status && s'.filled == s.filled && s'.filledBy == s.filledBy
    requires Reading(s') ==> Reading(s) || s.sub.status == Done
    requires forall e :: e in s'.handed && e.subject == PrefillSubject ==> e in s.handed || e in PrefillEntries(s)
    requires s'.handed != s.handed ==> Reading(s)
    ensures SingleFill(s')
  {
    SameWorker(s, s');
    hide WorkerOk, OnSubject, Messages, Reading, GivingUp;
  }

  lemma AckKeepsSingleFill(s: State, i: nat)
    requires SingleFill(s) && i < |s.handed|
    ensures SingleFill(DoConsumerAck(s, i))
  {
    DeleteOnSubject(s.sub.stream, s.handed[i].seqNo, PrefillSubject);
    FilterMembers(Except(s.handed[i].seqNo), PrefillEntries(s));
    hide OnSubject, WorkerOk, Messages, GivingUp, Filter;
    assert Reading(s);
  }

  lemma HandedHead(s: State, poll: nat, none: bool, cfg: Config)
    ensures var s' := DoPollFetch(s, poll, none, cfg);
            && (forall e :: e in s'.handed && e.subject == PrefillSubject ==> e in s.handed || e in PrefillEntries(s))
            && (s'.handed != s.handed ==> Reading(s)) && (Reading(s') ==> Reading(s))
  {
    FilterMembers(Of(PrefillSubject), s.sub.stream.entries);
    FilterMembers(Of(MainSubject), s.sub.stream.entries);
    hide Filter;
  }

  lemma StepKeepsSingleFill(s: State, step: Step, cfg: Config)
    requires LimitReached(cfg.maxAttempts, 2) && SingleFill(s)
    ensures SingleFill(Do(s, step, cfg))
  {
    match step
    case WorkerFetch(topics) => FetchKeepsSingleFill(s, topics, cfg);
    case WorkerCall =>
      hide OnSubject, WorkerOk, Messages, Reading;
      if s.worker.Busy? && s.worker.todo != [] {
        if Filling(s.worker) {
          FillingCall(s);
        } else {
          GivingUpCall(s);
        }
      }
    case Dispatch(m) =>
      AppendOnSubject(s.sub.stream, MainSubject, m, PrefillSubject);
      hide OnSubject, SingleFill;
      ReadingKeepsSingleFill(s, Do(s, step, cfg));
    case ConsumerAck(i) =>
      hide SingleFill;
      if i < |s.handed| {
        AckKeepsSingleFill(s, i);
      }
    case PollFetch(poll, none) =>
      HandedHead(s, poll, none, cfg);
      hide SingleFill, Reading, OnSubject;
      ReadingKeepsSingleFill(s, Do(s, step, cfg));
    case PollBegin(poll, process) =>
      hide SingleFill, OnSubject;
      ReadingKeepsSingleFill(s, Do(s, step, cfg));
    case PollStatus(poll, last) =>
      hide SingleFill, OnSubject;
      ReadingKeepsSingleFill(s, Do(s, step, cfg));
    case ProcessRestart(process) =>
      hide SingleFill, OnSubject;
      ReadingKeepsSingleFill(s, Do(s, step, cfg));
    case WorkerCrash => hide OnSubject, WorkerOk, Messages;
    case WorkerAck => hide OnSubject, WorkerOk, Messages;
  }

  lemma PlannedFetch(s: State, topics: seq<Call>)
    requires s.worker == Busy(1, [Purge] + topics + [SetStatus(Done)], Published(topics)) && IsFilling(topics)
    ensures WorkerOk(s)
  {
    hide OnSubject, Messages, Published;
    var todo := s.worker.todo;
    assert todo[1..] == topics + [SetStatus(Done)] && DropLast(todo[1..]) == topics;
    PublishedConcat(topics, [SetStatus(Done)]);
    PublishedOne(SetStatus(Done));
    assert Published(topics) + [] == Published(topics);
  }

  lemma FetchKeepsSingleFill(s: State, topics: seq<Call>, cfg: Config)
    requires LimitReached(cfg.maxAttempts, 2) && SingleFill(s)
    ensures SingleFill(DoWorkerFetch(s, topics, cfg))
  {
    hide OnSubject, Messages, WorkerOk, GivingUp, Published, IsFilling;
    var s' := DoWorkerFetch(s, topics, cfg);
    if s.worker.Waiting? {
      if LimitReached(cfg.maxAttempts, s.worker.delivered + 1) {
        GivingUpFetch(s', cfg.request);
      } else if IsFilling(topics) {
        PlannedFetch(s', topics);
      }
    }
  }

  lemma GivingUpFetch(s: State, request: PrefillRequest)
    requires s.worker.Busy? && s.worker.todo == GiveUpCalls(request)
    ensures GivingUp(s.worker.todo) && WorkerOk(s)
  {
  }

  lemma {:induction false} WholeIfSingleFill(steps: seq<Step>, cfg: Config)
    requires LimitReached(cfg.maxAttempts, 2)
    ensures SingleFill(RunSteps(Init(true), steps, cfg))
  {
    if steps != [] {
      WholeIfSingleFill(DropLast(steps), cfg);
      hide SingleFill, Do;
      StepKeepsSingleFill(RunSteps(Init(true), DropLast(steps), cfg), Last(steps), cfg);
    }
  }

  // ---------- Exactly when ----------

  /**
    In all runs of a subscription with prefill the reported fill is complete and no other prefill
    message is handed out, exactly if the acknowledgement after status done lands or the limit
    leaves no second attempt that could fill again.
   */
  lemma {:induction false} PrefillIsWholeExactlyWhen(cfg: Config)
    requires cfg.maxAttempts >= -1
    ensures (forall steps :: Whole(RunSteps(Init(true), steps, cfg))) <==>
            cfg.ackLands || LimitReached(cfg.maxAttempts, 2)
  {
    hide RunSteps, Whole;
    if cfg.ackLands {
      forall steps
        ensures Whole(RunSteps(Init(true), steps, cfg))
      {
        WholeIfAckLands(true, steps, cfg);
      }
    } else if LimitReached(cfg.maxAttempts, 2) {
      forall steps
        ensures Whole(RunSteps(Init(true), steps, cfg))
      {
        WholeIfSingleFill(steps, cfg);
        SingleFillIsWhole(RunSteps(Init(true), steps, cfg));
      }
    } else {
      var m := Message("", "", Body(None, None));
      LostAckShowsPartialPrefill(m, m, cfg);
      NotWhole(RunSteps(Init(true), RefillingRun(m, m), cfg));
    }
  }

  lemma SingleFillIsWhole(s: State)
    requires SingleFill(s)
    ensures Whole(s)
  {
  }

  lemma NotWhole(s: State)
    requires s.handed != [] && s.handed[0].subject == PrefillSubject && s.handed[0] !in s.filled
    ensures !Whole(s)
  {
  }
}
