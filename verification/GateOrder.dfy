/** What every run of the system keeps: no partial prefill is seen, and no subject is read out of order. */
module GateOrder {
  import opened Models
  import opened Sequences
  import opened JetStream
  import opened Prefill
  import opened PrefillRetry
  import opened Gate

  // ---------- The gate ----------

  lemma PurgeStartsNoFill(todo: seq<Call>)
    requires todo != [] && todo[0] == Purge
    ensures !FillsThenDone(todo)
  {
    assert |todo| > 1 ==> todo[0] in DropLast(todo);
  }

  lemma WorkerCallKeepsGate(s: State)
    requires GateInv(s) && s.worker.Busy? && s.worker.todo != []
    ensures GateInv(DoWorkerCall(s))
  {
    var todo, s' := s.worker.todo, DoWorkerCall(s);
    if r :| todo == GiveUpCalls(r) || todo == GiveUpCalls(r)[1..] {
      if todo == GiveUpCalls(r) {
        assert s'.worker.todo == GiveUpCalls(r)[1..];
      }
    } else if todo[0] == Purge {
      PurgeStartsNoFill(todo);
      PurgeOnSubject(s.sub.stream, PrefillSubject, PrefillSubject);
    } else if |todo| > 1 {
      FillCallKeepsPlan(s);
    } else {
      ReportCompletesPlan(s);
    }
  }

  lemma FillsThenDoneTail(todo: seq<Call>)
    requires FillsThenDone(todo) && |todo| > 1
    ensures FillsThenDone(todo[1..]) && IsFilling([todo[0]])
  {
    assert todo[0] == DropLast(todo)[0];
    assert DropLast(todo[1..]) == DropLast(todo)[1..];
  }

  /** A call of a fill moves its message, if it has one, from the plan to the prefill subject. */
  lemma FillCallKeepsPlan(s: State)
    requires OnPlan(s) && |s.worker.todo| > 1
    ensures OnPlan(DoWorkerCall(s)) && DoWorkerCall(s).sub.status in {s.sub.status, Running}
  {
    hide OnSubject, Published, Messages, Live;
    var todo := s.worker.todo;
    var c, rest := todo[0], todo[1..];
    DoneComesLast(todo);
    FillsThenDoneTail(todo);
    PerformFills(World(Some(s.sub), [], []), c);
    PublishedConcat([c], rest);
    assert todo == [c] + rest && c in [c];
  }

  /** The last call reports done when nothing is left of the plan. */
  lemma ReportCompletesPlan(s: State)
    requires OnPlan(s) && |s.worker.todo| == 1
    ensures var s' := DoWorkerCall(s);
            s'.worker.todo == [] && s'.sub.status == Done && Messages(s'.filled) == s'.filledBy
  {
    hide OnSubject, Messages;
    assert Published(s.worker.todo[1..]) == [];
  }

  lemma DoneComesLast(todo: seq<Call>)
    requires FillsThenDone(todo)
    ensures todo[0].SetStatus? && todo[0].status != Running ==> todo == [SetStatus(Done)]
  {
    assert |todo| > 1 ==> todo[0] in DropLast(todo);
  }

  lemma StepKeepsGate(s: State, step: Step, cfg: Config)
    requires cfg.ackLands && GateInv(s)
    ensures GateInv(Do(s, step, cfg))
  {
    match step
    case WorkerFetch(topics) =>
      if s.worker.Waiting? && !LimitReached(cfg.maxAttempts, s.worker.delivered + 1) && IsFilling(topics) {
        var todo := [Purge] + topics + [SetStatus(Done)];
        assert todo[1..] == topics + [SetStatus(Done)] && DropLast(todo[1..]) == topics;
        PublishedConcat(topics, [SetStatus(Done)]);
        assert [SetStatus(Done)][1..] == [];
      }
    case WorkerCall =>
      if s.worker.Busy? && s.worker.todo != [] {
        WorkerCallKeepsGate(s);
      }
    case Dispatch(m) => AppendOnSubject(s.sub.stream, MainSubject, m, PrefillSubject);
    case ConsumerAck(i) =>
      if s.worker.Busy? && s.worker.todo != [] {
        assert s.handed == [];
      }
    case PollBegin(poll, process) =>
    case PollStatus(poll, last) =>
    case PollFetch(poll, none) =>
    case ProcessRestart(process) =>
    case WorkerCrash =>
    case WorkerAck =>
  }

  // ---------- One subject ----------

  lemma HandingKeepsConsumed(log: seq<Stored>, rest: seq<Stored>, handed: seq<Stored>)
    requires Increasing(log) && Consumed(log, rest, handed) && rest != []
    ensures Consumed(log, rest, handed + [rest[0]])
  {
    var gone := |log| - |rest|;
    CollapseSnoc(handed, rest[0]);
    assert rest[0] == log[gone];
    assert log[..gone + 1] == log[..gone] + [log[gone]];
    if handed != [] && Collapse(handed) == log[..gone] {
      assert Last(handed) == log[gone - 1];
    }
  }

  lemma AppendKeepsConsumed(log: seq<Stored>, rest: seq<Stored>, handed: seq<Stored>, x: Stored)
    requires Consumed(log, rest, handed)
    ensures Consumed(log + [x], rest + [x], handed)
  {
    var gone := |log| - |rest|;
    assert (log + [x])[gone..] == log[gone..] + [x];
    assert (log + [x])[..gone] == log[..gone];
    if rest != [] {
      assert (log + [x])[..gone + 1] == log[..gone + 1];
    }
  }

  lemma DeletingHead(log: seq<Stored>, rest: seq<Stored>, handed: seq<Stored>)
    requires Increasing(log) && Consumed(log, rest, handed) && rest != [] && rest[0] in handed
    ensures Consumed(log, Filter(Except(rest[0].seqNo), rest), handed)
  {
    hide Filter, Collapse;
    var gone, x := |log| - |rest|, rest[0];
    DeletingFirst(rest);
    assert log[gone] == x && log[gone + 1..] == rest[1..];
    CollapseMembers(handed);
    assert x !in log[..gone];
  }

  lemma DeletingFirst(rest: seq<Stored>)
    requires Increasing(rest) && rest != []
    ensures Filter(Except(rest[0].seqNo), rest) == rest[1..]
  {
    hide Filter;
    var x, keep := rest[0], Except(rest[0].seqNo);
    assert rest == [x] + rest[1..];
    FilterConcat(keep, [x], rest[1..]);
    FilterNone(keep, [x]);
    FilterAll(keep, rest[1..]);
    assert [] + rest[1..] == rest[1..];
  }

  lemma DeletingGone(log: seq<Stored>, rest: seq<Stored>, handed: seq<Stored>, x: Stored)
    requires Increasing(log) && Consumed(log, rest, handed) && x in handed && (rest == [] || x != rest[0])
    ensures Filter(Except(x.seqNo), rest) == rest
  {
    hide Filter, Collapse;
    CollapseMembers(handed);
    var gone := |log| - |rest|;
    var i :| 0 <= i < |Collapse(handed)| && Collapse(handed)[i] == x;
    assert x == log[i] && i <= gone;
    assert rest != [] ==> log[gone] == rest[0];
    assert forall j :: 0 <= j < |rest| ==> rest[j] == log[gone + j];
    FilterAll(Except(x.seqNo), rest);
  }

  /** Deleting a message that was handed out removes the head of what is left, or nothing. */
  lemma DeletingKeepsConsumed(log: seq<Stored>, rest: seq<Stored>, handed: seq<Stored>, x: Stored)
    requires Increasing(log) && Consumed(log, rest, handed) && x in handed
    ensures Consumed(log, Filter(Except(x.seqNo), rest), handed)
  {
    hide Filter, Collapse;
    if rest != [] && x == rest[0] {
      DeletingHead(log, rest, handed);
    } else {
      DeletingGone(log, rest, handed, x);
    }
  }

  // ---------- Both subjects ----------

  /** The logs of a state: what was published, what is left, and what was handed out, by subject. */
  datatype Logs = Logs(
    mainLog: seq<Stored>, main: seq<Stored>, handedMain: seq<Stored>,
    filled: seq<Stored>, prefill: seq<Stored>, handedPrefill: seq<Stored>,
    lastSeq: nat)

  function LogsOf(s: State): Logs {
    Logs(s.mainLog, MainEntries(s), HandedFrom(s, MainSubject),
         s.filled, PrefillEntries(s), HandedFrom(s, PrefillSubject), s.sub.stream.lastSeq)
  }

  ghost predicate UpTo(log: seq<Stored>, subject: Subject, lastSeq: nat) {
    && Increasing(log)
    && forall e :: e in log ==> e.subject == subject && e.seqNo <= lastSeq
  }

  ghost predicate Apart(a: seq<Stored>, b: seq<Stored>) {
    forall x, y :: x in a && y in b ==> x.seqNo != y.seqNo
  }

  ghost predicate LogsOk(l: Logs, done: bool) {
    && UpTo(l.mainLog, MainSubject, l.lastSeq)
    && UpTo(l.filled, PrefillSubject, l.lastSeq)
    && UpTo(l.prefill, PrefillSubject, l.lastSeq)
    && Apart(l.mainLog, l.filled) && Apart(l.mainLog, l.prefill)
    && Consumed(l.mainLog, l.main, l.handedMain)
    && (done ==> Consumed(l.filled, l.prefill, l.handedPrefill))
  }

  ghost predicate OrderInv(s: State) {
    LogsOk(LogsOf(s), s.sub.status == Done)
  }

  lemma HandedMembers(s: State, subject: Subject)
    ensures forall e :: e in HandedFrom(s, subject) <==> e in s.handed && e.subject == subject
  {
    FilterMembers(Of(subject), s.handed);
  }

  lemma UpToSnoc(log: seq<Stored>, subject: Subject, lastSeq: nat, m: Message)
    requires UpTo(log, subject, lastSeq)
    ensures UpTo(log + [Stored(lastSeq + 1, subject, m)], subject, lastSeq + 1)
    ensures UpTo(log, subject, lastSeq + 1)
  {
  }

  lemma ApartSnoc(a: seq<Stored>, b: seq<Stored>, subject: Subject, other: Subject, lastSeq: nat, m: Message)
    requires UpTo(a, subject, lastSeq) && UpTo(b, other, lastSeq) && Apart(a, b)
    ensures Apart(a + [Stored(lastSeq + 1, subject, m)], b) && Apart(a, b + [Stored(lastSeq + 1, other, m)])
  {
  }

  /** What was handed out of a subject is in its log. */
  lemma HandedIsLogged(log: seq<Stored>, rest: seq<Stored>, handed: seq<Stored>, x: Stored)
    requires Consumed(log, rest, handed) && x in handed
    ensures x in log
  {
    CollapseMembers(handed);
  }

  lemma {:induction false} FilterIncreasing(keep: Stored -> bool, log: seq<Stored>)
    requires Increasing(log)
    ensures Increasing(Filter(keep, log))
  {
    if log != [] {
      FilterIncreasing(keep, DropLast(log));
      FilterMembers(keep, DropLast(log));
      assert forall e :: e in DropLast(log) ==> e.seqNo < Last(log).seqNo;
    }
  }

  lemma FilterUpTo(keep: Stored -> bool, log: seq<Stored>, subject: Subject, lastSeq: nat)
    requires UpTo(log, subject, lastSeq)
    ensures UpTo(Filter(keep, log), subject, lastSeq)
    ensures forall e :: e in Filter(keep, log) ==> e in log
  {
    FilterIncreasing(keep, log);
    FilterMembers(keep, log);
  }

  /** The logs after an entry of one of them that was handed out has been deleted. */
  lemma AckKeepsLogs(l: Logs, x: Stored)
    requires LogsOk(l, true)
    requires (x.subject == MainSubject && x in l.handedMain) || (x.subject == PrefillSubject && x in l.handedPrefill)
    ensures var keep := Except(x.seqNo);
            LogsOk(l.(main := Filter(keep, l.main), prefill := Filter(keep, l.prefill)), true)
  {
    hide Filter, Collapse;
    var keep := Except(x.seqNo);
    FilterUpTo(keep, l.prefill, PrefillSubject, l.lastSeq);
    if x.subject == MainSubject {
      HandedIsLogged(l.mainLog, l.main, l.handedMain, x);
      DeletingKeepsConsumed(l.mainLog, l.main, l.handedMain, x);
      FilterAll(keep, l.prefill);
    } else {
      HandedIsLogged(l.filled, l.prefill, l.handedPrefill, x);
      DeletingKeepsConsumed(l.filled, l.prefill, l.handedPrefill, x);
      RestIsLogged(l.mainLog, l.main, l.handedMain);
      FilterAll(keep, l.main);
    }
  }

  lemma RestIsLogged(log: seq<Stored>, rest: seq<Stored>, handed: seq<Stored>)
    requires Consumed(log, rest, handed)
    ensures forall e :: e in rest ==> e in log
  {
  }

  lemma AckKeepsOrder(s: State, i: nat)
    requires GateInv(s) && OrderInv(s) && i < |s.handed|
    ensures OrderInv(DoConsumerAck(s, i))
  {
    hide LogsOk, Filter, Collapse;
    var x := s.handed[i];
    HandedMembers(s, MainSubject);
    HandedMembers(s, PrefillSubject);
    DeleteOnSubject(s.sub.stream, x.seqNo, MainSubject);
    DeleteOnSubject(s.sub.stream, x.seqNo, PrefillSubject);
    AckKeepsLogs(LogsOf(s), x);
  }

  lemma {:induction false} DispatchKeepsOrder(s: State, m: Message)
    requires OrderInv(s)
    ensures OrderInv(DoDispatch(s, m))
  {
    var l := LogsOf(s);
    AppendOnSubject(s.sub.stream, MainSubject, m, MainSubject);
    AppendOnSubject(s.sub.stream, MainSubject, m, PrefillSubject);
    hide Increasing, Consumed, Apart, UpTo, OnSubject, Filter;
    UpToSnoc(l.mainLog, MainSubject, l.lastSeq, m);
    UpToSnoc(l.filled, PrefillSubject, l.lastSeq, m);
    UpToSnoc(l.prefill, PrefillSubject, l.lastSeq, m);
    ApartSnoc(l.mainLog, l.filled, MainSubject, PrefillSubject, l.lastSeq, m);
    ApartSnoc(l.mainLog, l.prefill, MainSubject, PrefillSubject, l.lastSeq, m);
    AppendKeepsConsumed(l.mainLog, l.main, l.handedMain, Stored(l.lastSeq + 1, MainSubject, m));
  }

  lemma {:induction false} FetchKeepsOrder(s: State, poll: nat, none: bool, cfg: Config)
    requires GateInv(s) && OrderInv(s)
    ensures OrderInv(DoPollFetch(s, poll, none, cfg))
  {
    var s' := DoPollFetch(s, poll, none, cfg);
    if s'.handed != s.handed {
      var subject := s.polls[poll].stage.subject;
      var rest := OnSubject(s.sub.stream, subject);
      FilterMembers(Of(subject), s.sub.stream.entries);
      FilterSnoc(Of(MainSubject), s.handed, rest[0]);
      FilterSnoc(Of(PrefillSubject), s.handed, rest[0]);
      HandingKeepsConsumed(if subject == MainSubject then s.mainLog else s.filled, rest, HandedFrom(s, subject));
    }
  }

  lemma PublishKeepsLogs(l: Logs, m: Message)
    requires LogsOk(l, false)
    ensures var x := Stored(l.lastSeq + 1, PrefillSubject, m);
            LogsOk(l.(prefill := l.prefill + [x], lastSeq := l.lastSeq + 1), false)
  {
    hide Increasing, Consumed, Apart, UpTo;
    UpToSnoc(l.mainLog, MainSubject, l.lastSeq, m);
    UpToSnoc(l.filled, PrefillSubject, l.lastSeq, m);
    UpToSnoc(l.prefill, PrefillSubject, l.lastSeq, m);
    ApartSnoc(l.mainLog, l.prefill, MainSubject, PrefillSubject, l.lastSeq, m);
  }

  lemma ReportDoneKeepsLogs(l: Logs)
    requires LogsOk(l, false) && l.handedPrefill == []
    ensures LogsOk(l.(filled := l.prefill), true)
  {
    NothingConsumed(l.prefill);
  }

  /** Before status done nothing is handed out, so the prefill subject may change freely. */
  lemma {:induction false} WorkerCallKeepsOrder(s: State)
    requires GateInv(s) && OrderInv(s) && s.worker.Busy? && s.worker.todo != []
    ensures OrderInv(DoWorkerCall(s))
  {
    assert s.sub.status != Done && s.handed == [];
    hide GateInv, WorkerOk, OrderInv, DoWorkerCall;
    match s.worker.todo[0]
    case Purge => PurgeKeepsOrder(s);
    case Publish(m) => PublishKeepsOrder(s, m);
    case SetStatus(status) => ReportKeepsOrder(s, status);
    case _ => ReadKeepsOrder(s);
  }

  lemma ReportKeepsOrder(s: State, status: FillQueueStatus)
    requires OrderInv(s) && s.worker.Busy? && s.worker.todo != [] && s.worker.todo[0] == SetStatus(status)
    requires s.sub.status != Done && s.handed == []
    ensures OrderInv(DoWorkerCall(s))
  {
    hide OnSubject, LogsOk;
    HandedMembers(s, PrefillSubject);
    if status == Done {
      ReportDoneKeepsLogs(LogsOf(s));
    }
  }

  lemma ReadKeepsOrder(s: State)
    requires OrderInv(s) && s.worker.Busy? && s.worker.todo != [] && s.sub.status != Done
    requires var c := s.worker.todo[0]; !c.Purge? && !c.Publish? && !c.SetStatus?
    ensures OrderInv(DoWorkerCall(s))
  {
    hide OnSubject, LogsOk, Filter;
  }

  lemma PublishKeepsOrder(s: State, m: Message)
    requires OrderInv(s) && s.worker.Busy? && s.worker.todo != [] && s.worker.todo[0] == Publish(m)
    requires s.sub.status != Done
    ensures OrderInv(DoWorkerCall(s))
  {
    hide LogsOk, OnSubject, Filter;
    AppendOnSubject(s.sub.stream, PrefillSubject, m, MainSubject);
    AppendOnSubject(s.sub.stream, PrefillSubject, m, PrefillSubject);
    PublishKeepsLogs(LogsOf(s), m);
  }

  lemma PurgeKeepsOrder(s: State)
    requires OrderInv(s) && s.worker.Busy? && s.worker.todo != [] && s.worker.todo[0] == Purge && s.sub.status != Done
    ensures OrderInv(DoWorkerCall(s))
  {
    PurgeOnSubject(s.sub.stream, PrefillSubject, PrefillSubject);
    PurgeOnSubject(s.sub.stream, PrefillSubject, MainSubject);
    hide OnSubject, Filter, Consumed;
    assert LogsOf(DoWorkerCall(s)) == LogsOf(s).(prefill := []);
  }

  lemma NothingConsumed(log: seq<Stored>)
    ensures Consumed(log, log, [])
  {
  }

  lemma {:induction false} StepKeepsOrder(s: State, step: Step, cfg: Config)
    requires cfg.ackLands && GateInv(s) && OrderInv(s)
    ensures OrderInv(Do(s, step, cfg))
  {
    hide LogsOk, OnSubject, Filter;
    match step
    case WorkerCall =>
      if s.worker.Busy? && s.worker.todo != [] {
        WorkerCallKeepsOrder(s);
      }
    case Dispatch(m) => DispatchKeepsOrder(s, m);
    case PollFetch(poll, none) => FetchKeepsOrder(s, poll, none, cfg);
    case ConsumerAck(i) =>
      if i < |s.handed| {
        AckKeepsOrder(s, i);
      }
    case WorkerFetch(topics) =>
    case WorkerCrash =>
    case WorkerAck =>
    case PollBegin(poll, process) =>
    case PollStatus(poll, last) =>
    case ProcessRestart(process) =>
  }

  lemma {:induction false} EveryRunKeeps(requestPrefill: bool, steps: seq<Step>, cfg: Config)
    requires cfg.ackLands
    ensures var s := RunSteps(Init(requestPrefill), steps, cfg);
            GateInv(s) && OrderInv(s)
  {
    if steps == [] {
    } else {
      EveryRunKeeps(requestPrefill, DropLast(steps), cfg);
      var s := RunSteps(Init(requestPrefill), DropLast(steps), cfg);
      StepKeepsGate(s, Last(steps), cfg);
      StepKeepsOrder(s, Last(steps), cfg);
    }
  }
}
