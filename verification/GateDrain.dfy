/** A consumer that keeps asking and acknowledging gets everything: exactly when the gate can still be emptied. */
module GateDrain {
  import opened Models
  import opened Sequences
  import opened JetStream
  import opened Stages
  import opened Prefill
  import opened PrefillRetry
  import opened Gate
  import opened GateOrder
  import opened GateRuns
  import opened GateLimits
  import opened GateNone
  import opened GateStatus
  import opened GateReuse

  // ---------- Reading a subject to its end ----------

  function SubjectOf(s: State, process: nat): Subject {
    if process in s.flags then MainSubject else PrefillSubject
  }

  /** One call of a process, and the acknowledgement of what it has handed out. */
  function ReadSteps(poll: nat, process: nat, n: nat): seq<Step> {
    [PollBegin(poll, process), PollStatus(poll, false), PollFetch(poll, false)] + [ConsumerAck(n)]
  }

  function Served(s: State, x: Stored): State {
    s.(sub := s.sub.(stream := DeleteMessage(s.sub.stream, x.seqNo)), handed := s.handed + [x])
  }

  lemma AfterRead(s: State, poll: nat, process: nat, cfg: Config)
    requires poll !in s.polls && s.sub.status == Done
    requires OnSubject(s.sub.stream, SubjectOf(s, process)) != []
    ensures RunSteps(s, ReadSteps(poll, process, |s.handed|), cfg) ==
            Served(s, OnSubject(s.sub.stream, SubjectOf(s, process))[0])
  {
    hide RunSteps, OnSubject, DeleteMessage;
    var x := OnSubject(s.sub.stream, SubjectOf(s, process))[0];
    var call := [PollBegin(poll, process), PollStatus(poll, false), PollFetch(poll, false)];
    RunConcatenation(s, call, [ConsumerAck(|s.handed|)], cfg);
    ThreeSteps(s, PollBegin(poll, process), PollStatus(poll, false), PollFetch(poll, false), cfg);
    assert s.polls[poll := Poll(process, Fetching(SubjectOf(s, process)))] - {poll} == s.polls;
    var handed := s.handed + [x];
    assert RunSteps(s, call, cfg) == s.(handed := handed);
    OneStep(s.(handed := handed), ConsumerAck(|s.handed|), cfg);
    assert handed[|s.handed|] == x;
  }

  /** A read of the empty prefill subject sets the flag. */
  lemma AfterLastRead(s: State, poll: nat, process: nat, cfg: Config)
    requires poll !in s.polls && s.sub.status == Done && process !in s.flags && PrefillEntries(s) == []
    ensures RunSteps(s, [PollBegin(poll, process), PollStatus(poll, false), PollFetch(poll, false)], cfg) ==
            s.(flags := s.flags + {process})
  {
    hide RunSteps, OnSubject;
    ThreeSteps(s, PollBegin(poll, process), PollStatus(poll, false), PollFetch(poll, false), cfg);
    assert s.polls[poll := Poll(process, Fetching(PrefillSubject))] - {poll} == s.polls;
  }

  lemma {:induction false} FilterShortens<T>(keep: T -> bool, s: seq<T>)
    ensures |Filter(keep, s)| <= |s|
    ensures (exists x :: x in s && !keep(x)) ==> |Filter(keep, s)| < |s|
  {
    if s != [] {
      FilterShortens(keep, DropLast(s));
      assert s == DropLast(s) + [Last(s)];
    }
  }

  /** The acknowledged entry is gone, and nothing comes to the other subject. */
  lemma ServedShortens(s: State, subject: Subject, other: Subject)
    requires OnSubject(s.sub.stream, subject) != []
    ensures var t := Served(s, OnSubject(s.sub.stream, subject)[0]);
            && |OnSubject(t.sub.stream, subject)| < |OnSubject(s.sub.stream, subject)|
            && (OnSubject(s.sub.stream, other) == [] ==> OnSubject(t.sub.stream, other) == [])
  {
    var waiting := OnSubject(s.sub.stream, subject);
    DeleteOnSubject(s.sub.stream, waiting[0].seqNo, subject);
    DeleteOnSubject(s.sub.stream, waiting[0].seqNo, other);
    FilterShortens(Except(waiting[0].seqNo), waiting);
    FilterNone(Except(waiting[0].seqNo), []);
    assert waiting[0] in waiting;
  }

  /** What reading leaves as it was. */
  predicate OnlyRead(s: State, t: State) {
    && t.sub.status == s.sub.status && t.worker == s.worker && t.polls == s.polls
    && t.filled == s.filled && t.filledBy == s.filledBy && t.mainLog == s.mainLog
    && s.handed <= t.handed
  }

  lemma {:induction false} ReadAll(s: State, process: nat, cfg: Config) returns (more: seq<Step>)
    requires s.sub.status == Done
    ensures NoNones(more)
    ensures var t := RunSteps(s, more, cfg);
            && OnlyRead(s, t) && t.flags == s.flags
            && OnSubject(t.sub.stream, SubjectOf(s, process)) == []
            && forall other :: OnSubject(s.sub.stream, other) == [] ==> OnSubject(t.sub.stream, other) == []
    decreases |OnSubject(s.sub.stream, SubjectOf(s, process))|
  {
    more := [];
    var waiting := OnSubject(s.sub.stream, SubjectOf(s, process));
    if waiting != [] {
      hide RunSteps, OnSubject, DeleteMessage, ReadSteps;
      var poll := Above(s.polls.Keys);
      var read := ReadSteps(poll, process, |s.handed|);
      AfterRead(s, poll, process, cfg);
      ReadHasNoNones(poll, process, |s.handed|);
      ServedShortens(s, SubjectOf(s, process), MainSubject);
      ServedShortens(s, SubjectOf(s, process), PrefillSubject);
      var rest := ReadAll(Served(s, waiting[0]), process, cfg);
      RunConcatenation(s, read, rest, cfg);
      more := read + rest;
    }
  }

  lemma ReadHasNoNones(poll: nat, process: nat, n: nat)
    ensures NoNones(ReadSteps(poll, process, n))
  {
  }

  lemma EntryOnSubject(s: Stream)
    requires s.entries != []
    ensures OnSubject(s, MainSubject) != [] || OnSubject(s, PrefillSubject) != []
  {
    FilterMembers(Of(MainSubject), s.entries);
    FilterMembers(Of(PrefillSubject), s.entries);
    assert s.entries[0] in s.entries;
  }

  lemma NothingOnEither(s: Stream)
    requires OnSubject(s, MainSubject) == [] && OnSubject(s, PrefillSubject) == []
    ensures s.entries == []
  {
    hide OnSubject;
    if s.entries != [] {
      EntryOnSubject(s);
    }
  }

  /** With status done, one process can read the prefill to its end and then all live messages. */
  lemma {:induction false} ReadEverything(s: State, cfg: Config) returns (more: seq<Step>)
    requires s.sub.status == Done
    ensures NoNones(more)
    ensures var t := RunSteps(s, more, cfg); OnlyRead(s, t) && t.sub.stream.entries == []
  {
    hide RunSteps, OnSubject;
    var process := Above(s.flags);
    var prefill := ReadAll(s, process, cfg);
    var s1 := RunSteps(s, prefill, cfg);
    var poll := Above(s1.polls.Keys);
    var open := [PollBegin(poll, process), PollStatus(poll, false), PollFetch(poll, false)];
    AfterLastRead(s1, poll, process, cfg);
    var s2 := s1.(flags := s1.flags + {process});
    var live := ReadAll(s2, process, cfg);
    NothingOnEither(RunSteps(s2, live, cfg).sub.stream);
    RunConcatenation(s, prefill, open, cfg);
    RunConcatenation(s, prefill + open, live, cfg);
    more := prefill + open + live;
  }

  // ---------- Getting to status done ----------

  /** An attempt within the limit that has made its last call has reported done. */
  predicate Reports(s: State, cfg: Config) {
    s.worker.Busy? && s.worker.todo == [] && !LimitReached(cfg.maxAttempts, s.worker.delivered) ==>
      s.sub.status == Done
  }

  lemma LastCallReports(s: State, cfg: Config)
    requires GateInv(s) && FailedInv(s, cfg) && Reports(s, cfg)
    ensures Reports(DoWorkerCall(s), cfg)
  {
    hide OnSubject, Published, IsFilling;
    if s.worker.Busy? && |s.worker.todo| == 1 && !LimitReached(cfg.maxAttempts, s.worker.delivered) {
      assert s.worker.todo[0] in s.worker.todo;
      assert forall r :: SetStatus(Failed) in GiveUpCalls(r) && GiveUpCalls(r)[1..] == [SetStatus(Failed)];
      assert s.worker.todo == [SetStatus(Done)];
    }
  }

  lemma StepKeepsReports(s: State, step: Step, cfg: Config)
    requires GateInv(s) && FailedInv(s, cfg) && Reports(s, cfg)
    ensures Reports(Do(s, step, cfg), cfg)
  {
    LastCallReports(s, cfg);
    hide DoWorkerCall, GateInv, FailedInv, OnSubject, Append, DeleteMessage;
  }

  lemma {:induction false} EveryRunReports(requestPrefill: bool, steps: seq<Step>, cfg: Config)
    requires cfg.ackLands
    ensures var s := RunSteps(Init(requestPrefill), steps, cfg);
            GateInv(s) && FailedInv(s, cfg) && Reports(s, cfg)
  {
    EveryRunKeeps(requestPrefill, steps, cfg);
    EveryRunKeepsFailed(requestPrefill, steps, cfg);
    if steps != [] {
      EveryRunReports(requestPrefill, DropLast(steps), cfg);
      hide GateInv, FailedInv, Reports, Do;
      StepKeepsReports(RunSteps(Init(requestPrefill), DropLast(steps), cfg), Last(steps), cfg);
    }
  }

  lemma {:induction false} FinishAttempt(s: State, cfg: Config) returns (more: seq<Step>)
    requires cfg.ackLands && GateInv(s) && FailedInv(s, cfg) && Reports(s, cfg)
    requires s.worker.Busy? && !LimitReached(cfg.maxAttempts, s.worker.delivered)
    ensures NoNones(more)
    ensures var t := RunSteps(s, more, cfg); t.sub.status == Done && t.mainLog == s.mainLog && t.handed == s.handed
    decreases |s.worker.todo|
  {
    more := [];
    if s.worker.todo != [] {
      var s' := DoWorkerCall(s);
      assert Do(s, WorkerCall, cfg) == s';
      StepKeepsGate(s, WorkerCall, cfg);
      StepKeepsFailed(s, WorkerCall, cfg);
      StepKeepsReports(s, WorkerCall, cfg);
      hide GateInv, FailedInv, Reports, RunSteps, OnSubject, PerformOn;
      var rest := FinishAttempt(s', cfg);
      OneStep(s, WorkerCall, cfg);
      RunConcatenation(s, [WorkerCall], rest, cfg);
      more := [WorkerCall] + rest;
    }
  }

  /** Done is reported, or an attempt within the limit is under way or allowed. */
  predicate CanBeDone(s: State, cfg: Config) {
    || s.sub.status == Done
    || (s.worker.Waiting? && !LimitReached(cfg.maxAttempts, s.worker.delivered + 1))
    || (s.worker.Busy? && !LimitReached(cfg.maxAttempts, s.worker.delivered))
  }

  lemma {:induction false} GetDone(s: State, cfg: Config) returns (more: seq<Step>)
    requires cfg.ackLands && GateInv(s) && FailedInv(s, cfg) && Reports(s, cfg) && CanBeDone(s, cfg)
    ensures NoNones(more)
    ensures var t := RunSteps(s, more, cfg); t.sub.status == Done && t.mainLog == s.mainLog && t.handed == s.handed
  {
    more := [];
    if s.sub.status != Done {
      if s.worker.Busy? {
        more := FinishAttempt(s, cfg);
      } else {
        var fetch := WorkerFetch([]);
        var s' := Do(s, fetch, cfg);
        StepKeepsGate(s, fetch, cfg);
        StepKeepsFailed(s, fetch, cfg);
        StepKeepsReports(s, fetch, cfg);
        assert IsFilling([]);
        hide GateInv, FailedInv, Reports, RunSteps;
        var rest := FinishAttempt(s', cfg);
        OneStep(s, fetch, cfg);
        RunConcatenation(s, [fetch], rest, cfg);
        more := [fetch] + rest;
      }
    }
  }

  /** Nothing can report done any more. */
  ghost predicate NeverDone(s: State, cfg: Config) {
    && s.sub.status != Done && !CanBeDone(s, cfg)
    && (s.worker.Busy? ==> OnlyFails(s.worker.todo))
  }

  lemma StepKeepsNeverDone(s: State, step: Step, cfg: Config)
    requires NeverDone(s, cfg)
    ensures NeverDone(Do(s, step, cfg), cfg)
  {
    hide OnSubject, PurgeSubject, DeleteMessage;
    if step.WorkerCall? && s.worker.Busy? && s.worker.todo != [] {
      assert s.worker.todo[0] in s.worker.todo && forall c :: c in s.worker.todo[1..] ==> c in s.worker.todo;
    }
  }

  lemma {:induction false} NeverDoneForEver(s: State, steps: seq<Step>, cfg: Config)
    requires NeverDone(s, cfg)
    ensures NeverDone(RunSteps(s, steps, cfg), cfg)
  {
    if steps != [] {
      NeverDoneForEver(s, DropLast(steps), cfg);
      hide NeverDone, Do;
      StepKeepsNeverDone(RunSteps(s, DropLast(steps), cfg), Last(steps), cfg);
    }
  }

  // ---------- Exactly when ----------

  /** Nothing is left to hand out, and the consumer has seen the whole prefill and then every live message. */
  predicate AllHanded(s: State) {
    s.sub.status == Done && s.sub.stream.entries == [] && Collapse(s.handed) == s.filled + s.mainLog
  }

  /** With status done, reading alone gets the consumer everything that was filled and dispatched. */
  lemma {:induction false} DoneMeansEverythingCanBeRead(requestPrefill: bool, steps: seq<Step>, cfg: Config)
    returns (more: seq<Step>)
    requires cfg.ackLands && HonestRun(Init(requestPrefill), steps, cfg)
    requires RunSteps(Init(requestPrefill), steps, cfg).sub.status == Done
    ensures HonestRun(Init(requestPrefill), steps + more, cfg)
    ensures var s, t := RunSteps(Init(requestPrefill), steps, cfg), RunSteps(Init(requestPrefill), steps + more, cfg);
            AllHanded(t) && OnlyRead(s, t)
  {
    hide RunSteps, HonestRun, OnSubject;
    var init, s := Init(requestPrefill), RunSteps(Init(requestPrefill), steps, cfg);
    more := ReadEverything(s, cfg);
    NoNonesAreHonest(s, more, cfg);
    HonestConcatenation(init, steps, more, cfg);
    RunConcatenation(init, steps, more, cfg);
    EverythingHanded(requestPrefill, steps + more, cfg);
  }

  lemma NoNonesAreHonest(s: State, steps: seq<Step>, cfg: Config)
    requires NoNones(steps)
    ensures HonestRun(s, steps, cfg)
  {
    hide HonestRun;
    WithoutNones(s, steps, cfg);
  }

  ghost predicate CanGetEverything(requestPrefill: bool, steps: seq<Step>, cfg: Config) {
    exists more :: HonestRun(Init(requestPrefill), steps + more, cfg)
                   && AllHanded(RunSteps(Init(requestPrefill), steps + more, cfg))
  }

  /**
    In any reachable state the consumer can still get the whole prefill and all live messages exactly
    if done is reported, or an attempt at the prefill within the limit is under way or allowed.
   */
  lemma {:induction false} EverythingCanBeHandedExactlyWhen(requestPrefill: bool, steps: seq<Step>, cfg: Config)
    requires cfg.ackLands && HonestRun(Init(requestPrefill), steps, cfg)
    ensures CanGetEverything(requestPrefill, steps, cfg) <==>
            CanBeDone(RunSteps(Init(requestPrefill), steps, cfg), cfg)
  {
    hide RunSteps, HonestRun, GateInv, Reports;
    var init, s := Init(requestPrefill), RunSteps(Init(requestPrefill), steps, cfg);
    EveryRunReports(requestPrefill, steps, cfg);
    if CanBeDone(s, cfg) {
      var done := GetDone(s, cfg);
      NoNonesAreHonest(s, done, cfg);
      HonestConcatenation(init, steps, done, cfg);
      RunConcatenation(init, steps, done, cfg);
      var more := DoneMeansEverythingCanBeRead(requestPrefill, steps + done, cfg);
      assert steps + (done + more) == steps + done + more;
    } else if more :| HonestRun(init, steps + more, cfg) && AllHanded(RunSteps(init, steps + more, cfg)) {
      RunConcatenation(init, steps, more, cfg);
      NeverDoneForEver(s, more, cfg);
      assert false;
    }
  }
}
