/** A name that is deleted and registered again: exactly when its new prefill is read before its live messages. */
module GateReuse {
  import opened Models
  import opened Sequences
  import opened JetStream
  import opened Stages
  import opened Prefill
  import opened PrefillRetry
  import opened Gate
  import opened GateOrder
  import opened GateRuns
  import opened GateLimits
  import opened GateNone
  import opened GateStatus

  /**
    A new registration with a new stream and a new request. The API processes keep the flags of the
    name, and the calls that were under way for it.
   */
  function RegisteredAgain(flags: set<nat>, polls: map<nat, Poll>): State {
    Init(true).(flags := flags, polls := polls)
  }

  lemma {:induction false} HonestRunKeeps(s: State, steps: seq<Step>, cfg: Config)
    requires cfg.ackLands && HonestRun(s, steps, cfg) && GateInv(s) && OrderInv(s) && EmptyInv(s)
    ensures var s' := RunSteps(s, steps, cfg); GateInv(s') && OrderInv(s') && EmptyInv(s')
  {
    if steps != [] {
      HonestStep(s, steps, cfg);
      hide HonestRun, Honest, GateInv, OrderInv, EmptyInv, Do;
      HonestRunKeeps(s, DropLast(steps), cfg);
      var before := RunSteps(s, DropLast(steps), cfg);
      StepKeepsGate(before, Last(steps), cfg);
      StepKeepsOrder(before, Last(steps), cfg);
      StepKeepsEmpty(before, Last(steps), cfg);
    }
  }

  lemma NothingOpen(polls: map<nat, Poll>)
    requires !PastTheGate(RegisteredAgain({}, polls))
    ensures var s := RegisteredAgain({}, polls); GateInv(s) && OrderInv(s) && EmptyInv(s)
  {
    var none: seq<Stored> := [];
    assert none + none == none;
  }

  // ---------- A run that skips the prefill ----------

  /** No step answers None on its own account. */
  ghost predicate NoNones(steps: seq<Step>) {
    forall i :: 0 <= i < |steps| ==> !(steps[i].PollFetch? && steps[i].none)
  }

  ghost predicate HandedLive(s: State, s': State) {
    s'.worker == s.worker && |s'.handed| == 1 && s'.handed[0].subject == MainSubject
  }

  lemma FlagGoesLive(s: State, process: nat, cfg: Config) returns (more: seq<Step>)
    requires process in s.flags && s.handed == []
    ensures NoNones(more) && HandedLive(s, RunSteps(s, more, cfg))
  {
    hide RunSteps;
    var poll := Above(s.polls.Keys);
    var m := Message("", "", Body(None, None));
    more := LiveSteps(poll, process, m);
    AfterLiveSteps(s, poll, process, m, cfg);
  }

  lemma FetchGoesLive(s: State, poll: nat, cfg: Config) returns (more: seq<Step>)
    requires poll in s.polls && s.polls[poll].stage.Fetching? && s.handed == [] && PrefillEntries(s) == []
    ensures NoNones(more) && HandedLive(s, RunSteps(s, more, cfg))
  {
    hide RunSteps, Filter;
    var m, fetch := Message("", "", Body(None, None)), PollFetch(poll, false);
    if s.polls[poll].stage.subject == MainSubject {
      more := [Dispatch(m), fetch];
      TwoSteps(s, Dispatch(m), fetch, cfg);
      AppendOnSubject(s.sub.stream, MainSubject, m, MainSubject);
      var s1 := DoDispatch(s, m);
      FilterMembers(Of(MainSubject), s1.sub.stream.entries);
      assert MainEntries(s1)[0] in MainEntries(s1);
    } else {
      var s' := Do(s, fetch, cfg);
      assert s.polls[poll].process in s'.flags && s'.handed == [] && s'.worker == s.worker;
      var live := FlagGoesLive(s', s.polls[poll].process, cfg);
      OneStep(s, fetch, cfg);
      RunConcatenation(s, [fetch], live, cfg);
      more := [fetch] + live;
    }
  }

  function FillSteps(m: Message): seq<Step> {
    [WorkerFetch([Publish(m)])] + [WorkerCall, WorkerCall, WorkerCall]
  }

  lemma AfterFillSteps(s: State, m: Message, cfg: Config)
    requires s.worker == Waiting(0) && !LimitReached(cfg.maxAttempts, 1)
    ensures var s' := RunSteps(s, FillSteps(m), cfg);
            s'.handed == s.handed && s'.filled != [] && s'.filled[0].subject == PrefillSubject
  {
    hide RunSteps, Filter, Published;
    var calls := [WorkerCall, WorkerCall, WorkerCall];
    FirstStep(s, FillSteps(m), cfg);
    assert FillSteps(m)[1..] == calls;
    var s1 := DoWorkerFetch(s, [Publish(m)], cfg);
    assert IsFilling([Publish(m)]);
    ThreeSteps(s1, WorkerCall, WorkerCall, WorkerCall, cfg);
    var todo := [Purge] + [Publish(m)] + [SetStatus(Done)];
    assert s1.worker.todo == todo;
    assert todo[1..] == [Publish(m), SetStatus(Done)] && todo[1..][1..] == [SetStatus(Done)];
    PurgeOnSubject(s.sub.stream, PrefillSubject, PrefillSubject);
    AppendOnSubject(PurgeSubject(s.sub.stream, PrefillSubject), PrefillSubject, m, PrefillSubject);
  }

  lemma LiveFirst(s: State)
    requires |s.handed| == 1 && s.handed[0].subject == MainSubject
    requires s.filled != [] && s.filled[0].subject == PrefillSubject
    ensures !Ordered(s)
  {
    CollapseDistinct(s.handed);
    assert (s.filled + s.mainLog)[0] == s.filled[0];
  }

  lemma SkippingRun(s: State, cfg: Config) returns (more: seq<Step>)
    requires PastTheGate(s) && s.handed == [] && PrefillEntries(s) == []
    requires s.worker == Waiting(0) && !LimitReached(cfg.maxAttempts, 1)
    ensures HonestRun(s, more, cfg) && !Ordered(RunSteps(s, more, cfg))
  {
    hide RunSteps, Ordered, HonestRun, FillSteps;
    var live: seq<Step>;
    if process :| process in s.flags {
      live := FlagGoesLive(s, process, cfg);
    } else {
      var poll :| poll in s.polls && s.polls[poll].stage.Fetching?;
      live := FetchGoesLive(s, poll, cfg);
    }
    var m := Message("", "", Body(None, None));
    more := live + FillSteps(m);
    FillStepsHaveNoNones(live, m);
    WithoutNones(s, more, cfg);
    RunConcatenation(s, live, FillSteps(m), cfg);
    var s1 := RunSteps(s, live, cfg);
    AfterFillSteps(s1, m, cfg);
    LiveFirst(RunSteps(s1, FillSteps(m), cfg));
  }

  lemma FillStepsHaveNoNones(steps: seq<Step>, m: Message)
    requires NoNones(steps)
    ensures NoNones(steps + FillSteps(m))
  {
  }

  // ---------- Exactly when ----------

  /**
    After a name is registered again with prefill, its new prefill is read before its live messages
    in every honest run exactly if no API process still has the flag of the name and no call for it
    is past the status check.
   */
  lemma {:induction false} SecondPrefillIsReadFirstExactlyWhen(flags: set<nat>, polls: map<nat, Poll>, cfg: Config)
    requires cfg.ackLands && !LimitReached(cfg.maxAttempts, 1)
    ensures var s := RegisteredAgain(flags, polls);
            KeepsOrderFrom(s, cfg) <==> !PastTheGate(s)
  {
    hide RunSteps, GateInv, OrderInv, EmptyInv, HonestRun, Ordered, PastTheGate, RegisteredAgain;
    var s := RegisteredAgain(flags, polls);
    if PastTheGate(s) {
      NothingYet(flags, polls);
      var more := SkippingRun(s, cfg);
      assert HonestRun(s, more, cfg) && !Ordered(RunSteps(s, more, cfg));
    } else {
      NoFlags(flags, polls);
      NothingOpen(polls);
      forall more | HonestRun(s, more, cfg)
        ensures Ordered(RunSteps(s, more, cfg))
      {
        HonestRunKeeps(s, more, cfg);
        InvariantsOrder(RunSteps(s, more, cfg));
      }
    }
  }

  lemma NothingYet(flags: set<nat>, polls: map<nat, Poll>)
    ensures var s := RegisteredAgain(flags, polls);
            s.handed == [] && PrefillEntries(s) == [] && s.worker == Waiting(0)
  {
  }

  lemma NoFlags(flags: set<nat>, polls: map<nat, Poll>)
    requires !PastTheGate(RegisteredAgain(flags, polls))
    ensures flags == {}
  {
  }
}
