/** The fill status over every run: exactly when done is final, and what failed means for the consumer. */
module GateStatus {
  import opened Models
  import opened Sequences
  import opened JetStream
  import opened Stages
  import opened Prefill
  import opened PrefillRetry
  import opened Gate
  import opened GateRuns
  import opened GateLimits
  import opened GateNone

  // ---------- When the status moves forward ----------

  /** Nothing in these calls reports any status but failed. */
  ghost predicate OnlyFails(todo: seq<Call>) {
    forall c :: c in todo && c.SetStatus? ==> c.status == Failed
  }

  /** No fill is ever allowed. */
  ghost predicate NeverFilled(s: State) {
    && s.sub.status in {Pending, Failed}
    && (s.worker.Busy? ==> OnlyFails(s.worker.todo))
  }

  lemma StepKeepsNeverFilled(s: State, step: Step, cfg: Config)
    requires cfg.maxAttempts == 0 && NeverFilled(s)
    ensures NeverFilled(Do(s, step, cfg))
    ensures StatusMoves(s.sub.status, Do(s, step, cfg).sub.status)
  {
    hide OnSubject, PurgeSubject, DeleteMessage;
    if step.WorkerCall? && s.worker.Busy? && s.worker.todo != [] {
      assert s.worker.todo[0] in s.worker.todo;
    }
  }

  lemma {:induction false} EveryRunNeverFilled(steps: seq<Step>, cfg: Config)
    requires cfg.maxAttempts == 0
    ensures NeverFilled(RunSteps(Init(true), steps, cfg))
  {
    if steps != [] {
      EveryRunNeverFilled(DropLast(steps), cfg);
      hide NeverFilled, Do;
      StepKeepsNeverFilled(RunSteps(Init(true), DropLast(steps), cfg), Last(steps), cfg);
    }
  }

  ghost predicate MovesForward(s: State, step: Step, cfg: Config) {
    StatusMoves(s.sub.status, Do(s, step, cfg).sub.status)
  }

  ghost predicate AlwaysForward(cfg: Config) {
    forall steps, step :: MovesForward(RunSteps(Init(true), steps, cfg), step, cfg)
  }

  lemma {:induction false} DoneStaysDone(steps: seq<Step>, more: seq<Step>, cfg: Config)
    requires AlwaysForward(cfg) && RunSteps(Init(true), steps, cfg).sub.status == Done
    ensures RunSteps(Init(true), steps + more, cfg).sub.status == Done
  {
    if more == [] {
      assert steps + more == steps;
    } else {
      hide RunSteps, Do;
      DoneStaysDone(steps, DropLast(more), cfg);
      var before := RunSteps(Init(true), steps + DropLast(more), cfg);
      assert MovesForward(before, Last(more), cfg);
      assert steps + more == steps + DropLast(more) + [Last(more)];
      NextStep(Init(true), steps + DropLast(more), Last(more), cfg);
    }
  }

  /** A second attempt that reports running again. */
  function RunningAgain(): seq<Step> {
    [WorkerCrash] + [WorkerFetch([SetStatus(Running)]), WorkerCall, WorkerCall]
  }

  /** If the acknowledgement after done is lost and another attempt is allowed, done goes back to running. */
  lemma LostAckTurnsDoneIntoRunning(cfg: Config)
    requires !cfg.ackLands && cfg.maxAttempts >= -1 && !LimitReached(cfg.maxAttempts, 2)
    ensures RunSteps(Init(true), OneEmptyFill(), cfg).sub.status == Done
    ensures RunSteps(Init(true), OneEmptyFill() + RunningAgain(), cfg).sub.status == Running
  {
    hide RunSteps, OneEmptyFill;
    AfterEmptyFill(0, cfg);
    var s := RunSteps(Init(true), OneEmptyFill(), cfg);
    RunConcatenation(Init(true), OneEmptyFill(), RunningAgain(), cfg);
    FirstStep(s, RunningAgain(), cfg);
    assert RunningAgain()[1..] == [WorkerFetch([SetStatus(Running)]), WorkerCall, WorkerCall];
    ThreeSteps(s.(worker := Waiting(1)), WorkerFetch([SetStatus(Running)]), WorkerCall, WorkerCall, cfg);
    assert IsFilling([SetStatus(Running)]);
    var todo := [Purge] + [SetStatus(Running)] + [SetStatus(Done)];
    assert todo[1..] == [SetStatus(Running), SetStatus(Done)];
  }

  /**
    In all runs of a subscription with prefill the status moves forward only, so that done and
    failed are final, exactly if the acknowledgement after status done lands or no fill is allowed.
   */
  lemma {:induction false} StatusMovesForwardExactlyWhen(cfg: Config)
    requires cfg.maxAttempts >= -1
    ensures AlwaysForward(cfg) <==> cfg.ackLands || cfg.maxAttempts == 0
  {
    hide RunSteps, Do;
    if cfg.ackLands {
      forall steps, step
        ensures MovesForward(RunSteps(Init(true), steps, cfg), step, cfg)
      {
        StatusOnlyMovesForward(true, steps, step, cfg);
      }
    } else if cfg.maxAttempts == 0 {
      forall steps, step
        ensures MovesForward(RunSteps(Init(true), steps, cfg), step, cfg)
      {
        EveryRunNeverFilled(steps, cfg);
        StepKeepsNeverFilled(RunSteps(Init(true), steps, cfg), step, cfg);
      }
    } else if AlwaysForward(cfg) {
      if cfg.maxAttempts >= 1 {
        LostAckTurnsDoneIntoFailed(cfg);
        DoneStaysDone(Crashes(cfg.maxAttempts - 1) + OneEmptyFill(), GivenUp(), cfg);
      } else {
        LostAckTurnsDoneIntoRunning(cfg);
        DoneStaysDone(OneEmptyFill(), RunningAgain(), cfg);
      }
      assert false;
    }
  }

  // ---------- What failed means for the consumer ----------

  /** Failed is reported only beyond the limit, where nothing else is ever reported. */
  ghost predicate FailedInv(s: State, cfg: Config) {
    && (s.worker.Busy? ==>
          if LimitReached(cfg.maxAttempts, s.worker.delivered) then OnlyFails(s.worker.todo)
          else SetStatus(Failed) !in s.worker.todo)
    && (s.sub.status == Failed ==>
          || s.worker.Acknowledged?
          || ((s.worker.Waiting? || s.worker.Busy?) && LimitReached(cfg.maxAttempts, s.worker.delivered)))
  }

  lemma StepKeepsFailed(s: State, step: Step, cfg: Config)
    requires FailedInv(s, cfg)
    ensures FailedInv(Do(s, step, cfg), cfg)
  {
    hide OnSubject, PurgeSubject, DeleteMessage;
    if step.WorkerCall? && s.worker.Busy? && s.worker.todo != [] {
      assert s.worker.todo[0] in s.worker.todo && forall c :: c in s.worker.todo[1..] ==> c in s.worker.todo;
    }
  }

  lemma {:induction false} EveryRunKeepsFailed(requestPrefill: bool, steps: seq<Step>, cfg: Config)
    ensures FailedInv(RunSteps(Init(requestPrefill), steps, cfg), cfg)
  {
    if steps != [] {
      EveryRunKeepsFailed(requestPrefill, DropLast(steps), cfg);
      hide FailedInv, Do;
      StepKeepsFailed(RunSteps(Init(requestPrefill), DropLast(steps), cfg), Last(steps), cfg);
    }
  }

  /** Some process has its flag, or some poll is past the status check. */
  predicate PastTheGate(s: State) {
    s.flags != {} || exists p :: p in s.polls && s.polls[p].stage.Fetching?
  }

  lemma FailedIsSilent(s: State, cfg: Config)
    requires FailedInv(s, cfg) && s.sub.status == Failed && !PastTheGate(s)
    ensures Silent(s, cfg)
  {
    if s.worker.Busy? {
      assert forall i :: 0 <= i < |s.worker.todo| ==> s.worker.todo[i] in s.worker.todo;
    }
  }

  lemma FlagHandsOut(s: State, process: nat, cfg: Config) returns (more: seq<Step>)
    requires process in s.flags
    ensures RunSteps(s, more, cfg).handed != s.handed
  {
    hide RunSteps;
    var poll := Above(s.polls.Keys);
    var m := Message("", "", Body(None, None));
    more := LiveSteps(poll, process, m);
    AfterLiveSteps(s, poll, process, m, cfg);
  }

  lemma FetchHandsOut(s: State, poll: nat, cfg: Config) returns (more: seq<Step>)
    requires poll in s.polls && s.polls[poll].stage.Fetching?
    ensures RunSteps(s, more, cfg).handed != s.handed
  {
    hide RunSteps, Filter;
    var m, fetch := Message("", "", Body(None, None)), PollFetch(poll, false);
    TwoSteps(s, Dispatch(m), fetch, cfg);
    AppendOnSubject(s.sub.stream, MainSubject, m, MainSubject);
    AppendOnSubject(s.sub.stream, MainSubject, m, PrefillSubject);
    if s.polls[poll].stage.subject == MainSubject || PrefillEntries(s) != [] {
      more := [Dispatch(m), fetch];
    } else {
      var s' := Do(s, fetch, cfg);
      assert s.polls[poll].process in s'.flags && s'.handed == s.handed;
      var live := FlagHandsOut(s', s.polls[poll].process, cfg);
      OneStep(s, fetch, cfg);
      RunConcatenation(s, [fetch], live, cfg);
      more := [fetch] + live;
    }
  }

  /**
    With status failed, something more may be handed out exactly if some process has its flag or
    some poll is past the status check: for everybody else the subscription is silent for ever.
   */
  lemma {:induction false} FailedHandsOutExactlyWhen(requestPrefill: bool, steps: seq<Step>, cfg: Config)
    requires RunSteps(Init(requestPrefill), steps, cfg).sub.status == Failed
    ensures var s := RunSteps(Init(requestPrefill), steps, cfg);
            (exists more :: RunSteps(s, more, cfg).handed != s.handed) <==> PastTheGate(s)
  {
    hide RunSteps;
    var s := RunSteps(Init(requestPrefill), steps, cfg);
    if more :| RunSteps(s, more, cfg).handed != s.handed {
      EveryRunKeepsFailed(requestPrefill, steps, cfg);
      if !PastTheGate(s) {
        FailedIsSilent(s, cfg);
        SilentForEver(s, more, cfg);
      }
    }
    if s.flags != {} {
      var process :| process in s.flags;
      var more := FlagHandsOut(s, process, cfg);
    } else if poll :| poll in s.polls && s.polls[poll].stage.Fetching? {
      var more := FetchHandsOut(s, poll, cfg);
    }
  }
}
