/** Where the promises of the gate end: one run for each assumption about the environment. */
module GateLimits {
  import opened Models
  import opened Sequences
  import opened JetStream
  import opened Stages
  import opened Prefill
  import opened PrefillRetry
  import opened Gate

  lemma {:induction false} FirstStep(s: State, steps: seq<Step>, cfg: Config)
    requires steps != []
    ensures RunSteps(s, steps, cfg) == RunSteps(Do(s, steps[0], cfg), steps[1..], cfg)
  {
    if |steps| == 1 {
      assert DropLast(steps) == [] == steps[1..];
    } else {
      FirstStep(s, DropLast(steps), cfg);
      assert DropLast(steps)[1..] == DropLast(steps[1..]);
    }
  }

  lemma {:induction false} RunConcatenation(s: State, a: seq<Step>, b: seq<Step>, cfg: Config)
    ensures RunSteps(s, a + b, cfg) == RunSteps(RunSteps(s, a, cfg), b, cfg)
  {
    if b == [] {
      assert a + b == a;
    } else {
      RunConcatenation(s, a, DropLast(b), cfg);
      assert DropLast(a + b) == a + DropLast(b);
    }
  }

  lemma TwoSteps(s: State, x: Step, y: Step, cfg: Config)
    ensures RunSteps(s, [x, y], cfg) == Do(Do(s, x, cfg), y, cfg)
  {
    FirstStep(s, [x, y], cfg);
    FirstStep(Do(s, x, cfg), [y], cfg);
    assert [x, y][1..] == [y] && [y][1..] == [];
  }

  lemma ThreeSteps(s: State, x: Step, y: Step, z: Step, cfg: Config)
    ensures RunSteps(s, [x, y, z], cfg) == Do(Do(Do(s, x, cfg), y, cfg), z, cfg)
  {
    FirstStep(s, [x, y, z], cfg);
    TwoSteps(Do(s, x, cfg), y, z, cfg);
    assert [x, y, z][1..] == [y, z];
  }

  lemma FilterSmall(keep: Stored -> bool, x: Stored, y: Stored, z: Stored)
    ensures Filter(keep, []) == []
    ensures Filter(keep, [x]) == if keep(x) then [x] else []
    ensures Filter(keep, [x, y]) == (if keep(x) then [x] else []) + (if keep(y) then [y] else [])
    ensures Filter(keep, [x, y, z]) ==
            (if keep(x) then [x] else []) + (if keep(y) then [y] else []) + (if keep(z) then [z] else [])
  {
    FilterSnoc(keep, [], x);
    FilterSnoc(keep, [x], y);
    FilterSnoc(keep, [x, y], z);
    assert [] + [x] == [x] && [x] + [y] == [x, y] && [x, y] + [z] == [x, y, z];
  }

  /** An attempt at a prefill of two messages, up to the publish of the first. */
  function FillOne(a: Message, b: Message): seq<Step> {
    [WorkerFetch([Publish(a), Publish(b)]), WorkerCall, WorkerCall]
  }

  /** The same attempt up to the call that reports done. */
  function FillTwo(a: Message, b: Message): seq<Step> {
    FillOne(a, b) + [WorkerCall, WorkerCall]
  }

  lemma PublishedTwo(a: Message, b: Message)
    ensures Published([Publish(a), Publish(b)]) == [a, b]
  {
    PublishedConcat([Publish(a)], [Publish(b)]);
    assert [Publish(a)][1..] == [] && [Publish(b)][1..] == [];
    assert [Publish(a)] + [Publish(b)] == [Publish(a), Publish(b)] && [a] + [b] == [a, b];
  }

  /** Purge and the first of two publishes, on a stream that holds prefill entries x and y or is empty. */
  lemma AfterFillOne(s: State, x: Stored, y: Stored, a: Message, b: Message, cfg: Config)
    requires s.worker.Waiting? && !LimitReached(cfg.maxAttempts, s.worker.delivered + 1)
    requires s.sub.stream.entries == [] || (s.sub.stream.entries == [x, y] && x.subject == y.subject == PrefillSubject)
    ensures var n := s.sub.stream.lastSeq;
            RunSteps(s, FillOne(a, b), cfg) ==
            s.(worker := Busy(s.worker.delivered + 1, [Publish(b), SetStatus(Done)], [a, b]),
               sub := SubscriptionState(Stream([Stored(n + 1, PrefillSubject, a)], n + 1), s.sub.status))
  {
    hide Filter, RunSteps;
    ThreeSteps(s, WorkerFetch([Publish(a), Publish(b)]), WorkerCall, WorkerCall, cfg);
    assert [Publish(a), Publish(b)][1..] == [Publish(b)] && [Publish(b)][1..] == [];
    PublishedTwo(a, b);
    hide Published;
    var todo := [Purge] + [Publish(a), Publish(b)] + [SetStatus(Done)];
    var s1 := Do(s, WorkerFetch([Publish(a), Publish(b)]), cfg);
    assert s1.worker == Busy(s.worker.delivered + 1, todo, [a, b]);
    var s2 := Do(s1, WorkerCall, cfg);
    assert todo[1..] == [Publish(a), Publish(b), SetStatus(Done)];
    FilterSmall(NotOf(PrefillSubject), x, y, x);
    assert s2.sub.stream.entries == [];
    assert todo[1..][1..] == [Publish(b), SetStatus(Done)];
  }

  lemma AfterFillTwo(a: Message, b: Message, cfg: Config)
    requires !LimitReached(cfg.maxAttempts, 1)
    ensures var x, y := Stored(1, PrefillSubject, a), Stored(2, PrefillSubject, b);
            RunSteps(Init(true), FillTwo(a, b), cfg) ==
            State(SubscriptionState(Stream([x, y], 2), Done), Busy(1, [], [a, b]), {}, map[], [], [x, y], [a, b], [])
  {
    hide RunSteps, FillOne;
    AfterFillOne(Init(true), Stored(1, PrefillSubject, a), Stored(2, PrefillSubject, b), a, b, cfg);
    RunConcatenation(Init(true), FillOne(a, b), [WorkerCall, WorkerCall], cfg);
    AfterLastCalls(RunSteps(Init(true), FillOne(a, b), cfg), Stored(1, PrefillSubject, a), b, cfg);
  }

  lemma AfterLastCalls(s: State, x: Stored, b: Message, cfg: Config)
    requires s.worker.Busy? && s.worker.todo == [Publish(b), SetStatus(Done)]
    requires s.sub.stream == Stream([x], x.seqNo) && x.subject == PrefillSubject
    ensures var y := Stored(x.seqNo + 1, PrefillSubject, b);
            RunSteps(s, [WorkerCall, WorkerCall], cfg) ==
            s.(sub := SubscriptionState(Stream([x, y], y.seqNo), Done), worker := s.worker.(todo := []),
               filled := [x, y], filledBy := s.worker.publishes)
  {
    hide RunSteps, Filter;
    var y := Stored(x.seqNo + 1, PrefillSubject, b);
    TwoSteps(s, WorkerCall, WorkerCall, cfg);
    assert [Publish(b), SetStatus(Done)][1..] == [SetStatus(Done)] && [SetStatus(Done)][1..] == [];
    var s1 := DoWorkerCall(s);
    assert s1.sub.stream == Stream([x, y], y.seqNo) && s1.worker == s.worker.(todo := [SetStatus(Done)]);
    FilterSmall(Of(PrefillSubject), x, y, x);
  }

  /** A whole poll of a process that has not gone over to live messages. */
  function PrefillPoll(poll: nat, none: bool): seq<Step> {
    [PollBegin(poll, 0), PollStatus(poll, true), PollFetch(poll, none)]
  }

  lemma AfterPrefillPoll(s: State, poll: nat, none: bool, head: Stored, cfg: Config)
    requires s.polls == map[] && s.flags == {} && s.sub.status == Done && (none ==> !cfg.emptyMeansEmpty)
    requires PrefillEntries(s) != [] && PrefillEntries(s)[0] == head
    ensures RunSteps(s, PrefillPoll(poll, none), cfg) ==
            if none then s.(flags := {0}) else s.(handed := s.handed + [head])
  {
    ThreeSteps(s, PollBegin(poll, 0), PollStatus(poll, true), PollFetch(poll, none), cfg);
    assert map[poll := Poll(0, Fetching(PrefillSubject))] - {poll} == map[];
    assert {} + {0} == {0};
  }

  function SkippingRun(a: Message, b: Message, m: Message): seq<Step> {
    FillTwo(a, b) + [Dispatch(m)] + PrefillPoll(0, false) + PrefillPoll(1, true)
    + [PollBegin(2, 0), PollFetch(2, false)]
  }

  /**
    A fetch that answers None while a delivered prefill message waits for its acknowledgement
    opens the live subject too early: the second prefill message is overtaken.
   */
  lemma NoneInFlightSkipsPrefill(a: Message, b: Message, m: Message, cfg: Config)
    requires !cfg.emptyMeansEmpty && !LimitReached(cfg.maxAttempts, 1)
    ensures var s := RunSteps(Init(true), SkippingRun(a, b, m), cfg);
            && s.handed == [Stored(1, PrefillSubject, a), Stored(3, MainSubject, m)]
            && Stored(2, PrefillSubject, b) in s.filled && Stored(2, PrefillSubject, b) !in s.handed
            && !(Collapse(s.handed) <= s.filled + s.mainLog)
  {
    hide RunSteps, FillTwo, PrefillPoll, Collapse;
    var x, y, z := Stored(1, PrefillSubject, a), Stored(2, PrefillSubject, b), Stored(3, MainSubject, m);
    var s0 := RunSteps(Init(true), FillTwo(a, b), cfg);
    AfterFillTwo(a, b, cfg);
    var fills, first, second := FillTwo(a, b) + [Dispatch(m)], PrefillPoll(0, false), PrefillPoll(1, true);
    var last := [PollBegin(2, 0), PollFetch(2, false)];
    RunConcatenation(Init(true), fills + first + second, last, cfg);
    RunConcatenation(Init(true), fills + first, second, cfg);
    RunConcatenation(Init(true), fills, first, cfg);
    RunConcatenation(Init(true), FillTwo(a, b), [Dispatch(m)], cfg);
    AfterDispatch(s0, m, cfg);
    assert [x, y] + [z] == [x, y, z] && [] + [z] == [z];
    var s1 := s0.(sub := s0.sub.(stream := Stream([x, y, z], 3)), mainLog := [z]);
    AfterThreePolls(s1, x, y, z, cfg);
    OvertakingIsNoPrefix(x, y, z);
  }

  /** The first prefill message is handed out, the next fetch answers None, the one after that is live. */
  lemma AfterThreePolls(s: State, x: Stored, y: Stored, z: Stored, cfg: Config)
    requires s.polls == map[] && s.flags == {} && s.handed == [] && s.sub.status == Done && !cfg.emptyMeansEmpty
    requires s.sub.stream.entries == [x, y, z]
    requires x.subject == y.subject == PrefillSubject && z.subject == MainSubject
    ensures RunSteps(RunSteps(RunSteps(s, PrefillPoll(0, false), cfg), PrefillPoll(1, true), cfg),
                     [PollBegin(2, 0), PollFetch(2, false)], cfg) ==
            s.(handed := [x, z], flags := {0})
  {
    hide RunSteps, Filter, PrefillPoll;
    FilterSmall(Of(PrefillSubject), x, y, z);
    FilterSmall(Of(MainSubject), x, y, z);
    AfterPrefillPoll(s, 0, false, x, cfg);
    assert [] + [x] == [x];
    var s2 := s.(handed := [x]);
    AfterPrefillPoll(s2, 1, true, x, cfg);
    AfterLivePoll(s2.(flags := {0}), 2, z, cfg);
    assert [x] + [z] == [x, z];
  }

  lemma OvertakingIsNoPrefix(x: Stored, y: Stored, z: Stored)
    requires x.seqNo != z.seqNo && y.seqNo != z.seqNo
    ensures !(Collapse([x, z]) <= [x, y] + [z])
  {
    CollapseDistinct([x, z]);
    assert ([x, y] + [z])[1] == y;
  }

  lemma AfterDispatch(s: State, m: Message, cfg: Config)
    ensures RunSteps(s, [Dispatch(m)], cfg) == DoDispatch(s, m)
  {
    FirstStep(s, [Dispatch(m)], cfg);
  }

  lemma AfterLivePoll(s: State, poll: nat, head: Stored, cfg: Config)
    requires s.polls == map[] && 0 in s.flags && MainEntries(s) != [] && MainEntries(s)[0] == head
    ensures RunSteps(s, [PollBegin(poll, 0), PollFetch(poll, false)], cfg) == s.(handed := s.handed + [head])
  {
    TwoSteps(s, PollBegin(poll, 0), PollFetch(poll, false), cfg);
    assert map[poll := Poll(0, Fetching(MainSubject))] - {poll} == map[];
  }

  function RefillingRun(a: Message, b: Message): seq<Step> {
    FillTwo(a, b) + [WorkerCrash] + FillOne(a, b) + PrefillPoll(0, false)
  }

  /**
    A request whose acknowledgement after done is lost is filled again if there is another attempt,
    and the consumer reads the new fill while it is under way: status done no longer means complete.
   */
  lemma LostAckShowsPartialPrefill(a: Message, b: Message, cfg: Config)
    requires !cfg.ackLands && cfg.maxAttempts >= -1 && !LimitReached(cfg.maxAttempts, 2)
    ensures var s := RunSteps(Init(true), RefillingRun(a, b), cfg);
            && s.handed == [Stored(3, PrefillSubject, a)] && s.handed[0] !in s.filled
            && s.worker == Busy(2, [Publish(b), SetStatus(Done)], [a, b])
  {
    var x, y, z := Stored(1, PrefillSubject, a), Stored(2, PrefillSubject, b), Stored(3, PrefillSubject, a);
    var s0 := RunSteps(Init(true), FillTwo(a, b), cfg);
    AfterFillTwo(a, b, cfg);
    hide RunSteps, FillTwo, FillOne, PrefillPoll, Filter;
    RunConcatenation(Init(true), FillTwo(a, b) + [WorkerCrash] + FillOne(a, b), PrefillPoll(0, false), cfg);
    RunConcatenation(Init(true), FillTwo(a, b) + [WorkerCrash], FillOne(a, b), cfg);
    RunConcatenation(Init(true), FillTwo(a, b), [WorkerCrash], cfg);
    OneStep(s0, WorkerCrash, cfg);
    var s1 := s0.(worker := Waiting(1));
    AfterFillOne(s1, x, y, a, b, cfg);
    var s2 := RunSteps(s1, FillOne(a, b), cfg);
    FilterSmall(Of(PrefillSubject), z, z, z);
    AfterPrefillPoll(s2, 0, false, z, cfg);
  }

  lemma OneStep(s: State, step: Step, cfg: Config)
    ensures RunSteps(s, [step], cfg) == Do(s, step, cfg)
  {
    FirstStep(s, [step], cfg);
  }

  // ---------- Done turns into failed ----------

  /** Attempts that fail before their first call. */
  function Crashes(n: nat): seq<Step> {
    if n == 0 then [] else Crashes(n - 1) + [WorkerFetch([]), WorkerCrash]
  }

  lemma {:induction false} AfterCrashes(n: nat, cfg: Config)
    requires n <= cfg.maxAttempts && !cfg.ackLands
    ensures RunSteps(Init(true), Crashes(n), cfg) == Init(true).(worker := Waiting(n))
  {
    if n > 0 {
      AfterCrashes(n - 1, cfg);
      hide RunSteps;
      RunConcatenation(Init(true), Crashes(n - 1), [WorkerFetch([]), WorkerCrash], cfg);
      TwoSteps(Init(true).(worker := Waiting(n - 1)), WorkerFetch([]), WorkerCrash, cfg);
      assert IsFilling([]);
    }
  }

  function OneEmptyFill(): seq<Step> {
    [WorkerFetch([]), WorkerCall, WorkerCall]
  }

  /** The acknowledgement is lost, and the next delivery is one too many. */
  function GivenUp(): seq<Step> {
    [WorkerCrash] + [WorkerFetch([]), WorkerCall, WorkerCall]
  }

  lemma AfterEmptyFill(n: nat, cfg: Config)
    requires !LimitReached(cfg.maxAttempts, n + 1)
    ensures RunSteps(Init(true).(worker := Waiting(n)), OneEmptyFill(), cfg) ==
            Init(true).(worker := Busy(n + 1, [], []), sub := SubscriptionState(Stream([], 0), Done))
  {
    hide RunSteps;
    var s := Init(true).(worker := Waiting(n));
    ThreeSteps(s, WorkerFetch([]), WorkerCall, WorkerCall, cfg);
    assert IsFilling([]) && Published([]) == [];
    var todo := [Purge] + [] + [SetStatus(Done)];
    assert todo[1..] == [SetStatus(Done)] && todo[1..][1..] == [];
  }

  lemma AfterGivenUp(n: nat, cfg: Config)
    requires !cfg.ackLands && LimitReached(cfg.maxAttempts, n + 1)
    ensures var s := Init(true).(worker := Busy(n, [], []), sub := SubscriptionState(Stream([], 0), Done));
            RunSteps(s, GivenUp(), cfg) ==
            s.(worker := Busy(n + 1, [], []), sub := SubscriptionState(Stream([], 0), Failed))
  {
    hide RunSteps;
    var s := Init(true).(worker := Busy(n, [], []), sub := SubscriptionState(Stream([], 0), Done));
    FirstStep(s, GivenUp(), cfg);
    assert GivenUp()[1..] == [WorkerFetch([]), WorkerCall, WorkerCall];
    ThreeSteps(s.(worker := Waiting(n)), WorkerFetch([]), WorkerCall, WorkerCall, cfg);
    assert GiveUpCalls(cfg.request)[1..] == [SetStatus(Failed)] && [SetStatus(Failed)][1..] == [];
  }

  /** No process has its flag or is about to fetch, and nothing is left that could report done. */
  ghost predicate Silent(s: State, cfg: Config) {
    && s.flags == {} && s.sub.status == Failed
    && (forall p :: p in s.polls ==> s.polls[p].stage == Asking)
    && match s.worker
       case NoRequest => true
       case Acknowledged => true
       case Waiting(n) => LimitReached(cfg.maxAttempts, n + 1)
       case Busy(n, todo, _) => LimitReached(cfg.maxAttempts, n + 1) && SetStatus(Done) !in todo
                                && forall i :: 0 <= i < |todo| && todo[i].SetStatus? ==> todo[i].status == Failed
  }

  lemma StepKeepsSilent(s: State, step: Step, cfg: Config)
    requires Silent(s, cfg)
    ensures Silent(Do(s, step, cfg), cfg) && Do(s, step, cfg).handed == s.handed
  {
    hide OnSubject, PurgeSubject, DeleteMessage;
    if step.WorkerFetch? && s.worker.Waiting? {
      assert Do(s, step, cfg).worker.todo == GiveUpCalls(cfg.request);
    }
  }

  lemma {:induction false} SilentForEver(s: State, steps: seq<Step>, cfg: Config)
    requires Silent(s, cfg)
    ensures Silent(RunSteps(s, steps, cfg), cfg) && RunSteps(s, steps, cfg).handed == s.handed
  {
    if steps != [] {
      SilentForEver(s, DropLast(steps), cfg);
      hide Silent, Do;
      StepKeepsSilent(RunSteps(s, DropLast(steps), cfg), Last(steps), cfg);
    }
  }

  /**
    If the acknowledgement after status done is lost on the last allowed attempt, the next delivery
    turns done into failed, and from then on nothing that may happen hands out another message.
   */
  lemma LostAckTurnsDoneIntoFailed(cfg: Config)
    requires !cfg.ackLands && cfg.maxAttempts >= 1
    ensures var filled := Crashes(cfg.maxAttempts - 1) + OneEmptyFill();
            var done, failed := RunSteps(Init(true), filled, cfg), RunSteps(Init(true), filled + GivenUp(), cfg);
            && done.sub.status == Done && failed.sub.status == Failed
            && forall steps :: RunSteps(failed, steps, cfg).handed == failed.handed
  {
    hide RunSteps, OneEmptyFill, GivenUp, Crashes;
    var n := cfg.maxAttempts - 1;
    var filled := Crashes(n) + OneEmptyFill();
    AfterCrashes(n, cfg);
    RunConcatenation(Init(true), Crashes(n), OneEmptyFill(), cfg);
    AfterEmptyFill(n, cfg);
    RunConcatenation(Init(true), filled, GivenUp(), cfg);
    AfterGivenUp(n + 1, cfg);
    var failed := RunSteps(Init(true), filled + GivenUp(), cfg);
    forall steps
      ensures RunSteps(failed, steps, cfg).handed == failed.handed
    {
      SilentForEver(failed, steps, cfg);
    }
  }
}
