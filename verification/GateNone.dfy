/** What one None from the prefill subject does to the order of all that follows. */
module GateNone {
  import opened Models
  import opened Sequences
  import opened JetStream
  import opened Stages
  import opened Gate
  import opened GateOrder
  import opened GateRuns
  import opened GateLimits

  lemma {:induction false} HonestConcatenation(s: State, a: seq<Step>, b: seq<Step>, cfg: Config)
    ensures HonestRun(s, a + b, cfg) <==> HonestRun(s, a, cfg) && HonestRun(RunSteps(s, a, cfg), b, cfg)
  {
    hide HonestRun, Honest, RunSteps;
    if b == [] {
      assert a + b == a;
      NothingIsHonest(RunSteps(s, a, cfg), cfg);
    } else {
      HonestConcatenation(s, a, DropLast(b), cfg);
      assert DropLast(a + b) == a + DropLast(b);
      HonestStep(s, a + b, cfg);
      HonestStep(RunSteps(s, a, cfg), b, cfg);
      RunConcatenation(s, a, DropLast(b), cfg);
    }
  }

  lemma NothingIsHonest(s: State, cfg: Config)
    ensures HonestRun(s, [], cfg)
  {
  }

  /** Steps that never answer None are honest wherever they start. */
  lemma WithoutNones(s: State, steps: seq<Step>, cfg: Config)
    requires forall i :: 0 <= i < |steps| ==> !(steps[i].PollFetch? && steps[i].none)
    ensures HonestRun(s, steps, cfg)
  {
    hide RunSteps;
    forall i | 0 <= i < |steps|
      ensures HonestAt(s, steps, cfg, i)
    {
    }
  }

  // ---------- A run that overtakes ----------

  lemma {:induction false} Above(known: set<nat>) returns (bound: nat)
    ensures forall x :: x in known ==> x < bound
  {
    bound := 0;
    if known != {} {
      var x :| x in known;
      var rest := Above(known - {x});
      bound := if x < rest then rest else x + 1;
      forall y | y in known
        ensures y < bound
      {
        assert y == x || y in known - {x};
      }
    }
  }

  /** A live message is dispatched and handed out by a process that has its flag set. */
  function LiveSteps(poll: nat, process: nat, m: Message): seq<Step> {
    [Dispatch(m), PollBegin(poll, process), PollFetch(poll, false)]
  }

  /** The process is restarted and polls again. */
  function BackSteps(poll: nat, process: nat): seq<Step> {
    [ProcessRestart(process)] + [PollBegin(poll, process), PollStatus(poll, false), PollFetch(poll, false)]
  }

  lemma AfterLiveSteps(s: State, poll: nat, process: nat, m: Message, cfg: Config)
    requires poll !in s.polls && process in s.flags
    ensures var s' := RunSteps(s, LiveSteps(poll, process, m), cfg);
            && s'.polls == s.polls && s'.sub.status == s.sub.status && s'.worker == s.worker
            && PrefillEntries(s') == PrefillEntries(s)
            && s'.handed != [] && DropLast(s'.handed) == s.handed && Last(s'.handed).subject == MainSubject
  {
    hide RunSteps, Filter;
    ThreeSteps(s, Dispatch(m), PollBegin(poll, process), PollFetch(poll, false), cfg);
    AppendOnSubject(s.sub.stream, MainSubject, m, MainSubject);
    AppendOnSubject(s.sub.stream, MainSubject, m, PrefillSubject);
    var s1 := DoDispatch(s, m);
    var waiting := MainEntries(s1);
    FilterMembers(Of(MainSubject), s1.sub.stream.entries);
    assert waiting != [] && waiting[0] in waiting && waiting[0].subject == MainSubject;
    assert s.polls[poll := Poll(process, Fetching(MainSubject))] - {poll} == s.polls;
  }

  lemma AfterBackSteps(s: State, poll: nat, process: nat, cfg: Config)
    requires poll !in s.polls && s.sub.status == Done && PrefillEntries(s) != []
    ensures var s' := RunSteps(s, BackSteps(poll, process), cfg);
            s'.handed != [] && DropLast(s'.handed) == s.handed && Last(s'.handed).subject == PrefillSubject
  {
    hide RunSteps, Filter;
    var rest := [PollBegin(poll, process), PollStatus(poll, false), PollFetch(poll, false)];
    FirstStep(s, BackSteps(poll, process), cfg);
    assert BackSteps(poll, process)[1..] == rest;
    var s1 := DoProcessRestart(s, process);
    ThreeSteps(s1, PollBegin(poll, process), PollStatus(poll, false), PollFetch(poll, false), cfg);
    FilterMembers(Of(PrefillSubject), s.sub.stream.entries);
    assert PrefillEntries(s)[0] in PrefillEntries(s);
  }

  /** A prefill message after a live one breaks the order for good. */
  lemma PrefillAfterLive(before: seq<Stored>, z: Stored, x: Stored, n: nat)
    requires z.subject == MainSubject && x.subject == PrefillSubject
    ensures !PrefillFirst(Collapse(before + [z] + [x]), n)
  {
    hide Collapse;
    CollapseSnoc(before + [z], x);
    var seen := Collapse(before + [z]);
    assert seen[|seen| - 1] == z;
    assert (seen + [x])[|seen| - 1] == z && (seen + [x])[|seen|] == x;
  }

  /** Once a process has its flag while a prefill message is left, some honest run breaks the order. */
  lemma OvertakingRun(requestPrefill: bool, steps: seq<Step>, cfg: Config, process: nat) returns (more: seq<Step>)
    requires cfg.ackLands
    requires var s := RunSteps(Init(requestPrefill), steps, cfg);
             process in s.flags && s.sub.status == Done && PrefillEntries(s) != []
    ensures var s := RunSteps(Init(requestPrefill), steps, cfg);
            HonestRun(s, more, cfg) && !Ordered(RunSteps(s, more, cfg))
  {
    hide RunSteps, HonestRun, Collapse, LiveSteps, BackSteps;
    var s := RunSteps(Init(requestPrefill), steps, cfg);
    var poll := Above(s.polls.Keys);
    var m := Message("", "", Body(None, None));
    var live, back := LiveSteps(poll, process, m), BackSteps(poll, process);
    more := live + back;
    assert forall i :: 0 <= i < |more| ==> !(more[i].PollFetch? && more[i].none) by {
      WithoutNoneSteps(poll, process, m);
    }
    WithoutNones(s, more, cfg);
    RunConcatenation(s, live, back, cfg);
    RunConcatenation(Init(requestPrefill), steps, more, cfg);
    AfterLiveSteps(s, poll, process, m, cfg);
    var s1 := RunSteps(s, live, cfg);
    AfterBackSteps(s1, poll, process, cfg);
    var s2 := RunSteps(s1, back, cfg);
    assert s2.handed == s.handed + [Last(s1.handed)] + [Last(s2.handed)];
    PrefillAfterLive(s.handed, Last(s1.handed), Last(s2.handed), |s2.filled|);
    WholeOrderExactlyWhen(requestPrefill, steps + more, cfg);
  }

  lemma WithoutNoneSteps(poll: nat, process: nat, m: Message)
    ensures var more := LiveSteps(poll, process, m) + BackSteps(poll, process);
            forall i :: 0 <= i < |more| ==> !(more[i].PollFetch? && more[i].none)
  {
  }

  // ---------- The None that decides ----------

  /** Every continuation in which None from the prefill subject means that it is empty keeps the order. */
  ghost predicate KeepsOrderFrom(s: State, cfg: Config) {
    forall more :: HonestRun(s, more, cfg) ==> Ordered(RunSteps(s, more, cfg))
  }

  /**
    In a run whose Nones have all been honest so far, a fetch from the prefill subject answers
    None, and the process goes over to live messages. Everything that may follow keeps the order
    exactly if the prefill subject is empty at that moment.
   */
  lemma {:induction false} NoneKeepsOrderExactlyWhen(requestPrefill: bool, steps: seq<Step>, poll: nat, cfg: Config)
    requires cfg.ackLands && !cfg.emptyMeansEmpty && HonestRun(Init(requestPrefill), steps, cfg)
    requires var s := RunSteps(Init(requestPrefill), steps, cfg);
             poll in s.polls && s.polls[poll].stage == Fetching(PrefillSubject)
    ensures var s := RunSteps(Init(requestPrefill), steps, cfg);
            KeepsOrderFrom(Do(s, PollFetch(poll, true), cfg), cfg) <==> PrefillEntries(s) == []
  {
    var init, fetch := Init(requestPrefill), PollFetch(poll, true);
    var s := RunSteps(init, steps, cfg);
    var s' := Do(s, fetch, cfg);
    EveryRunKeeps(requestPrefill, steps, cfg);
    assert s.sub.status == Done;
    hide RunSteps, HonestRun, Do, GateInv, OrderInv;
    assert DropLast(steps + [fetch]) == steps;
    HonestStep(init, steps + [fetch], cfg);
    NextStep(init, steps, fetch, cfg);
    AnsweredNone(s, poll, cfg);
    if PrefillEntries(s) == [] {
      forall more | HonestRun(s', more, cfg)
        ensures Ordered(RunSteps(s', more, cfg))
      {
        HonestConcatenation(init, steps + [fetch], more, cfg);
        RunConcatenation(init, steps + [fetch], more, cfg);
        OrderKeptIfHonest(requestPrefill, steps + [fetch] + more, cfg);
      }
    } else {
      var more := OvertakingRun(requestPrefill, steps + [fetch], cfg, s.polls[poll].process);
      assert HonestRun(s', more, cfg) && !Ordered(RunSteps(s', more, cfg));
    }
  }

  lemma NextStep(s: State, steps: seq<Step>, step: Step, cfg: Config)
    ensures RunSteps(s, steps + [step], cfg) == Do(RunSteps(s, steps, cfg), step, cfg)
  {
    assert DropLast(steps + [step]) == steps;
  }

  lemma AnsweredNone(s: State, poll: nat, cfg: Config)
    requires !cfg.emptyMeansEmpty && poll in s.polls && s.polls[poll].stage == Fetching(PrefillSubject)
    ensures var s' := Do(s, PollFetch(poll, true), cfg);
            s'.sub == s.sub && s.polls[poll].process in s'.flags
  {
  }
}
