/** The message service of the API (server/services/messages.py): the gate from prefill to live messages. */
module MessageService {
  import opened Models
  import opened Sequences
  import opened JetStream
  import opened Stages

  // ---------- The calls of one process, interleaved ----------

  datatype Answer = Received(message: Stored) | Nothing | Raised

  /** A call is known by the position of its Began entry; no status means that there is no such subscription. */
  datatype Observation =
    | Began(name: string)
    | ReadStatus(name: string, call: nat, status: Option<FillQueueStatus>)
    | Fetched(name: string, call: nat, subject: Subject, answer: Answer)

  datatype Call = Call(name: string, stage: Stage)

  /** The names whose _subscription_prefill_done is set, the calls under way, and all that was observed. */
  datatype Process = Process(flags: set<string>, calls: map<nat, Call>, log: seq<Observation>)

  const FRESH := Process({}, map[], [])

  datatype Step =
    | Begin(name: string)
    | Status(call: nat, status: Option<FillQueueStatus>, last: bool)
    | Fetch(call: nat, answer: Answer)

  function DoBegin(s: Process, name: string): Process {
    Process(s.flags, s.calls[|s.log| := Call(name, FirstStage(name in s.flags))], s.log + [Began(name)])
  }

  function DoStatus(s: Process, call: nat, status: Option<FillQueueStatus>, last: bool): Process
    requires call in s.calls
  {
    var next := if status.Some? then NextStage(status.value, last) else None;
    Process(s.flags,
            if next.Some? then s.calls[call := s.calls[call].(stage := next.value)] else s.calls - {call},
            s.log + [ReadStatus(s.calls[call].name, call, status)])
  }

  function DoFetch(s: Process, call: nat, answer: Answer): Process
    requires call in s.calls && s.calls[call].stage.Fetching?
  {
    var c := s.calls[call];
    Process(if OpensLive(c.stage.subject, answer.Nothing?) then s.flags + {c.name} else s.flags,
            s.calls - {call}, s.log + [Fetched(c.name, call, c.stage.subject, answer)])
  }

  /** A step that is not possible in a state leaves it as it is. */
  function Do(s: Process, step: Step): Process {
    match step
    case Begin(name) => DoBegin(s, name)
    case Status(call, status, last) =>
      if call in s.calls && s.calls[call].stage.Asking? then DoStatus(s, call, status, last) else s
    case Fetch(call, answer) =>
      if call in s.calls && s.calls[call].stage.Fetching? then DoFetch(s, call, answer) else s
  }

  function RunSteps(s: Process, steps: seq<Step>): Process {
    if steps == [] then s else Do(RunSteps(s, DropLast(steps)), Last(steps))
  }

  // ---------- What every history shows ----------

  /** Before position n a fetch from the prefill subject of `name` answered None. */
  ghost predicate Drained(log: seq<Observation>, name: string, n: nat) {
    exists j :: 0 <= j < n && j < |log| && IsDrain(log[j], name)
  }

  predicate IsDrain(o: Observation, name: string) {
    o.Fetched? && o.name == name && OpensLive(o.subject, o.answer.Nothing?)
  }

  /** Between its beginning and position n the call read status done. */
  ghost predicate SawDone(log: seq<Observation>, name: string, call: nat, n: nat) {
    exists r :: call < r < n && r < |log| && log[r] == ReadStatus(name, call, Some(Done))
  }

  /**
    A fetch goes to the main subject exactly if the prefill subject was drained before the call
    began, and otherwise to the prefill subject after the call has read status done.
   */
  ghost predicate FetchJustified(log: seq<Observation>, name: string, call: nat, subject: Subject, n: nat) {
    && call < n && call < |log| && log[call] == Began(name)
    && (subject == MainSubject <==> Drained(log, name, call))
    && (subject == PrefillSubject ==> SawDone(log, name, call, n))
  }

  ghost predicate LogJustified(log: seq<Observation>) {
    forall k :: 0 <= k < |log| && log[k].Fetched? ==>
      FetchJustified(log, log[k].name, log[k].call, log[k].subject, k)
  }

  ghost predicate CallJustified(log: seq<Observation>, call: nat, c: Call) {
    && call < |log| && log[call] == Began(c.name)
    && (c.stage.Asking? ==> !Drained(log, c.name, call))
    && (c.stage.Fetching? ==> FetchJustified(log, c.name, call, c.stage.subject, |log|))
  }

  ghost predicate HistoryInv(s: Process) {
    && (forall name :: name in s.flags <==> Drained(s.log, name, |s.log|))
    && (forall call :: call in s.calls ==> CallJustified(s.log, call, s.calls[call]))
    && LogJustified(s.log)
  }

  lemma LongerLog(log: seq<Observation>, o: Observation, name: string, n: nat)
    requires n <= |log|
    ensures Drained(log + [o], name, n) <==> Drained(log, name, n)
    ensures Drained(log + [o], name, |log| + 1) <==> Drained(log, name, |log|) || IsDrain(o, name)
  {
    var longer := log + [o];
    if Drained(longer, name, n) {
      var j :| 0 <= j < n && IsDrain(longer[j], name);
      assert IsDrain(log[j], name);
    }
    if Drained(log, name, n) {
      var j :| 0 <= j < n && IsDrain(log[j], name);
      assert IsDrain(longer[j], name);
    }
    if Drained(longer, name, |log| + 1) {
      var j :| 0 <= j < |log| + 1 && IsDrain(longer[j], name);
      assert j < |log| ==> IsDrain(log[j], name);
    }
    if Drained(log, name, |log|) {
      var j :| 0 <= j < |log| && IsDrain(log[j], name);
      assert IsDrain(longer[j], name);
    }
    assert longer[|log|] == o;
  }

  lemma JustifiedInLongerLog(log: seq<Observation>, o: Observation, name: string, call: nat, subject: Subject, n: nat)
    requires n <= |log| && FetchJustified(log, name, call, subject, n)
    ensures FetchJustified(log + [o], name, call, subject, n)
    ensures n == |log| ==> FetchJustified(log + [o], name, call, subject, n + 1)
  {
    LongerLog(log, o, name, call);
    if subject == PrefillSubject {
      var r :| call < r < n && log[r] == ReadStatus(name, call, Some(Done));
      assert (log + [o])[r] == log[r];
    }
  }

  lemma LogStaysJustified(s: Process, o: Observation)
    requires HistoryInv(s)
    requires o.Fetched? ==> FetchJustified(s.log, o.name, o.call, o.subject, |s.log|)
    ensures LogJustified(s.log + [o])
  {
    hide FetchJustified, Drained, SawDone;
    var longer := s.log + [o];
    forall k | 0 <= k < |longer| && longer[k].Fetched?
      ensures FetchJustified(longer, longer[k].name, longer[k].call, longer[k].subject, k)
    {
      if k < |s.log| {
        assert longer[k] == s.log[k];
      }
      JustifiedInLongerLog(s.log, o, longer[k].name, longer[k].call, longer[k].subject, k);
    }
  }

  lemma CallStaysJustified(log: seq<Observation>, o: Observation, call: nat, c: Call)
    requires CallJustified(log, call, c)
    ensures CallJustified(log + [o], call, c)
  {
    LongerLog(log, o, c.name, call);
    if c.stage.Fetching? {
      JustifiedInLongerLog(log, o, c.name, call, c.stage.subject, |log|);
    }
  }

  lemma AppendKeepsHistory(s: Process, s': Process, o: Observation)
    requires HistoryInv(s) && s'.log == s.log + [o]
    requires forall name :: name in s'.flags <==> name in s.flags || IsDrain(o, name)
    requires forall call :: call in s'.calls ==>
               (call in s.calls && s'.calls[call] == s.calls[call]) || CallJustified(s'.log, call, s'.calls[call])
    requires o.Fetched? ==> FetchJustified(s.log, o.name, o.call, o.subject, |s.log|)
    ensures HistoryInv(s')
  {
    hide CallJustified, Drained, FetchJustified, LogJustified, IsDrain;
    LogStaysJustified(s, o);
    forall name
      ensures name in s'.flags <==> Drained(s'.log, name, |s'.log|)
    {
      LongerLog(s.log, o, name, |s.log|);
    }
    forall call | call in s'.calls
      ensures CallJustified(s'.log, call, s'.calls[call])
    {
      if !CallJustified(s'.log, call, s'.calls[call]) {
        CallStaysJustified(s.log, o, call, s.calls[call]);
      }
    }
  }

  lemma BeginIsJustified(s: Process, name: string)
    requires HistoryInv(s)
    ensures CallJustified(s.log + [Began(name)], |s.log|, Call(name, FirstStage(name in s.flags)))
  {
    LongerLog(s.log, Began(name), name, |s.log|);
  }

  lemma StatusIsJustified(s: Process, call: nat, status: FillQueueStatus, last: bool)
    requires HistoryInv(s) && call in s.calls && s.calls[call].stage.Asking? && NextStage(status, last).Some?
    ensures CallJustified(s.log + [ReadStatus(s.calls[call].name, call, Some(status))], call,
                          s.calls[call].(stage := NextStage(status, last).value))
  {
    var name := s.calls[call].name;
    var o := ReadStatus(name, call, Some(status));
    LongerLog(s.log, o, name, call);
    assert (s.log + [o])[|s.log|] == o;
  }

  lemma StepKeepsHistory(s: Process, step: Step)
    requires HistoryInv(s)
    ensures HistoryInv(Do(s, step)) && s.flags <= Do(s, step).flags
  {
    hide CallJustified, FetchJustified, LogJustified, Drained;
    var s' := Do(s, step);
    if s'.log != s.log {
      var o := Last(s'.log);
      assert s'.log == s.log + [o];
      match step {
        case Begin(name) => BeginIsJustified(s, name);
        case Status(call, status, last) =>
          if status.Some? && NextStage(status.value, last).Some? {
            StatusIsJustified(s, call, status.value, last);
          }
        case Fetch(call, answer) => FetchIsJustified(s.log, call, s.calls[call]);
      }
      AppendKeepsHistory(s, s', o);
    } else {
      LogGrows(s, step);
    }
  }

  lemma FetchIsJustified(log: seq<Observation>, call: nat, c: Call)
    requires CallJustified(log, call, c) && c.stage.Fetching?
    ensures FetchJustified(log, c.name, call, c.stage.subject, |log|)
  {
  }

  lemma LogGrows(s: Process, step: Step)
    ensures Do(s, step) == s || |Do(s, step).log| == |s.log| + 1
  {
  }

  lemma {:induction false} EveryHistory(steps: seq<Step>)
    ensures HistoryInv(RunSteps(FRESH, steps))
  {
    if steps != [] {
      EveryHistory(DropLast(steps));
      StepKeepsHistory(RunSteps(FRESH, DropLast(steps)), Last(steps));
    }
  }

  /**
    In every history of a fresh process, with any number of calls under way at once and whatever
    the queue answers: a call fetches a live message exactly if a fetch from the prefill subject
    of that name had answered None before the call began, and that fetch came after status done
    was read. Any other fetch is from the prefill subject, after a read of status done.
   */
  lemma GateHistory(steps: seq<Step>, k: nat)
    requires var log := RunSteps(FRESH, steps).log; k < |log| && log[k].Fetched?
    ensures var log := RunSteps(FRESH, steps).log;
            var o := log[k];
            && o.call < k && log[o.call] == Began(o.name)
            && (o.subject == MainSubject <==> exists j :: 0 <= j < o.call && IsDrain(log[j], o.name))
            && (o.subject == PrefillSubject ==> SawDone(log, o.name, o.call, k))
            && (forall j :: 0 <= j < o.call && IsDrain(log[j], o.name) ==>
                  SawDone(log, o.name, log[j].call, j))
  {
    EveryHistory(steps);
    var log := RunSteps(FRESH, steps).log;
    assert FetchJustified(log, log[k].name, log[k].call, log[k].subject, k);
  }

  /** The flag is set exactly if a prefill fetch has answered None, and is never taken back. */
  lemma FlagsAreFinal(steps: seq<Step>, step: Step, name: string)
    ensures var s := RunSteps(FRESH, steps);
            && s.flags <= Do(s, step).flags
            && (name in s.flags <==> exists j :: 0 <= j < |s.log| && IsDrain(s.log[j], name))
  {
    EveryHistory(steps);
    StepKeepsHistory(RunSteps(FRESH, steps), step);
    var s := RunSteps(FRESH, steps);
    assert Drained(s.log, name, |s.log|) <==> exists j :: 0 <= j < |s.log| && IsDrain(s.log[j], name);
  }

  /** Of two calls for one name at the same time, the second still reads prefill after the first has drained it. */
  lemma OverlappingCallsGoBack(name: string, late: Stored)
    ensures var steps := [Begin(name), Begin(name), Status(0, Some(Done), false), Fetch(0, Nothing),
                          Status(1, Some(Done), false), Fetch(1, Received(late))];
            var log := RunSteps(FRESH, steps).log;
            |log| == 6 && IsDrain(log[3], name) && log[5] == Fetched(name, 1, PrefillSubject, Received(late))
  {
    hide RunSteps;
    var begin, done, none := Begin(name), Status(0, Some(Done), false), Fetch(0, Nothing);
    var doneToo, receive := Status(1, Some(Done), false), Fetch(1, Received(late));
    assert [begin] + [begin] == [begin, begin];
    assert [begin, begin] + [done] == [begin, begin, done];
    assert [begin, begin, done] + [none] == [begin, begin, done, none];
    assert [begin, begin, done, none] + [doneToo] == [begin, begin, done, none, doneToo];
    assert [begin, begin, done, none, doneToo] + [receive] == [begin, begin, done, none, doneToo, receive];
    OneStep(FRESH, begin);
    NextStep(FRESH, [begin], begin);
    NextStep(FRESH, [begin, begin], done);
    NextStep(FRESH, [begin, begin, done], none);
    NextStep(FRESH, [begin, begin, done, none], doneToo);
    NextStep(FRESH, [begin, begin, done, none, doneToo], receive);
  }

  lemma NextStep(s: Process, steps: seq<Step>, step: Step)
    ensures RunSteps(s, steps + [step]) == Do(RunSteps(s, steps), step)
  {
    assert DropLast(steps + [step]) == steps;
  }

  // ---------- One undisturbed call ----------

  /** Everything outside answers as it likes at each point of the history. */
  datatype Environment = Environment(
    status: (nat, string) -> Option<FillQueueStatus>,
    fetch: (nat, string, Subject) -> Answer)

  /** The reads of one call while `rounds` of them begin before the deadline. */
  function AskingSteps(env: Environment, t: nat, call: nat, name: string, rounds: nat): (steps: seq<Step>)
    ensures steps != [] && Last(steps).Status?
    decreases rounds
  {
    var status := env.status(t, name);
    if rounds == 0 then [Status(call, status, true)]
    else if status.None? || status.value == Done then [Status(call, status, false)]
    else [Status(call, status, false)] + AskingSteps(env, t + 1, call, name, rounds - 1)
  }

  lemma AskingUnfolds(env: Environment, t: nat, call: nat, name: string, rounds: nat)
    ensures var steps, status := AskingSteps(env, t, call, name, rounds), env.status(t, name);
            if rounds > 0 && status.Some? && status.value != Done then
              var rest := AskingSteps(env, t + 1, call, name, rounds - 1);
              steps == [Status(call, status, false)] + rest && Last(steps) == Last(rest)
            else steps == [Status(call, status, rounds == 0)] && Last(steps).status == status
  {
  }

  /** The steps of one undisturbed call. */
  function CallSteps(env: Environment, s: Process, name: string, rounds: nat): seq<Step> {
    var call := |s.log|;
    if name in s.flags then [Begin(name), Fetch(call, env.fetch(call + 1, name, MainSubject))]
    else
      var asking := AskingSteps(env, call + 1, call, name, rounds);
      var t := call + 1 + |asking|;
      [Begin(name)] + asking
      + if Last(asking).status == Some(Done) then [Fetch(call, env.fetch(t, name, PrefillSubject))] else []
  }

  lemma {:induction false} RunConcatenation(s: Process, a: seq<Step>, b: seq<Step>)
    ensures RunSteps(s, a + b) == RunSteps(RunSteps(s, a), b)
  {
    if b == [] {
      assert a + b == a;
    } else {
      RunConcatenation(s, a, DropLast(b));
      assert DropLast(a + b) == a + DropLast(b);
    }
  }

  lemma OneStep(s: Process, step: Step)
    ensures RunSteps(s, [step]) == Do(s, step)
  {
    NextStep(s, [], step);
    assert [] + [step] == [step];
  }

  ghost predicate IsAsking(s: Process, call: nat, name: string) {
    call in s.calls && s.calls[call] == Call(name, Asking)
  }

  /** The reads of a call: it goes on to the prefill subject exactly if the last of them says done. */
  lemma {:induction false} AskingOutcome(env: Environment, s: Process, call: nat, name: string, rounds: nat)
    requires IsAsking(s, call, name)
    ensures var steps := AskingSteps(env, |s.log|, call, name, rounds);
            var s' := RunSteps(s, steps);
            && s'.flags == s.flags && |s'.log| == |s.log| + |steps| && s.log <= s'.log
            && (forall i :: |s.log| <= i < |s'.log| ==> s'.log[i].ReadStatus?)
            && s'.log[|s'.log| - 1].status == Last(steps).status
            && s'.calls == if Last(steps).status == Some(Done)
                           then s.calls[call := Call(name, Fetching(PrefillSubject))] else s.calls - {call}
    decreases rounds
  {
    hide RunSteps;
    var status := env.status(|s.log|, name);
    var over := rounds == 0 || status.None? || status.value == Done;
    var step := Status(call, status, rounds == 0);
    OneStep(s, step);
    if !over {
      assert s.calls[call := Call(name, Asking)] == s.calls;
      var rest := AskingSteps(env, |s.log| + 1, call, name, rounds - 1);
      RunConcatenation(s, [step], rest);
      AskingOutcome(env, Do(s, step), call, name, rounds - 1);
      assert Last([step] + rest) == Last(rest);
    }
  }

  /** A whole call leaves none under way, and its fetch, if it gets to one, is the last thing it does. */
  lemma CallOutcome(env: Environment, s: Process, name: string, rounds: nat)
    requires s.calls == map[]
    ensures var s' := RunSteps(s, CallSteps(env, s, name, rounds));
            && s'.calls == map[] && s.log < s'.log
            && (forall i :: |s.log| <= i < |s'.log| && s'.log[i].Fetched? ==>
                  i == |s'.log| - 1 && s'.log[i].call == |s.log|)
  {
    hide RunSteps, AskingSteps;
    var call, begun := |s.log|, Do(s, Begin(name));
    OneStep(s, Begin(name));
    assert begun.calls[call].name == name;
    if name in s.flags {
      var fetch := Fetch(call, env.fetch(call + 1, name, MainSubject));
      NextStep(s, [Begin(name)], fetch);
      assert [Begin(name)] + [fetch] == CallSteps(env, s, name, rounds);
      assert begun.calls - {call} == map[];
    } else {
      var asking := AskingSteps(env, call + 1, call, name, rounds);
      RunConcatenation(s, [Begin(name)], asking);
      AskingOutcome(env, begun, call, name, rounds);
      var asked := RunSteps(begun, asking);
      if Last(asking).status == Some(Done) {
        var fetch := Fetch(call, env.fetch(call + 1 + |asking|, name, PrefillSubject));
        NextStep(s, [Begin(name)] + asking, fetch);
        assert asked.calls - {call} == map[];
      } else {
        assert [Begin(name)] + asking + [] == [Begin(name)] + asking;
        assert begun.calls - {call} == map[];
      }
    }
  }

  // ---------- What a call waits for ----------

  /** What the i-th read of the status answers if the first one is made at position t. */
  function ReadAt(env: Environment, t: nat, name: string, i: nat): Option<FillQueueStatus> {
    env.status(t + i, name)
  }

  /** The status is there and not done, so it is worth reading again. */
  predicate NotYet(status: Option<FillQueueStatus>) {
    status.Some? && status.value != Done
  }

  /** From the i-th read on: the first that does not say `not yet`, or the one after the deadline. */
  function LastRead(env: Environment, t: nat, name: string, rounds: nat, i: nat): (j: nat)
    requires i <= rounds
    ensures i <= j <= rounds
    ensures forall k :: i <= k < j ==> NotYet(ReadAt(env, t, name, k))
    ensures j == rounds || !NotYet(ReadAt(env, t, name, j))
    decreases rounds - i
  {
    if i == rounds || !NotYet(ReadAt(env, t, name, i)) then i else LastRead(env, t, name, rounds, i + 1)
  }

  /** The i-th to the (j - 1)-th read of a call. */
  function Reads(env: Environment, t: nat, call: nat, name: string, i: nat, j: nat): seq<Observation>
    requires i <= j
  {
    seq(j - i, (k: nat) => ReadStatus(name, call, ReadAt(env, t, name, i + k)))
  }

  lemma ReadsFirst(env: Environment, t: nat, call: nat, name: string, i: nat, j: nat)
    requires i < j
    ensures Reads(env, t, call, name, i, j) ==
            [ReadStatus(name, call, ReadAt(env, t, name, i))] + Reads(env, t, call, name, i + 1, j)
  {
  }

  /** The reads of a call end at the first that answers anything else than `not yet`, or after the deadline. */
  lemma {:induction false} AskingReads(env: Environment, s: Process, t: nat, call: nat, name: string, rounds: nat,
                                       i: nat)
    requires IsAsking(s, call, name) && i <= rounds && |s.log| == t + i
    ensures var steps, j := AskingSteps(env, t + i, call, name, rounds - i), LastRead(env, t, name, rounds, i);
            && RunSteps(s, steps).log == s.log + Reads(env, t, call, name, i, j + 1)
            && Last(steps).status == ReadAt(env, t, name, j) && |steps| == j + 1 - i
    decreases rounds - i
  {
    hide RunSteps, Reads;
    var status := ReadAt(env, t, name, i);
    var step := Status(call, status, i == rounds);
    ReadsFirst(env, t, call, name, i, LastRead(env, t, name, rounds, i) + 1);
    OneStep(s, step);
    if i == rounds || !NotYet(status) {
      NoReads(env, t, call, name, i + 1);
    } else {
      var rest := AskingSteps(env, t + i + 1, call, name, rounds - i - 1);
      assert s.calls[call := Call(name, Asking)] == s.calls;
      RunConcatenation(s, [step], rest);
      AskingReads(env, Do(s, step), t, call, name, rounds, i + 1);
      assert Last([step] + rest) == Last(rest);
    }
  }

  lemma NoReads(env: Environment, t: nat, call: nat, name: string, i: nat)
    ensures Reads(env, t, call, name, i, i) == []
  {
  }

  /**
    All that a call that begins at position t leaves in the log: with the flag, one fetch from the
    main subject; without it, reads of the status until it is done, the subscription is missing
    or the deadline has passed, and a fetch from the prefill subject if the last one said done.
   */
  function CallLog(env: Environment, t: nat, name: string, flag: bool, rounds: nat): seq<Observation> {
    if flag then [Began(name), Fetched(name, t, MainSubject, env.fetch(t + 1, name, MainSubject))]
    else
      var j := LastRead(env, t + 1, name, rounds, 0);
      [Began(name)] + Reads(env, t + 1, t, name, 0, j + 1)
      + if ReadAt(env, t + 1, name, j) == Some(Done)
        then [Fetched(name, t, PrefillSubject, env.fetch(t + j + 2, name, PrefillSubject))] else []
  }

  lemma {:induction false} CallLeaves(env: Environment, s: Process, name: string, rounds: nat)
    requires s.calls == map[]
    ensures RunSteps(s, CallSteps(env, s, name, rounds)).log ==
            s.log + CallLog(env, |s.log|, name, name in s.flags, rounds)
  {
    hide RunSteps, AskingSteps, Reads;
    var t, begun := |s.log|, Do(s, Begin(name));
    OneStep(s, Begin(name));
    if name in s.flags {
      var fetch := Fetch(t, env.fetch(t + 1, name, MainSubject));
      NextStep(s, [Begin(name)], fetch);
      assert [Begin(name)] + [fetch] == CallSteps(env, s, name, rounds);
    } else {
      var asking := AskingSteps(env, t + 1, t, name, rounds);
      RunConcatenation(s, [Begin(name)], asking);
      AskingOutcome(env, begun, t, name, rounds);
      AskingReads(env, begun, t + 1, t, name, rounds, 0);
      if Last(asking).status == Some(Done) {
        NextStep(s, [Begin(name)] + asking, Fetch(t, env.fetch(t + 1 + |asking|, name, PrefillSubject)));
      } else {
        assert [Begin(name)] + asking + [] == [Begin(name)] + asking;
      }
    }
  }

  /** The j-th read answers so, comes at most right after the deadline, and no read before it ended the waiting. */
  predicate Sees(env: Environment, t: nat, name: string, rounds: nat, j: nat, status: Option<FillQueueStatus>) {
    && j <= rounds && ReadAt(env, t, name, j) == status
    && forall i :: 0 <= i < j ==> NotYet(ReadAt(env, t, name, i))
  }

  lemma SeenLast(env: Environment, t: nat, name: string, rounds: nat, j: nat, status: Option<FillQueueStatus>)
    requires !NotYet(status)
    ensures Sees(env, t, name, rounds, j, status) <==>
            j == LastRead(env, t, name, rounds, 0) && ReadAt(env, t, name, j) == status
  {
    var last := LastRead(env, t, name, rounds, 0);
    if Sees(env, t, name, rounds, j, status) {
      assert j < last ==> NotYet(ReadAt(env, t, name, j));
    }
  }

  lemma CallLogShape(env: Environment, t: nat, name: string, rounds: nat)
    ensures var log, j := CallLog(env, t, name, false, rounds), LastRead(env, t + 1, name, rounds, 0);
            var status := ReadAt(env, t + 1, name, j);
            && log != [] && log[0] == Began(name)
            && (forall k :: 0 <= k < |log| && log[k].Fetched? ==> k == j + 2)
            && (if status == Some(Done)
                then |log| == j + 3
                     && Last(log) == Fetched(name, t, PrefillSubject, env.fetch(t + j + 2, name, PrefillSubject))
                else |log| == j + 2 && Last(log) == ReadStatus(name, t, status))
  {
  }

  /**
    An undisturbed call of a name without the flag fetches, and then from the prefill subject,
    exactly if one of its reads up to the one after the deadline says done and all reads before
    it are neither done nor missing. A call without such a read makes all its reads, or stops at
    the first that finds no subscription.
   */
  lemma {:induction false} PrefillIsFetchedExactlyWhen(env: Environment, s: Process, name: string, rounds: nat)
    requires s.calls == map[] && name !in s.flags
    ensures var t, first, log := |s.log|, |s.log| + 1, RunSteps(s, CallSteps(env, s, name, rounds)).log;
            && s.log < log && log[t] == Began(name)
            && ((exists k :: t <= k < |log| && log[k].Fetched?) <==>
                exists j :: Sees(env, first, name, rounds, j, Some(Done)))
            && (forall j :: Sees(env, first, name, rounds, j, Some(Done)) ==>
                  |log| == t + j + 3
                  && Last(log) == Fetched(name, t, PrefillSubject, env.fetch(t + j + 2, name, PrefillSubject)))
            && (forall j :: Sees(env, first, name, rounds, j, None) ==>
                  |log| == t + j + 2 && Last(log) == ReadStatus(name, t, None))
            && ((forall j :: !Sees(env, first, name, rounds, j, Some(Done))
                             && !Sees(env, first, name, rounds, j, None)) ==>
                  |log| == t + rounds + 2
                  && Last(log) == ReadStatus(name, t, ReadAt(env, first, name, rounds)))
  {
    hide RunSteps, CallSteps, CallLog, Sees, LastRead, ReadAt;
    var t, first, log := |s.log|, |s.log| + 1, RunSteps(s, CallSteps(env, s, name, rounds)).log;
    var last, call := LastRead(env, first, name, rounds, 0), CallLog(env, t, name, false, rounds);
    CallLeaves(env, s, name, rounds);
    CallLogShape(env, t, name, rounds);
    forall j: nat
      ensures Sees(env, first, name, rounds, j, Some(Done)) <==> j == last && ReadAt(env, first, name, j) == Some(Done)
      ensures Sees(env, first, name, rounds, j, None) <==> j == last && ReadAt(env, first, name, j) == None
    {
      SeenLast(env, first, name, rounds, j, Some(Done));
      SeenLast(env, first, name, rounds, j, None);
    }
    assert forall k :: t <= k < |log| ==> log[k] == call[k - t];
    assert Last(log) == Last(call);
  }

  // ---------- One call after the other ----------

  datatype Request = Request(name: string, rounds: nat)

  function CallAll(env: Environment, requests: seq<Request>): Process {
    if requests == [] then FRESH
    else
      var s := CallAll(env, DropLast(requests));
      RunSteps(s, CallSteps(env, s, Last(requests).name, Last(requests).rounds))
  }

  /** No fetch of another call lies between the beginning of a call and its fetch. */
  ghost predicate Undisturbed(log: seq<Observation>) {
    forall i, k :: 0 <= i < k < |log| && log[i].Fetched? && log[k].Fetched? ==> i < log[k].call
  }

  lemma {:induction false} CallsInSequence(env: Environment, requests: seq<Request>)
    ensures var s := CallAll(env, requests);
            HistoryInv(s) && s.calls == map[] && Undisturbed(s.log)
  {
    if requests == [] {
      EveryHistory([]);
    } else {
      var s, last := CallAll(env, DropLast(requests)), Last(requests);
      CallsInSequence(env, DropLast(requests));
      hide HistoryInv, CallSteps, RunSteps;
      CallOutcome(env, s, last.name, last.rounds);
      StepsKeepHistory(s, CallSteps(env, s, last.name, last.rounds));
    }
  }

  lemma {:induction false} StepsKeepHistory(s: Process, steps: seq<Step>)
    requires HistoryInv(s)
    ensures HistoryInv(RunSteps(s, steps))
  {
    if steps != [] {
      StepsKeepHistory(s, DropLast(steps));
      StepKeepsHistory(RunSteps(s, DropLast(steps)), Last(steps));
    }
  }

  /**
    When the calls for a name do not overlap, a fetch from its prefill subject that answers None
    is the last one: every later fetch is from the main subject.
   */
  lemma SequentialCallsNeverGoBack(env: Environment, requests: seq<Request>, j: nat, k: nat)
    requires var log := CallAll(env, requests).log;
             j < k < |log| && log[k].Fetched? && IsDrain(log[j], log[k].name)
    ensures CallAll(env, requests).log[k].subject == MainSubject
  {
    CallsInSequence(env, requests);
    var log := CallAll(env, requests).log;
    assert FetchJustified(log, log[k].name, log[k].call, log[k].subject, k);
    assert Drained(log, log[k].name, log[k].call);
  }

  // ---------- The service ----------

  class Port {
    const env: Environment
    var log: seq<Observation>

    constructor (env: Environment)
      ensures this.env == env && log == []
    {
      this.env, log := env, [];
    }

    method Note(name: string)
      modifies this`log
      ensures log == old(log) + [Began(name)]
    {
      log := log + [Began(name)];
    }

    method GetSubscriptionQueueStatus(name: string, call: nat) returns (status: Option<FillQueueStatus>)
      modifies this`log
      ensures status == env.status(old(|log|), name)
      ensures log == old(log) + [ReadStatus(name, call, status)]
    {
      status := env.status(|log|, name);
      log := log + [ReadStatus(name, call, status)];
    }

    method GetMessage(name: string, subject: Subject, call: nat) returns (answer: Answer)
      modifies this`log
      ensures answer == env.fetch(old(|log|), name, subject)
      ensures log == old(log) + [Fetched(name, call, subject, answer)]
    {
      answer := env.fetch(|log|, name, subject);
      log := log + [Fetched(name, call, subject, answer)];
    }
  }

  class MessageService {
    const port: Port
    var subscriptionPrefillDone: map<string, bool>

    /** The process as seen between two calls. */
    function Now(): Process
      reads this, port
    {
      Process(set n | n in subscriptionPrefillDone && subscriptionPrefillDone[n], map[], port.log)
    }

    constructor (env: Environment)
      ensures Now() == FRESH && fresh(port) && port.env == env
    {
      port := new Port(env);
      subscriptionPrefillDone := map[];
    }

    /** Polls the status until it is done, the subscription is missing, or the deadline has passed. */
    method CheckSubscriptionStatus(name: string, rounds: nat, call: nat, ghost s: Process)
      returns (status: Option<FillQueueStatus>)
      requires s.log == port.log && IsAsking(s, call, name)
      modifies port`log
      ensures var steps := AskingSteps(port.env, |s.log|, call, name, rounds);
              port.log == RunSteps(s, steps).log && status == Last(steps).status
      ensures var j := LastRead(port.env, |s.log|, name, rounds, 0);
              && port.log == s.log + Reads(port.env, |s.log|, call, name, 0, j + 1)
              && status == ReadAt(port.env, |s.log|, name, j)
    {
      hide RunSteps, Reads, LastRead, AskingSteps;
      AskingReads(port.env, s, |s.log|, call, name, rounds, 0);
      AskingOutcome(port.env, s, call, name, rounds);
      ghost var all, last := RunSteps(s, AskingSteps(port.env, |s.log|, call, name, rounds)),
                             Last(AskingSteps(port.env, |s.log|, call, name, rounds));
      var left: nat := rounds;
      ghost var now := s;
      while left > 0
        invariant left <= rounds && now.log == port.log && IsAsking(now, call, name)
        invariant all == RunSteps(now, AskingSteps(port.env, |now.log|, call, name, left))
        invariant last == Last(AskingSteps(port.env, |now.log|, call, name, left))
      {
        ghost var t := |now.log|;
        AskingUnfolds(port.env, t, call, name, left);
        status := port.GetSubscriptionQueueStatus(name, call);
        OneStep(now, Status(call, status, false));
        if status.None? || status.value == Done {
          return;
        }
        RunConcatenation(now, [Status(call, status, false)], AskingSteps(port.env, t + 1, call, name, left - 1));
        AskingOutcome(port.env, Do(now, Status(call, status, false)), call, name, left - 1);
        now := Do(now, Status(call, status, false));
        left := left - 1;
      }
      AskingUnfolds(port.env, |now.log|, call, name, 0);
      status := port.GetSubscriptionQueueStatus(name, call);
      OneStep(now, Status(call, status, true));
    }

    /** Raised stands for any exception: a missing subscription, or a failed fetch. */
    method GetNextMessage(name: string, rounds: nat) returns (answer: Answer)
      modifies this`subscriptionPrefillDone, port`log
      ensures Now() == RunSteps(old(Now()), CallSteps(port.env, old(Now()), name, rounds))
      ensures Now().log == old(Now().log) +
                           CallLog(port.env, old(|Now().log|), name, name in old(Now().flags), rounds)
      ensures Now().log != []
      ensures var o := Last(Now().log);
              answer == if o.Fetched? then o.answer
                        else if o.ReadStatus? && o.status.None? then Raised else Nothing
    {
      hide RunSteps, AskingSteps, CallLog;
      ghost var s := Now();
      CallLeaves(port.env, s, name, rounds);
      var call := |port.log|;
      port.Note(name);
      ghost var begun := Do(s, Begin(name));
      OneStep(s, Begin(name));
      assert begun.calls - {call} == map[];
      if name in subscriptionPrefillDone && subscriptionPrefillDone[name] {
        answer := port.GetMessage(name, MainSubject, call);
        NextStep(s, [Begin(name)], Fetch(call, answer));
        assert [Begin(name)] + [Fetch(call, answer)] == CallSteps(port.env, s, name, rounds);
        return;
      }
      ghost var asking := AskingSteps(port.env, call + 1, call, name, rounds);
      AskingOutcome(port.env, begun, call, name, rounds);
      RunConcatenation(s, [Begin(name)], asking);
      var status := CheckSubscriptionStatus(name, rounds, call, begun);
      ghost var asked := RunSteps(begun, asking);
      if status.None? || status.value != Done {
        assert [Begin(name)] + asking + [] == [Begin(name)] + asking;
        return if status.None? then Raised else Nothing;
      }
      answer := port.GetMessage(name, PrefillSubject, call);
      NextStep(s, [Begin(name)] + asking, Fetch(call, answer));
      assert asked.calls - {call} == map[];
      if answer.Nothing? {
        subscriptionPrefillDone := subscriptionPrefillDone[name := true];
      }
    }
  }
}
