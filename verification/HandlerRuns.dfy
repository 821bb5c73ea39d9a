/** What a run of the consumer's handler does with each message, told from its log and its surroundings alone. */
module HandlerRuns {
  import opened Models
  import opened Sequences
  import opened JetStream
  import opened Handler

  // ---------- Every handled message is acknowledged ----------

  /** The events from p to e: everything between one poll and the next, or the end of the run. */
  predicate IsRound(log: seq<Event>, p: nat, e: nat) {
    && p < e <= |log| && log[p].Polled?
    && (forall q :: p < q < e ==> !log[q].Polled?)
    && (e == |log| || log[e].Polled?)
  }

  /** All callbacks ran on the message in list order, and none raised. */
  predicate AllRan(events: seq<Event>, m: Stored, callbacks: nat) {
    RanAll(m, callbacks) <= events
  }

  /** The callbacks ran in list order up to one that raised, and nothing happened after that. */
  predicate OneRaised(events: seq<Event>, m: Stored, callbacks: nat) {
    var n := |events| - 1;
    0 <= n < callbacks && events == RanAll(m, n) + [Raised(n, m)]
  }

  /** Tries to acknowledge m: one at least, the next one only after a refusal and a growing pause. */
  predicate Tries(events: seq<Event>, m: Stored, maxRetries: nat) {
    && events != []
    && (forall e :: e in events ==> e.Slept? || (e.AckTried? && e.message == m))
    && 1 <= Attempts(events) <= maxRetries + 1
    && Sleeps(events) == Attempts(events) - 1
    && SleepTime(events) == TotalBackoff(Sleeps(events))
    && (forall k :: 0 <= k < |events| - 1 ==> events[k].Slept? || events[k] == AckTried(m, Refused))
    && (Last(events) in {AckTried(m, Acked), AckTried(m, Escaped)}
        || (Last(events) == AckTried(m, Refused) && Attempts(events) == maxRetries + 1))
  }

  /** What follows the receipt of a message up to the next poll. */
  ghost predicate Settled(events: seq<Event>, m: Stored, settings: Settings) {
    || OneRaised(events, m, settings.callbacks)
    || (&& AllRan(events, m, settings.callbacks)
        && var rest := events[settings.callbacks..];
           if settings.popAfterHandling && settings.maxRetries >= 0 then Tries(rest, m, settings.maxRetries)
           else rest == [])
  }

  lemma CallbacksAll(env: Environment, t: nat, m: Stored, callbacks: nat)
    ensures var ran := CallbackLog(env, t, m, 0, callbacks);
            || ran == RanAll(m, callbacks)
            || OneRaised(ran, m, callbacks)
  {
    hide *;
    CallbacksInOrder(env, t, m, 0, callbacks);
    RanOrRaised(CallbackLog(env, t, m, 0, callbacks), m, callbacks);
  }

  lemma RanOrRaised(ran: seq<Event>, m: Stored, callbacks: nat)
    requires forall k :: 0 <= k < |ran| ==> ran[k] == Ran(k, m) || (ran[k] == Raised(k, m) && k == |ran| - 1)
    requires |ran| <= callbacks && (|ran| < callbacks ==> ran != [] && Last(ran).Raised?)
    ensures ran == RanAll(m, callbacks) || OneRaised(ran, m, callbacks)
  {
    if ran != [] && Last(ran).Raised? {
      assert ran == RanAll(m, |ran| - 1) + [Raised(|ran| - 1, m)];
    }
  }

  lemma AcksAreTries(env: Environment, t: nat, m: Stored, maxRetries: int)
    ensures var acks := AckLog(env, t, m, 0, maxRetries);
            if maxRetries >= 0 then Tries(acks, m, maxRetries) else acks == []
  {
    hide AckLog, Attempts, Sleeps, SleepTime;
    if maxRetries >= 0 {
      AckEffort(env, t, m, maxRetries);
      AckLogShape(env, t, m, 0, maxRetries);
      AckLogUnfolds(env, t, m, 0, maxRetries);
    } else {
      NoRetriesLeft(env, t, m, 0, maxRetries);
    }
  }

  lemma HandleSettles(env: Environment, settings: Settings, t: nat, m: Stored)
    ensures Settled(HandleLog(env, settings, t, m), m, settings)
  {
    hide CallbackLog, AckLog, RanAll, Tries;
    var ran := CallbackLog(env, t, m, 0, settings.callbacks);
    CallbacksAll(env, t, m, settings.callbacks);
    AcksAreTries(env, t + |ran|, m, settings.maxRetries);
    RanAllLast(m, settings.callbacks);
    assert ran + [] == ran;
  }

  lemma RanAllLast(m: Stored, callbacks: nat)
    ensures |RanAll(m, callbacks)| == callbacks
    ensures forall e :: e in RanAll(m, callbacks) ==> e.Ran? && e.message == m
  {
  }

  lemma SettledShape(events: seq<Event>, m: Stored, settings: Settings)
    requires Settled(events, m, settings)
    ensures forall e :: e in events ==> !e.Polled?
    ensures (exists e :: e in events && e.AckTried?) <==>
            AllRan(events, m, settings.callbacks) && settings.popAfterHandling && settings.maxRetries >= 0
  {
    RanAllLast(m, settings.callbacks);
    hide RanAll, Attempts, Sleeps, SleepTime;
    if OneRaised(events, m, settings.callbacks) {
      RanAllLast(m, |events| - 1);
      assert Last(events).Raised?;
      assert forall e :: e in events ==> e in RanAll(m, |events| - 1) || e == Last(events);
      assert |events| == settings.callbacks ==> Last(RanAll(m, settings.callbacks)) in RanAll(m, settings.callbacks);
    } else {
      var rest := events[settings.callbacks..];
      assert events == RanAll(m, settings.callbacks) + rest;
      if rest != [] {
        assert rest[0] in rest && rest[0] in events;
        assert |rest| == 1 ==> rest[0] == Last(rest);
      }
    }
  }

  lemma RoundOfLongerLog(log: seq<Event>, more: seq<Event>, p: nat, e: nat)
    requires IsRound(log + more, p, e) && p < |log| && (more == [] || more[0].Polled?)
    ensures e <= |log| && IsRound(log, p, e) && (log + more)[p + 1..e] == log[p + 1..e] && (log + more)[p] == log[p]
  {
    if more != [] {
      assert (log + more)[|log|] == more[0];
    }
    assert forall q :: 0 <= q < |log| ==> (log + more)[q] == log[q];
  }

  lemma LastRound(log: seq<Event>, answer: Answer, events: seq<Event>, p: nat, e: nat)
    requires IsRound(log + [Polled(answer)] + events, p, e) && p >= |log|
    requires forall x :: x in events ==> !x.Polled?
    ensures var longer := log + [Polled(answer)] + events;
            p == |log| && e == |longer| && longer[p] == Polled(answer) && longer[p + 1..e] == events
  {
    var longer := log + [Polled(answer)] + events;
    forall q | |log| < q < |longer|
      ensures !longer[q].Polled?
    {
      assert longer[q] == events[q - |log| - 1] && longer[q] in events;
    }
  }

  /**
    In every run, between the receipt of a message and the next poll or the end, either one
    callback raises, and nothing is acknowledged, or all of them run in list order. Then the
    message is acknowledged, in one to maxRetries + 1 tries with growing pauses, exactly if
    popAfterHandling is set and maxRetries is not negative.
   */
  lemma {:induction false} HandledIsAcknowledgedExactlyWhen(env: Environment, settings: Settings, n: nat,
                                                            p: nat, e: nat)
    requires IsRound(Rounds(env, settings, n).log, p, e) && IsReceived(Rounds(env, settings, n).log[p])
    ensures var log := Rounds(env, settings, n).log;
            var m, events := log[p].answer.message, log[p + 1..e];
            && Settled(events, m, settings)
            && ((exists k :: p < k < e && log[k].AckTried?) <==>
                AllRan(events, m, settings.callbacks) && settings.popAfterHandling && settings.maxRetries >= 0)
  {
    hide Settled, HandleLog, Round, AllRan, IsRound;
    RoundSettles(env, settings, n, p, e);
    var log := Rounds(env, settings, n).log;
    var events := log[p + 1..e];
    SettledShape(events, log[p].answer.message, settings);
    if x :| x in events && x.AckTried? {
      var i :| 0 <= i < |events| && events[i] == x;
      assert log[p + 1 + i] == x;
    }
    if k :| p < k < e && log[k].AckTried? {
      assert log[k] == events[k - p - 1];
    }
  }

  lemma {:induction false} RoundSettles(env: Environment, settings: Settings, n: nat, p: nat, e: nat)
    requires IsRound(Rounds(env, settings, n).log, p, e) && IsReceived(Rounds(env, settings, n).log[p])
    ensures p < e <= |Rounds(env, settings, n).log|
    ensures var log := Rounds(env, settings, n).log; Settled(log[p + 1..e], log[p].answer.message, settings)
  {
    hide Settled, HandleLog, Round, IsRound;
    RoundIn(Rounds(env, settings, n).log, p, e);
    if n > 0 {
      var s := Rounds(env, settings, n - 1);
      var answer := env.poll(|s.log|);
      RoundAppends(env, settings, s);
      var events := if answer.Got? then HandleLog(env, settings, |s.log| + 1, answer.message) else [];
      if s.phase == Looping && p >= |s.log| {
        NewRoundSettles(env, settings, s.log, events, p, e);
      } else {
        var more := if s.phase == Looping then [Polled(answer)] + events else [];
        assert Rounds(env, settings, n).log == s.log + more;
        RoundOfLongerLog(s.log, more, p, e);
        RoundSettles(env, settings, n - 1, p, e);
      }
    }
  }

  lemma NewRoundSettles(env: Environment, settings: Settings, log: seq<Event>, events: seq<Event>, p: nat, e: nat)
    requires var answer := env.poll(|log|);
             events == if answer.Got? then HandleLog(env, settings, |log| + 1, answer.message) else []
    requires var longer := log + [Polled(env.poll(|log|))] + events;
             IsRound(longer, p, e) && p >= |log| && p < |longer| && IsReceived(longer[p])
    ensures var longer := log + [Polled(env.poll(|log|))] + events;
            p < e <= |longer| && Settled(longer[p + 1..e], longer[p].answer.message, settings)
  {
    hide Settled, HandleLog, IsRound;
    var answer := env.poll(|log|);
    if answer.Got? {
      HandleSettles(env, settings, |log| + 1, answer.message);
      SettledShape(events, answer.message, settings);
    }
    LastRound(log, answer, events, p, e);
    RoundIn(log + [Polled(answer)] + events, p, e);
  }

  lemma RoundIn(log: seq<Event>, p: nat, e: nat)
    ensures IsRound(log, p, e) ==> p < e <= |log|
  {
  }

  // ---------- Every answer is that of the surroundings ----------

  predicate AnswersAt(env: Environment, e: Event, t: nat) {
    match e
    case Polled(answer) => answer == env.poll(t)
    case Ran(_, _) => !env.raises(t)
    case Raised(_, _) => env.raises(t)
    case AckTried(_, outcome) => outcome == env.ack(t)
    case Slept(_) => true
  }

  predicate AnswersFrom(env: Environment, log: seq<Event>, t: nat) {
    forall k :: 0 <= k < |log| ==> AnswersAt(env, log[k], t + k)
  }

  lemma AnswersConcat(env: Environment, a: seq<Event>, b: seq<Event>, t: nat)
    requires AnswersFrom(env, a, t) && AnswersFrom(env, b, t + |a|)
    ensures AnswersFrom(env, a + b, t)
  {
    hide AnswersAt;
    forall k | 0 <= k < |a + b|
      ensures AnswersAt(env, (a + b)[k], t + k)
    {
      if k >= |a| {
        assert AnswersAt(env, b[k - |a|], t + |a| + (k - |a|));
      }
    }
  }

  lemma {:induction false} AckAnswers(env: Environment, t: nat, m: Stored, retries: nat, maxRetries: int)
    ensures AnswersFrom(env, AckLog(env, t, m, retries, maxRetries), t)
    decreases maxRetries + 1 - retries
  {
    hide AckLog, Backoff;
    if retries > maxRetries {
      NoRetriesLeft(env, t, m, retries, maxRetries);
    } else {
      AckLogUnfolds(env, t, m, retries, maxRetries);
      if env.ack(t) == Refused && retries != maxRetries {
        AckAnswers(env, t + 2, m, retries + 1, maxRetries);
        AnswersConcat(env, [AckTried(m, Refused), Slept(Backoff(retries))],
                      AckLog(env, t + 2, m, retries + 1, maxRetries), t);
      }
    }
  }

  lemma {:induction false} CallbackAnswers(env: Environment, t: nat, m: Stored, i: nat, callbacks: nat)
    ensures AnswersFrom(env, CallbackLog(env, t, m, i, callbacks), t)
    decreases callbacks - i
  {
    if i < callbacks && !env.raises(t) {
      CallbackAnswers(env, t + 1, m, i + 1, callbacks);
      AnswersConcat(env, [Ran(i, m)], CallbackLog(env, t + 1, m, i + 1, callbacks), t);
    }
  }

  lemma HandleAnswers(env: Environment, settings: Settings, t: nat, m: Stored)
    ensures AnswersFrom(env, HandleLog(env, settings, t, m), t)
  {
    hide AnswersFrom, CallbackLog, AckLog;
    var ran := CallbackLog(env, t, m, 0, settings.callbacks);
    CallbackAnswers(env, t, m, 0, settings.callbacks);
    AckAnswers(env, t + |ran|, m, 0, settings.maxRetries);
    AnswersConcat(env, ran, AckLog(env, t + |ran|, m, 0, settings.maxRetries), t);
  }

  lemma PollAnswers(env: Environment, t: nat)
    ensures AnswersFrom(env, [Polled(env.poll(t))], t) && AnswersFrom(env, [], t + 1)
  {
  }

  // ---------- How a run ends ----------

  predicate IsPolled(e: Event) {
    e.Polled?
  }

  /** The poll failed, a callback raised, or an acknowledgement did with anything but a client error. */
  predicate EndsIt(e: Event) {
    || e == Polled(Answer.Failed)
    || e.Raised?
    || (e.AckTried? && e.outcome == Escaped)
  }

  ghost predicate RunInv(env: Environment, s: Session, n: nat) {
    && AnswersFrom(env, s.log, 0)
    && (s.phase == Aborted <==> s.log != [] && EndsIt(Last(s.log)))
    && (s.phase == Looping ==> |Filter(IsPolled, s.log)| == n)
  }

  /** The log of a run, cut off by an exception exactly where one escapes, and otherwise polling once each round. */
  lemma {:induction false} EveryRunAnswers(env: Environment, settings: Settings, n: nat)
    requires settings.callbacks > 0
    ensures RunInv(env, Rounds(env, settings, n), n)
  {
    if n > 0 {
      EveryRunAnswers(env, settings, n - 1);
      RoundKeepsRun(env, settings, Rounds(env, settings, n - 1), n - 1);
    }
  }

  lemma RoundKeepsRun(env: Environment, settings: Settings, s: Session, n: nat)
    requires settings.callbacks > 0 && RunInv(env, s, n)
    ensures RunInv(env, Round(env, settings, s), n + 1)
  {
    hide AnswersFrom, HandleLog, Filter;
    if s.phase == Looping {
      var t, answer := |s.log|, env.poll(|s.log|);
      PollAnswers(env, t);
      AnswersConcat(env, s.log, [Polled(answer)], 0);
      FilterSnoc(IsPolled, s.log, Polled(answer));
      if answer.Got? {
        var polled, events := s.log + [Polled(answer)], HandleLog(env, settings, t + 1, answer.message);
        HandleAnswers(env, settings, t + 1, answer.message);
        AnswersConcat(env, polled, events, 0);
        HandlePolls(env, settings, t + 1, answer.message);
        FilterConcat(IsPolled, polled, events);
        assert Last(polled + events) == Last(events) && Last(events) in events;
      }
    }
  }

  lemma HandlePolls(env: Environment, settings: Settings, t: nat, m: Stored)
    requires settings.callbacks > 0
    ensures var events := HandleLog(env, settings, t, m);
            events != [] && Filter(IsPolled, events) == [] && forall e :: e in events ==> !e.Polled?
  {
    HandleSettles(env, settings, t, m);
    hide HandleLog, Settled;
    var events := HandleLog(env, settings, t, m);
    SettledShape(events, m, settings);
    SettledIsNotEmpty(events, m, settings);
    FilterNone(IsPolled, events);
  }

  lemma SettledIsNotEmpty(events: seq<Event>, m: Stored, settings: Settings)
    requires Settled(events, m, settings) && settings.callbacks > 0
    ensures events != []
  {
  }
}
