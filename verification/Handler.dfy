/** The consumer's message handler (univention/provisioning/consumer/api.py): callbacks, then the acknowledgement. */
module Handler {
  import opened Models
  import opened Sequences
  import opened JetStream

  datatype Settings =
    Settings(callbacks: nat, maxRetries: int, popAfterHandling: bool, messageLimit: Option<int>)

  datatype Answer = Got(message: Stored) | Nothing | Failed

  /** What comes of one try: aiohttp's client errors are caught, any other exception is not. */
  datatype AckAnswer = Acked | Refused | Escaped

  datatype Event =
    | Polled(answer: Answer)
    | Ran(callback: nat, message: Stored)
    | Raised(callback: nat, message: Stored)
    | AckTried(message: Stored, outcome: AckAnswer)
    | Slept(tenths: nat)

  /** Everything outside answers as it likes at each point of the log. */
  datatype Environment = Environment(poll: nat -> Answer, raises: nat -> bool, ack: nat -> AckAnswer)

  // ---------- Acknowledging with retries ----------

  function Pow2(n: nat): (p: nat)
    ensures p >= 1
  {
    if n == 0 then 1 else 2 * Pow2(n - 1)
  }

  /** min(2**retries / 10, 30) in tenths of a second. */
  function Backoff(retries: nat): nat {
    Min(Pow2(retries), 300)
  }

  /** What the loop does from its `retries`-th round on. */
  function AckLog(env: Environment, t: nat, m: Stored, retries: nat, maxRetries: int): seq<Event>
    decreases maxRetries + 1 - retries
  {
    if retries > maxRetries then []
    else if env.ack(t) != Refused || retries == maxRetries then [AckTried(m, env.ack(t))]
    else [AckTried(m, Refused), Slept(Backoff(retries))] + AckLog(env, t + 2, m, retries + 1, maxRetries)
  }

  lemma AckLogUnfolds(env: Environment, t: nat, m: Stored, retries: nat, maxRetries: int)
    requires retries <= maxRetries
    ensures AckLog(env, t, m, retries, maxRetries) ==
            if env.ack(t) != Refused || retries == maxRetries then [AckTried(m, env.ack(t))]
            else [AckTried(m, Refused), Slept(Backoff(retries))] + AckLog(env, t + 2, m, retries + 1, maxRetries)
  {
  }

  lemma NoRetriesLeft(env: Environment, t: nat, m: Stored, retries: nat, maxRetries: int)
    requires retries > maxRetries
    ensures AckLog(env, t, m, retries, maxRetries) == []
  {
  }

  function Attempts(log: seq<Event>): nat {
    if log == [] then 0 else (if log[0].AckTried? then 1 else 0) + Attempts(log[1..])
  }

  function Sleeps(log: seq<Event>): nat {
    if log == [] then 0 else (if log[0].Slept? then 1 else 0) + Sleeps(log[1..])
  }

  function SleepTime(log: seq<Event>): nat {
    if log == [] then 0 else (if log[0].Slept? then log[0].tenths else 0) + SleepTime(log[1..])
  }

  /** The sleep time after n failures: the doubling part up to nine of them, then half a minute each. */
  function TotalBackoff(n: nat): nat {
    if n <= 9 then Pow2(n) - 1 else 511 + 300 * (n - 9)
  }

  lemma {:induction false} Pow2Values()
    ensures Pow2(8) == 256 && Pow2(9) == 512
  {
    assert Pow2(2) == 4;
    assert Pow2(4) == 16;
    assert Pow2(6) == 64;
  }

  lemma {:induction false} Pow2Grows(a: nat, b: nat)
    requires a <= b
    ensures Pow2(a) <= Pow2(b)
  {
    if a < b {
      Pow2Grows(a, b - 1);
    }
  }

  lemma BackoffStep(n: nat)
    ensures TotalBackoff(n + 1) == TotalBackoff(n) + Backoff(n)
  {
    Pow2Values();
    if n <= 8 {
      Pow2Grows(n, 8);
    } else {
      Pow2Grows(9, n);
    }
  }

  lemma CountFirst(e: Event, rest: seq<Event>)
    ensures Attempts([e] + rest) == (if e.AckTried? then 1 else 0) + Attempts(rest)
    ensures Sleeps([e] + rest) == (if e.Slept? then 1 else 0) + Sleeps(rest)
    ensures SleepTime([e] + rest) == (if e.Slept? then e.tenths else 0) + SleepTime(rest)
    ensures Attempts([]) == Sleeps([]) == SleepTime([]) == 0
  {
    assert ([e] + rest)[1..] == rest;
  }

  lemma {:induction false} AckLogFrom(env: Environment, t: nat, m: Stored, retries: nat, maxRetries: int)
    requires retries <= maxRetries
    ensures var log := AckLog(env, t, m, retries, maxRetries);
            && 1 <= Attempts(log) <= maxRetries + 1 - retries
            && Sleeps(log) == Attempts(log) - 1
            && SleepTime(log) == TotalBackoff(retries + Attempts(log) - 1) - TotalBackoff(retries)
            && (Last(log) in {AckTried(m, Acked), AckTried(m, Escaped)}
                || (Last(log) == AckTried(m, Refused) && Attempts(log) == maxRetries + 1 - retries))
    decreases maxRetries - retries
  {
    hide Attempts, Sleeps, SleepTime, TotalBackoff, Backoff, AckLog;
    AckLogUnfolds(env, t, m, retries, maxRetries);
    var tried := AckTried(m, env.ack(t));
    if env.ack(t) != Refused || retries == maxRetries {
      CountFirst(tried, []);
      assert [tried] + [] == [tried];
    } else {
      var slept, rest := Slept(Backoff(retries)), AckLog(env, t + 2, m, retries + 1, maxRetries);
      AckLogFrom(env, t + 2, m, retries + 1, maxRetries);
      assert [tried, slept] + rest == [tried] + ([slept] + rest);
      CountFirst(slept, rest);
      CountFirst(tried, [slept] + rest);
      BackoffStep(retries);
      AckLogUnfolds(env, t + 2, m, retries + 1, maxRetries);
    }
  }

  /** Attempts and sleeps alternate, and an attempt before the last one has failed. */
  lemma {:induction false} AckLogAlternates(env: Environment, t: nat, m: Stored, retries: nat, maxRetries: int, k: nat)
    requires k < |AckLog(env, t, m, retries, maxRetries)|
    ensures var log := AckLog(env, t, m, retries, maxRetries);
            if k % 2 == 1 then log[k] == Slept(Backoff(retries + k / 2))
            else log[k] == AckTried(m, Refused) || k == |log| - 1
    decreases k
  {
    hide AckLog, Backoff;
    if retries > maxRetries {
      NoRetriesLeft(env, t, m, retries, maxRetries);
    } else {
      AckLogUnfolds(env, t, m, retries, maxRetries);
      if k >= 2 {
        AckLogAlternates(env, t + 2, m, retries + 1, maxRetries, k - 2);
      }
    }
  }

  /**
    For every limit R >= 0 and every pattern of failures: between 1 and R + 1 attempts, one fewer
    sleeps, 2^n - 1 tenths of a second in all for n <= 9 of them and 511 + 300 (n - 9) beyond;
    all attempts but the last are refused, and the last is refused only if it is attempt R + 1.
   */
  lemma AckEffort(env: Environment, t: nat, m: Stored, maxRetries: nat)
    ensures var log := AckLog(env, t, m, 0, maxRetries);
            var n := Sleeps(log);
            && 1 <= Attempts(log) <= maxRetries + 1 && n == Attempts(log) - 1
            && SleepTime(log) == (if n <= 9 then Pow2(n) - 1 else 511 + 300 * (n - 9))
            && (forall k :: 0 <= k < |log| - 1 ==> log[k].Slept? || log[k] == AckTried(m, Refused))
            && (Last(log) in {AckTried(m, Acked), AckTried(m, Escaped)}
                || (Last(log) == AckTried(m, Refused) && Attempts(log) == maxRetries + 1))
  {
    AckLogFrom(env, t, m, 0, maxRetries);
    hide AckLog, Attempts, Sleeps, SleepTime;
    var log := AckLog(env, t, m, 0, maxRetries);
    AckLogUnfolds(env, t, m, 0, maxRetries);
    forall k | 0 <= k < |log| - 1
      ensures log[k].Slept? || log[k] == AckTried(m, Refused)
    {
      AckLogAlternates(env, t, m, 0, maxRetries, k);
    }
  }

  lemma {:induction false} AckLogShape(env: Environment, t: nat, m: Stored, retries: nat, maxRetries: int)
    ensures var log := AckLog(env, t, m, retries, maxRetries);
            forall e :: e in log ==> e.Slept? || (e.AckTried? && e.message == m)
    decreases maxRetries + 1 - retries
  {
    if retries < maxRetries && env.ack(t) == Refused {
      AckLogShape(env, t + 2, m, retries + 1, maxRetries);
    }
  }

  // ---------- One round of the handler ----------

  function CallbackLog(env: Environment, t: nat, m: Stored, i: nat, callbacks: nat): seq<Event>
    decreases callbacks - i
  {
    if i >= callbacks then []
    else if env.raises(t) then [Raised(i, m)]
    else [Ran(i, m)] + CallbackLog(env, t + 1, m, i + 1, callbacks)
  }

  /** An exception that leaves run(): a callback raised, or an acknowledgement did with anything but a client error. */
  predicate Breaks(e: Event) {
    e.Raised? || (e.AckTried? && e.outcome == Escaped)
  }

  /** Whether run() is still in its loop, has returned, or an exception has ended it. */
  datatype Phase = Looping | Returned | Aborted

  datatype Session = Session(log: seq<Event>, counter: nat, phase: Phase)

  predicate LimitReached(settings: Settings, counter: nat) {
    settings.messageLimit.Some? && settings.messageLimit.value != 0 && counter >= settings.messageLimit.value
  }

  /** The counter only counts when there is a limit. */
  function Counted(settings: Settings, counter: nat): nat {
    if settings.messageLimit.Some? && settings.messageLimit.value != 0 then counter + 1 else counter
  }

  function HandleLog(env: Environment, settings: Settings, t: nat, m: Stored): seq<Event> {
    var ran := CallbackLog(env, t, m, 0, settings.callbacks);
    if (ran != [] && Last(ran).Raised?) || !settings.popAfterHandling then ran
    else ran + AckLog(env, t + |ran|, m, 0, settings.maxRetries)
  }

  function Round(env: Environment, settings: Settings, s: Session): Session {
    if s.phase != Looping then s
    else
      var answer := env.poll(|s.log|);
      var polled := s.log + [Polled(answer)];
      match answer
      case Failed => Session(polled, s.counter, Aborted)
      case Nothing => Session(polled, s.counter, Looping)
      case Got(m) =>
        var log := polled + HandleLog(env, settings, |polled|, m);
        if Breaks(Last(log)) then Session(log, s.counter, Aborted)
        else
          var counter := Counted(settings, s.counter);
          Session(log, counter, if LimitReached(settings, counter) then Returned else Looping)
  }

  function Rounds(env: Environment, settings: Settings, n: nat): Session {
    if n == 0 then Session([], 0, Looping) else Round(env, settings, Rounds(env, settings, n - 1))
  }

  // ---------- What every run shows ----------

  function IsReceived(e: Event): bool {
    e.Polled? && e.answer.Got?
  }

  function Received(log: seq<Event>): seq<Stored> {
    if log == [] then []
    else if IsReceived(Last(log)) then Received(DropLast(log)) + [Last(log).answer.message]
    else Received(DropLast(log))
  }

  /** The messages a callback was called with, whether it raised or not. */
  function SeenBy(log: seq<Event>, callback: nat): seq<Stored> {
    if log == [] then []
    else if (Last(log).Ran? || Last(log).Raised?) && Last(log).callback == callback
    then SeenBy(DropLast(log), callback) + [Last(log).message]
    else SeenBy(DropLast(log), callback)
  }

  lemma {:induction false} ReceivedConcat(a: seq<Event>, b: seq<Event>)
    ensures Received(a + b) == Received(a) + Received(b)
  {
    if b == [] {
      assert a + b == a;
    } else {
      ReceivedConcat(a, DropLast(b));
      assert DropLast(a + b) == a + DropLast(b);
    }
  }

  lemma {:induction false} SeenByConcat(a: seq<Event>, b: seq<Event>, callback: nat)
    ensures SeenBy(a + b, callback) == SeenBy(a, callback) + SeenBy(b, callback)
  {
    if b == [] {
      assert a + b == a;
    } else {
      SeenByConcat(a, DropLast(b), callback);
      assert DropLast(a + b) == a + DropLast(b);
    }
  }

  /** The callbacks run in list order up to the first that raises. */
  lemma {:induction false} CallbacksInOrder(env: Environment, t: nat, m: Stored, i: nat, callbacks: nat)
    requires i <= callbacks
    ensures var log := CallbackLog(env, t, m, i, callbacks);
            && |log| <= callbacks - i
            && (forall k :: 0 <= k < |log| ==>
                  log[k] == Ran(i + k, m) || (log[k] == Raised(i + k, m) && k == |log| - 1))
            && (|log| < callbacks - i ==> log != [] && Last(log).Raised?)
    decreases callbacks - i
  {
    if i < callbacks && !env.raises(t) {
      CallbacksInOrder(env, t + 1, m, i + 1, callbacks);
    }
  }

  // ---------- Acknowledgements come after the callbacks ----------

  /** Every callback in list order. */
  function RanAll(m: Stored, callbacks: nat): seq<Event> {
    seq(callbacks, (i: nat) => Ran(i, m))
  }

  /** All callbacks ran on the message in list order since it was received, and nothing was received after it. */
  ghost predicate HandledBefore(log: seq<Event>, m: Stored, p: nat, k: nat, callbacks: nat) {
    && p + callbacks < k <= |log|
    && log[p] == Polled(Got(m))
    && log[p + 1..p + 1 + callbacks] == RanAll(m, callbacks)
    && (forall q :: p < q < k ==> !log[q].Polled?)
  }

  ghost predicate AckJustified(log: seq<Event>, k: nat, callbacks: nat)
    requires k < |log|
  {
    log[k].AckTried? ==> exists p :: HandledBefore(log, log[k].message, p, k, callbacks)
  }

  lemma CallbacksRun(env: Environment, t: nat, m: Stored, callbacks: nat)
    ensures var ran := CallbackLog(env, t, m, 0, callbacks);
            && (forall e :: e in ran ==> e.Ran? || e.Raised?)
            && (ran == RanAll(m, callbacks) || (ran != [] && Last(ran).Raised?))
  {
    hide *;
    CallbacksInOrder(env, t, m, 0, callbacks);
    OnlyTheLastRaises(CallbackLog(env, t, m, 0, callbacks), m);
  }

  lemma OnlyTheLastRaises(ran: seq<Event>, m: Stored)
    requires forall k :: 0 <= k < |ran| ==> ran[k] == Ran(k, m) || (ran[k] == Raised(k, m) && k == |ran| - 1)
    ensures forall e :: e in ran ==> e.Ran? || e.Raised?
    ensures ran == RanAll(m, |ran|) || (ran != [] && Last(ran).Raised?)
  {
    if ran == [] || !Last(ran).Raised? {
      assert forall k :: 0 <= k < |ran| ==> ran[k] == Ran(k, m);
    }
  }

  lemma HandleShape(env: Environment, settings: Settings, t: nat, m: Stored)
    ensures var log := HandleLog(env, settings, t, m);
            && (forall e :: e in log ==> !e.Polled?)
            && (forall e :: e in log && e.AckTried? ==> e.message == m)
            && (|| (forall e :: e in log ==> !e.AckTried?)
                || (exists acks :: log == RanAll(m, settings.callbacks) + acks))
  {
    hide CallbackLog, AckLog, RanAll;
    var ran := CallbackLog(env, t, m, 0, settings.callbacks);
    var acks := AckLog(env, t + |ran|, m, 0, settings.maxRetries);
    CallbacksRun(env, t, m, settings.callbacks);
    if HandleLog(env, settings, t, m) != ran {
      AckLogShape(env, t + |ran|, m, 0, settings.maxRetries);
      assert HandleLog(env, settings, t, m) == RanAll(m, settings.callbacks) + acks;
    }
  }

  lemma JustifiedInLongerLog(log: seq<Event>, more: seq<Event>, k: nat, callbacks: nat)
    requires k < |log| && AckJustified(log, k, callbacks)
    ensures AckJustified(log + more, k, callbacks)
  {
    if log[k].AckTried? {
      var p :| HandledBefore(log, log[k].message, p, k, callbacks);
      assert HandledBefore(log + more, log[k].message, p, k, callbacks);
    }
  }

  lemma NewAcksJustified(env: Environment, settings: Settings, log: seq<Event>, m: Stored, k: nat)
    requires var longer := log + [Polled(Got(m))] + HandleLog(env, settings, |log| + 1, m);
             |log| <= k < |longer|
    ensures AckJustified(log + [Polled(Got(m))] + HandleLog(env, settings, |log| + 1, m), k, settings.callbacks)
  {
    hide HandleLog;
    var handled := HandleLog(env, settings, |log| + 1, m);
    var longer := log + [Polled(Got(m))] + handled;
    HandleShape(env, settings, |log| + 1, m);
    if longer[k].AckTried? {
      assert longer[k] == handled[k - |log| - 1];
      assert longer[|log| + 1..] == handled;
      var acks :| handled == RanAll(m, settings.callbacks) + acks;
      assert longer[|log| + 1..|log| + 1 + settings.callbacks] == RanAll(m, settings.callbacks);
      assert forall q :: |log| < q < |longer| ==> longer[q] in handled;
      assert HandledBefore(longer, m, |log|, k, settings.callbacks);
    }
  }

  lemma OldAcksJustified(env: Environment, settings: Settings, s: Session, k: nat)
    requires k < |s.log| && AckJustified(s.log, k, settings.callbacks)
    ensures k < |Round(env, settings, s).log| && AckJustified(Round(env, settings, s).log, k, settings.callbacks)
  {
    hide HandleLog, AckJustified, Round;
    RoundAppends(env, settings, s);
    var longer := Round(env, settings, s).log;
    assert longer == s.log + longer[|s.log|..];
    JustifiedInLongerLog(s.log, longer[|s.log|..], k, settings.callbacks);
  }

  lemma RoundAcksJustified(env: Environment, settings: Settings, s: Session, k: nat)
    requires |s.log| <= k < |Round(env, settings, s).log|
    ensures AckJustified(Round(env, settings, s).log, k, settings.callbacks)
  {
    hide HandleLog, AckJustified, Round;
    RoundAppends(env, settings, s);
    var answer := env.poll(|s.log|);
    if answer.Got? {
      NewAcksJustified(env, settings, s.log, answer.message, k);
    } else {
      var longer := Round(env, settings, s).log;
      assert longer == s.log + [Polled(answer)] + [] && longer[k] == Polled(answer);
      NoAck(longer, k, settings.callbacks);
    }
  }

  /** The log of a run over any number of rounds, with the positions at which it acknowledges. */
  lemma {:induction false} AcksComeLast(env: Environment, settings: Settings, n: nat, k: nat)
    requires k < |Rounds(env, settings, n).log|
    ensures AckJustified(Rounds(env, settings, n).log, k, settings.callbacks)
  {
    if n > 0 {
      hide AckJustified, Round;
      var s := Rounds(env, settings, n - 1);
      if k < |s.log| {
        AcksComeLast(env, settings, n - 1, k);
        OldAcksJustified(env, settings, s, k);
      } else {
        RoundAcksJustified(env, settings, s, k);
      }
    }
  }

  lemma {:induction false} PolledIsReceived(log: seq<Event>, p: nat)
    requires p < |log| && IsReceived(log[p])
    ensures log[p].answer.message in Received(log)
  {
    if p < |log| - 1 {
      PolledIsReceived(DropLast(log), p);
    }
  }

  lemma NoAck(log: seq<Event>, k: nat, callbacks: nat)
    requires k < |log| && !log[k].AckTried?
    ensures AckJustified(log, k, callbacks)
  {
  }

  lemma RoundAppends(env: Environment, settings: Settings, s: Session)
    ensures var answer := env.poll(|s.log|);
            Round(env, settings, s).log ==
            if s.phase != Looping then s.log
            else s.log + [Polled(answer)]
                 + if answer.Got? then HandleLog(env, settings, |s.log| + 1, answer.message) else []
  {
  }

  // ---------- Every message goes to every callback ----------

  lemma {:induction false} NothingReceived(log: seq<Event>)
    requires forall e :: e in log ==> !e.Polled?
    ensures Received(log) == []
  {
    if log != [] {
      NothingReceived(DropLast(log));
    }
  }

  lemma {:induction false} SeenAtMostOnce(log: seq<Event>, m: Stored, callback: nat)
    requires forall k :: 0 <= k < |log| ==> log[k] == Ran(k, m) || log[k] == Raised(k, m)
    ensures SeenBy(log, callback) == if callback < |log| then [m] else []
  {
    if log != [] {
      SeenAtMostOnce(DropLast(log), m, callback);
    }
  }

  lemma {:induction false} AcksAreNotSeen(log: seq<Event>, callback: nat)
    requires forall e :: e in log ==> e.Slept? || e.AckTried?
    ensures SeenBy(log, callback) == []
  {
    if log != [] {
      assert Last(log) in log && forall e :: e in DropLast(log) ==> e in log;
      AcksAreNotSeen(DropLast(log), callback);
    }
  }

  lemma CallbacksSeen(env: Environment, t: nat, m: Stored, callback: nat, callbacks: nat)
    requires callback < callbacks
    ensures var ran := CallbackLog(env, t, m, 0, callbacks);
            && ran != []
            && (SeenBy(ran, callback) == [m] || (SeenBy(ran, callback) == [] && Last(ran).Raised?))
  {
    hide *;
    var ran := CallbackLog(env, t, m, 0, callbacks);
    CallbacksInOrder(env, t, m, 0, callbacks);
    assert forall k :: 0 <= k < |ran| ==> ran[k] == Ran(k, m) || ran[k] == Raised(k, m);
    SeenAtMostOnce(ran, m, callback);
  }

  lemma AcksSeen(env: Environment, t: nat, m: Stored, maxRetries: int, callback: nat)
    ensures var acks := AckLog(env, t, m, 0, maxRetries);
            SeenBy(acks, callback) == [] && (acks != [] ==> !Last(acks).Raised?)
  {
    hide AckLog, SeenBy;
    var acks := AckLog(env, t, m, 0, maxRetries);
    AckLogShape(env, t, m, 0, maxRetries);
    AcksAreNotSeen(acks, callback);
    assert acks != [] ==> Last(acks) in acks;
  }

  lemma HandleSeen(env: Environment, settings: Settings, t: nat, m: Stored, callback: nat)
    requires callback < settings.callbacks
    ensures var log := HandleLog(env, settings, t, m);
            && Received(log) == []
            && log != []
            && SeenBy(log, callback) <= [m]
            && (!Last(log).Raised? ==> SeenBy(log, callback) == [m])
  {
    hide CallbackLog, AckLog, SeenBy, Received;
    var ran := CallbackLog(env, t, m, 0, settings.callbacks);
    var acks := AckLog(env, t + |ran|, m, 0, settings.maxRetries);
    HandleShape(env, settings, t, m);
    NothingReceived(HandleLog(env, settings, t, m));
    CallbacksSeen(env, t, m, callback, settings.callbacks);
    AcksSeen(env, t + |ran|, m, settings.maxRetries, callback);
    SeenByConcat(ran, acks, callback);
    assert SeenBy(ran, callback) + [] == SeenBy(ran, callback);
  }

  predicate Limited(settings: Settings) {
    settings.messageLimit.Some? && settings.messageLimit.value != 0
  }

  /** A limit of None or 0 is none at all; a negative one stops the handler after its first message. */
  function Limit(settings: Settings): nat
    requires Limited(settings)
  {
    if settings.messageLimit.value < 1 then 1 else settings.messageLimit.value
  }

  ghost predicate SessionInv(s: Session, settings: Settings) {
    && (!Limited(settings) ==> s.phase != Returned)
    && (Limited(settings) ==>
          match s.phase
          case Looping => s.counter == |Received(s.log)| < Limit(settings)
          case Returned => |Received(s.log)| == Limit(settings)
          case Aborted => |Received(s.log)| <= Limit(settings))
    && (s.phase != Aborted ==> forall i :: 0 <= i < settings.callbacks ==> SeenBy(s.log, i) == Received(s.log))
    && (forall i :: 0 <= i < settings.callbacks ==>
          SeenBy(s.log, i) <= Received(s.log) && |Received(s.log)| <= |SeenBy(s.log, i)| + 1)
  }

  lemma PolledSeen(answer: Answer, callback: nat)
    ensures Received([Polled(answer)]) == if answer.Got? then [answer.message] else []
    ensures SeenBy([Polled(answer)], callback) == []
  {
    assert DropLast([Polled(answer)]) == [];
  }

  lemma RoundSeen(env: Environment, settings: Settings, s: Session, callback: nat)
    requires callback < settings.callbacks && s.phase == Looping
    ensures var s', answer := Round(env, settings, s), env.poll(|s.log|);
            var received := if answer.Got? then [answer.message] else [];
            && Received(s'.log) == Received(s.log) + received
            && (|| SeenBy(s'.log, callback) == SeenBy(s.log, callback) + received
                || (s'.phase == Aborted && SeenBy(s'.log, callback) == SeenBy(s.log, callback)))
  {
    hide HandleLog, SeenBy, Received;
    var answer := env.poll(|s.log|);
    var polled := s.log + [Polled(answer)];
    PolledSeen(answer, callback);
    ReceivedConcat(s.log, [Polled(answer)]);
    SeenByConcat(s.log, [Polled(answer)], callback);
    if answer.Got? {
      HandledSeen(env, settings, polled, answer.message, callback);
    }
  }

  lemma HandledSeen(env: Environment, settings: Settings, log: seq<Event>, m: Stored, callback: nat)
    requires callback < settings.callbacks
    ensures var longer := log + HandleLog(env, settings, |log|, m);
            && Received(longer) == Received(log) && longer != []
            && (|| SeenBy(longer, callback) == SeenBy(log, callback) + [m]
                || (Last(longer).Raised? && SeenBy(longer, callback) == SeenBy(log, callback)))
  {
    hide HandleLog, SeenBy, Received;
    var handled := HandleLog(env, settings, |log|, m);
    HandleSeen(env, settings, |log|, m, callback);
    ReceivedConcat(log, handled);
    SeenByConcat(log, handled, callback);
    assert Last(log + handled) == Last(handled);
    assert Received(log) + [] == Received(log) && SeenBy(log, callback) + [] == SeenBy(log, callback);
  }

  lemma RoundKeepsSession(env: Environment, settings: Settings, s: Session)
    requires settings.callbacks > 0 && SessionInv(s, settings)
    ensures SessionInv(Round(env, settings, s), settings)
  {
    hide HandleLog, SeenBy, Received;
    if s.phase == Looping {
      RoundSeen(env, settings, s, 0);
      forall i | 0 <= i < settings.callbacks
        ensures var s' := Round(env, settings, s);
                && SeenBy(s'.log, i) <= Received(s'.log) && |Received(s'.log)| <= |SeenBy(s'.log, i)| + 1
                && (s'.phase != Aborted ==> SeenBy(s'.log, i) == Received(s'.log))
      {
        RoundSeen(env, settings, s, i);
      }
    }
  }

  lemma NothingSeen(callback: nat)
    ensures SeenBy([], callback) == [] && Received([]) == []
  {
  }

  /**
    Every callback is called with the received messages in their order, all of them while no
    exception has ended the run and all but perhaps the last otherwise. Only a limit other than
    0 makes a run return, and then exactly that many messages were handled (one if it is negative).
   */
  lemma {:induction false} EveryRunHandles(env: Environment, settings: Settings, n: nat)
    requires settings.callbacks > 0
    ensures SessionInv(Rounds(env, settings, n), settings)
  {
    if n == 0 {
      forall i | 0 <= i < settings.callbacks
        ensures SeenBy([], i) == Received([])
      {
        NothingSeen(i);
      }
    } else {
      EveryRunHandles(env, settings, n - 1);
      RoundKeepsSession(env, settings, Rounds(env, settings, n - 1));
    }
  }

  // ---------- The service ----------

  class Client {
    const env: Environment
    var log: seq<Event>

    constructor (env: Environment)
      ensures this.env == env && log == []
    {
      this.env, log := env, [];
    }

    method GetSubscriptionMessage() returns (answer: Answer)
      modifies this`log
      ensures answer == env.poll(old(|log|)) && log == old(log) + [Polled(answer)]
    {
      answer := env.poll(|log|);
      log := log + [Polled(answer)];
    }

    method SetMessageStatus(m: Stored) returns (outcome: AckAnswer)
      modifies this`log
      ensures outcome == env.ack(old(|log|)) && log == old(log) + [AckTried(m, outcome)]
    {
      outcome := env.ack(|log|);
      log := log + [AckTried(m, outcome)];
    }

    method Call(callback: nat, m: Stored) returns (ok: bool)
      modifies this`log
      ensures ok == !env.raises(old(|log|))
      ensures log == old(log) + [if ok then Ran(callback, m) else Raised(callback, m)]
    {
      ok := !env.raises(|log|);
      log := log + [if ok then Ran(callback, m) else Raised(callback, m)];
    }

    method Sleep(tenths: nat)
      modifies this`log
      ensures log == old(log) + [Slept(tenths)]
    {
      log := log + [Slept(tenths)];
    }
  }

  class MessageHandler {
    const client: Client
    const settings: Settings

    constructor (client: Client, settings: Settings)
      requires settings.callbacks > 0
      ensures this.client == client && this.settings == settings
    {
      this.client, this.settings := client, settings;
    }

    /** An empty list of callbacks is an error. */
    static method Create(client: Client, settings: Settings) returns (handler: MessageHandler?)
      ensures handler == null <==> settings.callbacks == 0
      ensures handler != null ==> fresh(handler) && handler.client == client && handler.settings == settings
    {
      if settings.callbacks == 0 {
        return null;
      }
      handler := new MessageHandler(client, settings);
    }

    /** ok is false when an exception escapes that is not a client error. */
    method AcknowledgeMessageWithRetries(m: Stored) returns (ok: bool)
      modifies client`log
      ensures var acks := AckLog(client.env, old(|client.log|), m, 0, settings.maxRetries);
              client.log == old(client.log) + acks && ok == (acks == [] || !Breaks(Last(acks)))
    {
      hide Backoff, AckLog;
      ghost var before, max := client.log, settings.maxRetries;
      ghost var all := AckLog(client.env, |before|, m, 0, max);
      var retries: nat := 0;
      while retries <= settings.maxRetries
        invariant before + all == client.log + AckLog(client.env, |client.log|, m, retries, max)
        invariant |client.log| >= |before| && (client.log == before || !Breaks(Last(client.log)))
        decreases settings.maxRetries + 1 - retries
      {
        ghost var log := client.log;
        AckLogUnfolds(client.env, |log|, m, retries, max);
        var outcome := client.SetMessageStatus(m);
        if outcome != Refused {
          assert client.log == before + all && Last(client.log) == Last(all);
          return outcome == Acked;
        }
        if retries != settings.maxRetries {
          client.Sleep(Backoff(retries));
          assert client.log == log + [AckTried(m, Refused), Slept(Backoff(retries))];
        } else {
          NoRetriesLeft(client.env, |client.log|, m, retries + 1, max);
        }
        retries := retries + 1;
      }
      NoRetriesLeft(client.env, |client.log|, m, retries, max);
      assert client.log == before + all;
      assert all != [] ==> Last(client.log) == Last(all);
      ok := true;
    }

    /** The loop over the callbacks; ok is false when one raised. */
    method RunCallbacks(m: Stored) returns (ok: bool)
      requires settings.callbacks > 0
      modifies client`log
      ensures var ran := CallbackLog(client.env, old(|client.log|), m, 0, settings.callbacks);
              client.log == old(client.log) + ran && ran != [] && ok == !Last(ran).Raised?
    {
      ghost var before := client.log;
      ghost var ran := CallbackLog(client.env, |before|, m, 0, settings.callbacks);
      for i := 0 to settings.callbacks
        invariant |client.log| == |before| + i
        invariant before + ran == client.log + CallbackLog(client.env, |client.log|, m, i, settings.callbacks)
        invariant i > 0 ==> Last(client.log) == Ran(i - 1, m)
      {
        ghost var log := client.log;
        ok := client.Call(i, m);
        if !ok {
          assert client.log == before + ran;
          assert Last(client.log) == Last(ran);
          return;
        }
        assert client.log == log + [Ran(i, m)];
      }
      ok := true;
      assert client.log == before + ran && Last(client.log) == Last(ran);
    }

    /** What run() does with one message; ok is false when an exception leaves it. */
    method Handle(m: Stored) returns (ok: bool)
      requires settings.callbacks > 0
      modifies client`log
      ensures client.log == old(client.log) + HandleLog(client.env, settings, old(|client.log|), m)
      ensures client.log != [] && ok == !Breaks(Last(client.log))
    {
      hide CallbackLog, AckLog;
      ghost var before := client.log;
      CallbacksRun(client.env, |before|, m, settings.callbacks);
      ok := RunCallbacks(m);
      ghost var ran := CallbackLog(client.env, |before|, m, 0, settings.callbacks);
      assert Last(client.log) == Last(ran) && Last(ran) in ran;
      if ok && settings.popAfterHandling {
        ghost var acks := AckLog(client.env, |client.log|, m, 0, settings.maxRetries);
        ok := AcknowledgeMessageWithRetries(m);
        assert client.log == before + (ran + acks);
        assert Last(client.log) == if acks == [] then Last(ran) else Last(acks);
      }
    }

    /**
      run() as far as its first `n` rounds; it goes on for ever unless there is a limit or an exception.
     */
    method Run(n: nat) returns (phase: Phase)
      requires settings.callbacks > 0 && client.log == []
      modifies client`log
      ensures var s := Rounds(client.env, settings, n);
              client.log == s.log && phase == s.phase
    {
      hide HandleLog;
      var counter := 0;
      phase := Looping;
      for round := 0 to n
        invariant Session(client.log, counter, phase) == Rounds(client.env, settings, round)
      {
        if phase == Looping {
          var answer := client.GetSubscriptionMessage();
          match answer
          case Failed => phase := Aborted;
          case Nothing =>
          case Got(m) =>
            var ok := Handle(m);
            if !ok {
              phase := Aborted;
            } else if settings.messageLimit.Some? && settings.messageLimit.value != 0 {
              counter := counter + 1;
              if counter >= settings.messageLimit.value {
                phase := Returned;
              }
            }
        }
      }
    }
  }
}
