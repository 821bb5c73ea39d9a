/**
  One subscription under all interleavings of the prefill worker, the dispatcher, any number of
  API processes and the consumer: every port call of every component is a step of its own, and
  components fail and restart between any two of them. Names are not reused within a run.
 */
module Gate {
  import opened Models
  import opened Sequences
  import opened JetStream
  import opened Stages
  import opened Prefill
  import opened PrefillRetry

  // ---------- The system ----------

  /** The prefill request of the subscription, if there is one, and what is left to do of an attempt at it. */
  datatype Worker =
    | NoRequest
    | Waiting(delivered: nat)
    | Busy(delivered: nat, todo: seq<Call>, publishes: seq<Message>)
    | Acknowledged

  /** A call of get_next_message in one of the API processes. */
  datatype Poll = Poll(process: nat, stage: Stage)

  datatype State = State(
    sub: SubscriptionState,
    worker: Worker,
    flags: set<nat>,          // API processes whose _subscription_prefill_done is set
    polls: map<nat, Poll>,
    handed: seq<Stored>,      // every message given to the consumer, with its redeliveries
    filled: seq<Stored>,      // the prefill subject when status done was last reported
    filledBy: seq<Message>,   // what the attempt that reported it set out to publish
    mainLog: seq<Stored>)     // every message ever published to the main subject

  /**
    ackLands: the acknowledgement of a prefill request is never lost once its last call is made.
    emptyMeansEmpty: a fetch answers None only if the subject is empty, which NATS does not
    promise while a delivered message waits for its acknowledgement.
   */
  datatype Config = Config(request: PrefillRequest, maxAttempts: int, ackLands: bool, emptyMeansEmpty: bool)

  datatype Step =
    | WorkerFetch(topics: seq<Call>)
    | WorkerCall
    | WorkerCrash
    | WorkerAck
    | Dispatch(message: Message)
    | PollBegin(poll: nat, process: nat)
    | PollStatus(poll: nat, last: bool)
    | PollFetch(poll: nat, none: bool)
    | ConsumerAck(i: nat)
    | ProcessRestart(process: nat)

  function Init(requestPrefill: bool): State {
    var empty := Stream([], 0);
    State(SubscriptionState(empty, if requestPrefill then Pending else Done),
          if requestPrefill then Waiting(0) else NoRequest,
          {}, map[], [], [], [], [])
  }

  /** The directory may differ between two reads of an attempt, so its calls are any filling. */
  ghost function DoWorkerFetch(s: State, topics: seq<Call>, cfg: Config): State {
    if !s.worker.Waiting? then s
    else if LimitReached(cfg.maxAttempts, s.worker.delivered + 1) then
      s.(worker := Busy(s.worker.delivered + 1, GiveUpCalls(cfg.request), []))
    else if !IsFilling(topics) then s
    else s.(worker := Busy(s.worker.delivered + 1, [Purge] + topics + [SetStatus(Done)], Published(topics)))
  }

  function DoWorkerCall(s: State): State {
    if !s.worker.Busy? || s.worker.todo == [] then s
    else
      var sub := PerformOn(s.sub, s.worker.todo[0]);
      var s' := s.(sub := sub, worker := s.worker.(todo := s.worker.todo[1..]));
      if s.worker.todo[0] == SetStatus(Done)
      then s'.(filled := OnSubject(sub.stream, PrefillSubject), filledBy := s.worker.publishes) else s'
  }

  function DoWorkerCrash(s: State, cfg: Config): State {
    if !s.worker.Busy? || (cfg.ackLands && s.worker.todo == []) then s else s.(worker := Waiting(s.worker.delivered))
  }

  function DoWorkerAck(s: State): State {
    if s.worker.Busy? && s.worker.todo == [] then s.(worker := Acknowledged) else s
  }

  function DoDispatch(s: State, m: Message): State {
    s.(sub := s.sub.(stream := Append(s.sub.stream, MainSubject, m)),
       mainLog := s.mainLog + [Stored(s.sub.stream.lastSeq + 1, MainSubject, m)])
  }

  function DoPollBegin(s: State, poll: nat, process: nat): State {
    if poll in s.polls then s
    else s.(polls := s.polls[poll := Poll(process, FirstStage(process in s.flags))])
  }

  /** A read of the status; `last` is the one after the deadline, which ends the poll unless it says done. */
  function DoPollStatus(s: State, poll: nat, last: bool): State {
    if poll !in s.polls || !s.polls[poll].stage.Asking? then s
    else
      match NextStage(s.sub.status, last)
      case Some(stage) => s.(polls := s.polls[poll := s.polls[poll].(stage := stage)])
      case None => s.(polls := s.polls - {poll})
  }

  function DoPollFetch(s: State, poll: nat, none: bool, cfg: Config): State {
    if poll !in s.polls || !s.polls[poll].stage.Fetching? then s
    else
      var subject := s.polls[poll].stage.subject;
      var waiting := OnSubject(s.sub.stream, subject);
      if none && cfg.emptyMeansEmpty && waiting != [] then s
      else if waiting == [] || none then
        s.(polls := s.polls - {poll},
           flags := if OpensLive(subject, true) then s.flags + {s.polls[poll].process} else s.flags)
      else s.(polls := s.polls - {poll}, handed := s.handed + [waiting[0]])
  }

  /** The consumer acknowledges any message it was given before, which deletes it by its number. */
  function DoConsumerAck(s: State, i: nat): State {
    if i >= |s.handed| then s
    else s.(sub := s.sub.(stream := DeleteMessage(s.sub.stream, s.handed[i].seqNo)))
  }

  function DoProcessRestart(s: State, process: nat): State {
    s.(flags := s.flags - {process},
       polls := map p | p in s.polls && s.polls[p].process != process :: s.polls[p])
  }

  /** A step that is not possible in a state leaves it as it is. */
  ghost function Do(s: State, step: Step, cfg: Config): State {
    match step
    case WorkerFetch(topics) => DoWorkerFetch(s, topics, cfg)
    case WorkerCall => DoWorkerCall(s)
    case WorkerCrash => DoWorkerCrash(s, cfg)
    case WorkerAck => DoWorkerAck(s)
    case Dispatch(m) => DoDispatch(s, m)
    case PollBegin(poll, process) => DoPollBegin(s, poll, process)
    case PollStatus(poll, last) => DoPollStatus(s, poll, last)
    case PollFetch(poll, none) => DoPollFetch(s, poll, none, cfg)
    case ConsumerAck(i) => DoConsumerAck(s, i)
    case ProcessRestart(process) => DoProcessRestart(s, process)
  }

  ghost function RunSteps(s: State, steps: seq<Step>, cfg: Config): State {
    if steps == [] then s else Do(RunSteps(s, DropLast(steps), cfg), Last(steps), cfg)
  }

  // ---------- What the steps keep ----------

  function PrefillEntries(s: State): seq<Stored> {
    OnSubject(s.sub.stream, PrefillSubject)
  }

  function MainEntries(s: State): seq<Stored> {
    OnSubject(s.sub.stream, MainSubject)
  }

  function HandedFrom(s: State, subject: Subject): seq<Stored> {
    Filter(Of(subject), s.handed)
  }

  /** What an attempt still has to do, together with what it has published so far, is what it set out to do. */
  ghost predicate WorkerOk(s: State) {
    s.worker.Busy? && s.worker.todo != [] ==>
      var todo := s.worker.todo;
      || (exists r :: todo == GiveUpCalls(r) || todo == GiveUpCalls(r)[1..])
      || (&& todo[0] == Purge && |todo| >= 2 && FillsThenDone(todo[1..])
          && s.worker.publishes == Published(todo[1..]))
      || OnPlan(s)
  }

  ghost predicate OnPlan(s: State) {
    && s.worker.Busy? && FillsThenDone(s.worker.todo)
    && s.worker.publishes == Messages(PrefillEntries(s)) + Published(s.worker.todo)
  }

  ghost predicate FillsThenDone(todo: seq<Call>) {
    todo != [] && Last(todo) == SetStatus(Done) && IsFilling(DropLast(todo))
  }

  predicate Reading(s: State) {
    s.flags != {} || s.handed != [] || exists p :: p in s.polls && s.polls[p].stage.Fetching?
  }

  /** Done is reported only by a complete fill, nothing is read before it, and nothing is filled after it. */
  ghost predicate GateInv(s: State) {
    && WorkerOk(s)
    && (Reading(s) ==> s.sub.status == Done)
    && (s.sub.status == Done ==>
          s.worker.NoRequest? || s.worker.Acknowledged? || (s.worker.Busy? && s.worker.todo == []))
    && (s.sub.status == Done ==> Messages(s.filled) == s.filledBy)
  }

  ghost predicate Increasing(log: seq<Stored>) {
    forall i, j :: 0 <= i < j < |log| ==> log[i].seqNo < log[j].seqNo
  }

  /** A log is consumed from its front: all that is gone was handed out in order, plus perhaps the head. */
  ghost predicate Consumed(log: seq<Stored>, rest: seq<Stored>, handed: seq<Stored>) {
    && |rest| <= |log|
    && rest == log[|log| - |rest|..]
    && (|| Collapse(handed) == log[..|log| - |rest|]
        || (rest != [] && Collapse(handed) == log[..|log| - |rest| + 1]))
  }
}
