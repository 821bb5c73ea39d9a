/** The stages of a call of get_next_message, shared by the service and the model of the whole gate. */
module Stages {
  import opened Models
  import opened JetStream

  /** Waiting for status done, or about to fetch from one of the subjects. */
  datatype Stage = Asking | Fetching(subject: Subject)

  function FirstStage(prefillDone: bool): Stage {
    if prefillDone then Fetching(MainSubject) else Asking
  }

  /** After a read of the status; `last` is the read after the deadline. None is the end of the call. */
  function NextStage(status: FillQueueStatus, last: bool): Option<Stage> {
    if status == Done then Some(Fetching(PrefillSubject)) else if last then None else Some(Asking)
  }

  /** A fetch that answers None from the prefill subject sets the flag. */
  predicate OpensLive(subject: Subject, answeredNone: bool) {
    subject == PrefillSubject && answeredNone
  }
}
