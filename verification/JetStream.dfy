/**
  A subscription's NATS stream with its two subjects, as far as the adapter uses it: sequence
  numbers grow, an entry stays until it is deleted by number or purged by subject.
 */
module JetStream {
  import opened Models
  import opened Sequences

  datatype Subject = MainSubject | PrefillSubject

  datatype Stored = Stored(seqNo: nat, subject: Subject, message: Message)

  datatype Stream = Stream(entries: seq<Stored>, lastSeq: nat)

  function Append(s: Stream, subject: Subject, m: Message): Stream {
    Stream(s.entries + [Stored(s.lastSeq + 1, subject, m)], s.lastSeq + 1)
  }

  function Of(subject: Subject): Stored -> bool {
    (e: Stored) => e.subject == subject
  }

  function NotOf(subject: Subject): Stored -> bool {
    (e: Stored) => e.subject != subject
  }

  function Except(seqNo: nat): Stored -> bool {
    (e: Stored) => e.seqNo != seqNo
  }

  function PurgeSubject(s: Stream, subject: Subject): Stream {
    s.(entries := Filter(NotOf(subject), s.entries))
  }

  function DeleteMessage(s: Stream, seqNo: nat): Stream {
    s.(entries := Filter(Except(seqNo), s.entries))
  }

  function OnSubject(s: Stream, subject: Subject): seq<Stored> {
    Filter(Of(subject), s.entries)
  }

  function Messages(entries: seq<Stored>): (ms: seq<Message>)
    ensures |ms| == |entries|
  {
    if entries == [] then [] else Messages(DropLast(entries)) + [Last(entries).message]
  }

  lemma AppendOnSubject(s: Stream, subject: Subject, m: Message, other: Subject)
    ensures OnSubject(Append(s, subject, m), other) ==
            if subject == other then OnSubject(s, other) + [Stored(s.lastSeq + 1, subject, m)] else OnSubject(s, other)
  {
    FilterSnoc(Of(other), s.entries, Stored(s.lastSeq + 1, subject, m));
  }

  lemma MessagesSnoc(entries: seq<Stored>, e: Stored)
    ensures Messages(entries + [e]) == Messages(entries) + [e.message]
  {
    assert DropLast(entries + [e]) == entries;
  }

  lemma {:induction false} FilterTwice<T>(p: T -> bool, q: T -> bool, r: T -> bool, s: seq<T>)
    requires forall x :: x in s ==> (r(x) <==> p(x) && q(x))
    ensures Filter(q, Filter(p, s)) == Filter(r, s)
  {
    if s != [] {
      FilterTwice(p, q, r, DropLast(s));
      assert s == DropLast(s) + [Last(s)];
      if p(Last(s)) {
        FilterSnoc(q, Filter(p, DropLast(s)), Last(s));
      }
    }
  }

  lemma PurgeOnSubject(s: Stream, subject: Subject, other: Subject)
    ensures OnSubject(PurgeSubject(s, subject), other) == if subject == other then [] else OnSubject(s, other)
  {
    var p, q := NotOf(subject), Of(other);
    if subject == other {
      FilterMembers(p, s.entries);
      FilterNone(q, Filter(p, s.entries));
    } else {
      FilterTwice(p, q, q, s.entries);
    }
  }

  lemma DeleteOnSubject(s: Stream, seqNo: nat, subject: Subject)
    ensures OnSubject(DeleteMessage(s, seqNo), subject) ==
            Filter(Except(seqNo), OnSubject(s, subject))
  {
    var p, q := Except(seqNo), Of(subject);
    var both := (e: Stored) => e.seqNo != seqNo && e.subject == subject;
    FilterTwice(p, q, both, s.entries);
    FilterTwice(q, p, both, s.entries);
  }
}
