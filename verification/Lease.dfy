/** Lease renewal while a message is handled (server/utils/message_ack_manager.py), in seconds since delivery. */
module Lease {

  type Time = t: real | t >= 0.0

  /**
    One round of the renewal loop: by how much the sleep overshoots, how long the renewal takes
    to reach the queue, and how long the call then takes to come back.
   */
  datatype Round = Round(overshoot: Time, reach: Time, back: Time)

  type Rounds = nat -> Round

  /** By how much the n-th renewal is later than one sleep after the one before it. */
  function Delay(rounds: Rounds, n: nat): real {
    (if n == 0 then 0.0 else rounds(n - 1).back) + rounds(n).overshoot + rounds(n).reach
  }

  datatype Settings = Settings(ackWait: real, ackThreshold: real)

  /** When the lease was renewed for the n-th time; the delivery itself counts as renewal 0. */
  function Renewal(s: Settings, rounds: Rounds, n: nat): real {
    if n == 0 then 0.0
    else Renewal(s, rounds, n - 1) + (s.ackWait - s.ackThreshold) + Delay(rounds, n - 1)
  }

  /** Less than ack_wait has passed at instant x since the delivery or some renewal. */
  ghost predicate Held(s: Settings, rounds: Rounds, x: real) {
    exists n: nat :: HeldBy(s, rounds, x, n)
  }

  predicate HeldBy(s: Settings, rounds: Rounds, x: real, n: nat) {
    Renewal(s, rounds, n) <= x < Renewal(s, rounds, n) + s.ackWait
  }

  lemma {:induction false} RenewalsGrow(s: Settings, rounds: Rounds, m: nat, n: nat)
    requires s.ackThreshold < s.ackWait && m <= n
    ensures Renewal(s, rounds, m) <= Renewal(s, rounds, n)
    ensures m < n ==> Renewal(s, rounds, m) < Renewal(s, rounds, n)
  {
    if m < n {
      RenewalsGrow(s, rounds, m, n - 1);
    }
  }

  function Times(n: nat, period: real): real {
    if n == 0 then 0.0 else Times(n - 1, period) + period
  }

  lemma {:induction false} TimesIsProduct(n: nat, period: real)
    ensures Times(n, period) == n as real * period
  {
    if n > 0 {
      TimesIsProduct(n - 1, period);
      OneMore((n - 1) as real, period);
      assert n as real == (n - 1) as real + 1.0;
    }
  }

  lemma {:induction false} RenewalsKeepPace(s: Settings, rounds: Rounds, n: nat)
    ensures Times(n, s.ackWait - s.ackThreshold) <= Renewal(s, rounds, n)
  {
    if n > 0 {
      RenewalsKeepPace(s, rounds, n - 1);
    }
  }

  lemma OneMore(a: real, period: real)
    ensures (a + 1.0) * period == a * period + period
  {
  }

  lemma MoreThanQuotient(a: real, x: real, period: real)
    requires period > 0.0 && a > x / period
    ensures a * period > x
  {
    var excess := a - x / period;
    assert excess * period > 0.0;
    assert (x / period) * period == x;
    assert a * period == (x / period) * period + excess * period;
  }

  /** The last renewal that comes no later than x. */
  lemma {:induction false} LastRenewal(s: Settings, rounds: Rounds, x: real, n: nat) returns (last: nat)
    requires s.ackThreshold < s.ackWait && 0.0 <= x < Renewal(s, rounds, n)
    ensures Renewal(s, rounds, last) <= x < Renewal(s, rounds, last + 1)
  {
    if n == 1 || Renewal(s, rounds, n - 1) <= x {
      last := n - 1;
    } else {
      last := LastRenewal(s, rounds, x, n - 1);
    }
  }

  lemma RenewalsGoOn(s: Settings, rounds: Rounds, x: real) returns (n: nat)
    requires s.ackThreshold < s.ackWait && 0.0 <= x
    ensures x < Renewal(s, rounds, n)
  {
    var period := s.ackWait - s.ackThreshold;
    n := (x / period).Floor + 1;
    RenewalsKeepPace(s, rounds, n);
    TimesIsProduct(n, period);
    MoreThanQuotient(n as real, x, period);
  }

  /** Round n delivers its renewal in time, or the handler ends before the lease would. */
  predicate InTime(s: Settings, rounds: Rounds, duration: real, n: nat) {
    if Renewal(s, rounds, n + 1) <= duration then Delay(rounds, n) <= s.ackThreshold
    else duration - Renewal(s, rounds, n) < s.ackWait
  }

  /**
    The lease is held at every instant until the handler ends exactly if every renewal that is
    due before the end comes with a delay of at most ack_threshold, and the end comes less than
    ack_wait after the last of them.
   */
  lemma LeaseHeldExactlyWhen(s: Settings, rounds: Rounds, duration: real)
    requires 0.0 <= s.ackThreshold < s.ackWait && 0.0 <= duration
    ensures (forall x :: 0.0 <= x <= duration ==> Held(s, rounds, x)) <==>
            (forall n: nat :: Renewal(s, rounds, n) <= duration ==> InTime(s, rounds, duration, n))
  {
    if forall n: nat :: Renewal(s, rounds, n) <= duration ==> InTime(s, rounds, duration, n) {
      forall x | 0.0 <= x <= duration
        ensures Held(s, rounds, x)
      {
        var n := RenewalsGoOn(s, rounds, x);
        var last := LastRenewal(s, rounds, x, n);
        assert InTime(s, rounds, duration, last);
        assert HeldBy(s, rounds, x, last);
      }
    }
    if forall x :: 0.0 <= x <= duration ==> Held(s, rounds, x) {
      forall n: nat | Renewal(s, rounds, n) <= duration
        ensures InTime(s, rounds, duration, n)
      {
        if !InTime(s, rounds, duration, n) {
          LateRenewal(s, rounds, duration, n);
        }
      }
    }
  }

  /** After a round that is not in time, the instant ack_wait after the renewal before it is not covered. */
  lemma LateRenewal(s: Settings, rounds: Rounds, duration: real, n: nat)
    requires 0.0 <= s.ackThreshold < s.ackWait && 0.0 <= duration
    requires Renewal(s, rounds, n) <= duration && !InTime(s, rounds, duration, n)
    ensures exists x :: 0.0 <= x <= duration && !Held(s, rounds, x)
  {
    var x := Renewal(s, rounds, n) + s.ackWait;
    RenewalsGrow(s, rounds, 0, n);
    assert x < Renewal(s, rounds, n + 1);
    forall m: nat
      ensures !HeldBy(s, rounds, x, m)
    {
      if m <= n {
        RenewalsGrow(s, rounds, m, n);
      } else {
        RenewalsGrow(s, rounds, n + 1, m);
      }
    }
    assert 0.0 <= x <= duration && !Held(s, rounds, x);
  }

  /** Whatever the handler's duration: delays below ack_threshold never let the lease expire. */
  lemma LeaseNeverExpires(s: Settings, rounds: Rounds, x: real)
    requires 0.0 <= s.ackThreshold < s.ackWait && 0.0 <= x
    requires forall n: nat :: Delay(rounds, n) < s.ackThreshold
    ensures Held(s, rounds, x)
  {
    forall n: nat | Renewal(s, rounds, n) <= x
      ensures InTime(s, rounds, x, n)
    {
      assert Delay(rounds, n) < s.ackThreshold;
    }
    LeaseHeldExactlyWhen(s, rounds, x);
  }

  // ---------- The service ----------

  /** When the n-th sleep of the loop begins. */
  function SleepBegins(s: Settings, rounds: Rounds, n: nat): real {
    Renewal(s, rounds, n) + if n == 0 then 0.0 else rounds(n - 1).back
  }

  /** The times of the first n renewals. */
  function RenewalTimes(s: Settings, rounds: Rounds, n: nat): (times: seq<real>)
    ensures |times| == n
  {
    if n == 0 then [] else RenewalTimes(s, rounds, n - 1) + [Renewal(s, rounds, n)]
  }

  lemma NextRenewal(s: Settings, rounds: Rounds, n: nat)
    ensures SleepBegins(s, rounds, n) + (s.ackWait - s.ackThreshold) + rounds(n).overshoot + rounds(n).reach ==
            Renewal(s, rounds, n + 1)
  {
  }

  class MessageAckManager {
    const settings: Settings

    constructor (ackWait: real, ackThreshold: real)
      ensures settings == Settings(ackWait, ackThreshold)
    {
      settings := Settings(ackWait, ackThreshold);
    }

    /** Renews beside a handler that ends after `duration`, when the renewal loop is cancelled. */
    method ProcessMessageWithAckWaitExtension(duration: real, rounds: Rounds) returns (renewals: seq<real>)
      requires 0.0 <= duration && settings.ackThreshold < settings.ackWait
      ensures renewals == RenewalTimes(settings, rounds, |renewals|)
      ensures Renewal(settings, rounds, |renewals|) <= duration < Renewal(settings, rounds, |renewals| + 1)
    {
      hide Renewal, Delay, SleepBegins;
      renewals := [];
      var begun := 0.0;
      FirstSleep(settings, rounds);
      ghost var limit := RenewalsGoOn(settings, rounds, duration);
      while true
        invariant begun == SleepBegins(settings, rounds, |renewals|)
        invariant renewals == RenewalTimes(settings, rounds, |renewals|)
        invariant Renewal(settings, rounds, |renewals|) <= duration
        decreases limit - |renewals|
      {
        var n := |renewals|;
        var round := rounds(n);
        var renewed := begun + (settings.ackWait - settings.ackThreshold) + round.overshoot + round.reach;
        NextRenewal(settings, rounds, n);
        if renewed > duration {
          break;
        }
        if limit <= n + 1 {
          RenewalsGrow(settings, rounds, limit, n + 1);
        }
        renewals := renewals + [renewed];
        begun := renewed + round.back;
        NextSleep(settings, rounds, n);
      }
    }
  }

  lemma FirstSleep(s: Settings, rounds: Rounds)
    ensures SleepBegins(s, rounds, 0) == 0.0 && Renewal(s, rounds, 0) == 0.0
  {
  }

  lemma NextSleep(s: Settings, rounds: Rounds, n: nat)
    ensures SleepBegins(s, rounds, n + 1) == Renewal(s, rounds, n + 1) + rounds(n).back
  {
  }
}
