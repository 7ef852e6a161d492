/** Pruning forgets: a key that has been idle for long enough has no record left. */
module JoinForgetting {
  import opened Basics
  import opened JoinRecords
  import opened JoinLimiting

  /** The longest penalty of a ladder. */
  function Longest(ladder: seq<Duration>): Duration
  {
    if ladder == [] then 0 else Max(Longest(ladder[..|ladder| - 1]), ladder[|ladder| - 1])
  }

  lemma {:induction false} NoneLonger(ladder: seq<Duration>, i: nat)
    requires i < |ladder|
    ensures ladder[i] <= Longest(ladder)
  {
    if i < |ladder| - 1 {
      NoneLonger(ladder[..|ladder| - 1], i);
    }
  }

  /** Every instant the record holds, if no call of its key came after `last`. */
  ghost predicate IdleSince(c: JoinConfig, r: JoinRecord, last: Time)
  {
    && r.lastActivity <= last
    && (r.lastFailed.Some? ==> r.lastFailed.value <= last)
    && (r.lockedUntil.Some? ==> r.lockedUntil.value <= last + Longest(c.ladder))
    && (r.lockoutEnd.Some? ==> r.lockoutEnd.value <= last + Longest(c.ladder))
    && (r.penalty.Some? ==> r.penalty.value <= Longest(c.ladder))
  }

  lemma FailureIdle(c: JoinConfig, r: JoinRecord, now: Time, last: Time)
    requires c.Valid() && IdleSince(c, r, last) && now <= last
    ensures IdleSince(c, FailureOutcome(c, r, now), last)
  {
    hide Longest;
    if !r.LockedAt(now) {
      NoneLonger(c.ladder, Min(Counted(c, r, now).level, |c.ladder| - 1));
    }
  }

  lemma CheckIdle(c: JoinConfig, r: JoinRecord, now: Time, last: Time)
    requires c.Valid() && IdleSince(c, r, last) && now <= last
    ensures IdleSince(c, CheckOutcome(c, r, now).0, last)
  {
    hide Longest;
  }

  lemma StepIdle(c: JoinConfig, s: Records, e: JoinEvent, k: RateKey, last: Time)
    requires c.Valid() && (k in s ==> IdleSince(c, s[k], last)) && (e.key == k && !e.op.Prune? ==> e.now <= last)
    ensures var t := Step(c, s, e).0; k in t ==> IdleSince(c, t[k], last)
  {
    hide Longest, CheckOutcome, FailureOutcome, Stale;
    if e.key == k && (e.op.Check? || e.op.Fail?) {
      CheckIdle(c, Entry(s, k, e.now), e.now, last);
      FailureIdle(c, Entry(s, k, e.now), e.now, last);
    }
  }

  lemma {:induction false} RunIdle(c: JoinConfig, s: Records, es: seq<JoinEvent>, k: RateKey, last: Time)
    requires c.Valid() && (k in s ==> IdleSince(c, s[k], last))
    requires forall e :: e in es && e.key == k && !e.op.Prune? ==> e.now <= last
    ensures var t := Final(c, s, es); k in t ==> IdleSince(c, t[k], last)
    decreases |es|
  {
    if es != [] {
      hide Step, IdleSince;
      StepIdle(c, s, es[0], k, last);
      RunIdle(c, Step(c, s, es[0]).0, es[1..], k, last);
    }
  }

  /**
   A prune forgets every key whose last call lies three of the longest penalties back, and no less than
   a minute and the failure window.
   */
  lemma {:induction false} IdleKeysForgotten(c: JoinConfig, es: seq<JoinEvent>, k: RateKey, last: Time, now: Time)
    requires c.Valid() && forall e :: e in es && e.key == k && !e.op.Prune? ==> e.now <= last
    requires last + Max(3 * Longest(c.ladder), Max(c.failedWindow, 60 * SECOND)) <= now
    ensures k !in Step(c, Final(c, map[], es), JoinEvent(k, Prune, now)).0
  {
    RunIdle(c, map[], es, k, last);
  }
}
