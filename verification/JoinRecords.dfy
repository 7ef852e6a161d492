/**
 The per-key record of the join limiter and the effect of one call on it.
 A record is a value here: the limiter owns its records and nothing aliases them.
 */
module JoinRecords {
  import opened Basics
  import opened Windows

  const RATE_WINDOW: Duration := 60 * SECOND

  /** The five rungs of the default ladder: 5, 15, 30, 60 and 120 minutes. */
  const DEFAULT_LADDER: seq<Duration> :=
    [300 * SECOND, 900 * SECOND, 1800 * SECOND, 3600 * SECOND, 7200 * SECOND]

  datatype JoinConfig = JoinConfig(
    maxJoins: nat,
    threshold: nat,
    failedWindow: Duration,
    ladder: seq<Duration>)
  {
    ghost predicate Valid() {
      threshold >= 1 && failedWindow >= 1 && |ladder| >= 1
    }
  }

  datatype JoinRecord = JoinRecord(
    attempts: seq<Time>,
    failed: seq<Time>,
    lockedUntil: Option<Time>,
    level: nat,
    lockoutEnd: Option<Time>,
    penalty: Option<Duration>,
    lastFailed: Option<Time>,
    lastActivity: Time)
  {
    predicate LockedAt(now: Time) {
      lockedUntil.Some? && now < lockedUntil.value
    }

    /** Where the quiet period of the reset rule starts. */
    function QuietStart(): Time
      requires lockoutEnd.Some?
    {
      if lastFailed.Some? then lastFailed.value else lockoutEnd.value
    }

    /** Failures before this instant no longer count towards the threshold. */
    function Floor(): Time {
      if lockoutEnd.Some? then lockoutEnd.value else 0
    }
  }

  /** A check `Aborts` when it looks for the oldest attempt of a window that holds none. */
  datatype JoinOutcome =
    | Permitted
    | LockedOut(retryAfterSecs: nat)
    | RateLimited(retryAfterSecs: nat)
    | Aborts

  function NewRecord(now: Time): JoinRecord
  {
    JoinRecord([], [], None, 0, None, None, None, now)
  }

  /** The reset rule: twice the last penalty has passed without a new failure. */
  predicate ResetDue(r: JoinRecord, now: Time)
  {
    && r.lockoutEnd.Some?
    && r.penalty.Some?
    && now >= r.lockoutEnd.value
    && Since(now, r.QuietStart()) >= 2 * r.penalty.value
  }

  function MaybeReset(r: JoinRecord, now: Time): JoinRecord
  {
    if ResetDue(r, now)
    then r.(level := 0, lockoutEnd := None, penalty := None, lastFailed := None, failed := [])
    else r
  }

  /** Clears a lockout that has run out. */
  function Unlock(r: JoinRecord, now: Time): JoinRecord
  {
    if r.lockedUntil.Some? && now >= r.lockedUntil.value
    then r.(lockedUntil := None, failed := [], lastFailed := None)
    else r
  }

  /** What both a permission check and a failure do first when no lockout is active. */
  function Settle(r: JoinRecord, now: Time): JoinRecord
  {
    MaybeReset(Unlock(r, now), now)
  }

  function CheckOutcome(c: JoinConfig, r: JoinRecord, now: Time): (JoinRecord, JoinOutcome)
    requires c.Valid()
  {
    if r.LockedAt(now) then
      (r, LockedOut(RetrySeconds(r.lockedUntil.value - now)))
    else
      var s := Settle(r, now);
      var attempts := Retain(s.attempts, now, RATE_WINDOW, 0);
      if |attempts| >= c.maxJoins && attempts == [] then
        (s.(attempts := attempts, lastActivity := now), Aborts)
      else if |attempts| >= c.maxJoins then
        var elapsed := Since(now, attempts[0]);
        (s.(attempts := attempts, lastActivity := now),
         RateLimited(if elapsed < RATE_WINDOW then RetrySeconds(RATE_WINDOW - elapsed) else 1))
      else
        (s.(attempts := attempts + [now], lastActivity := now), Permitted)
  }

  /** The penalty for a lockout imposed at `level`. */
  function PenaltyAt(c: JoinConfig, level: nat): Duration
    requires c.Valid()
  {
    c.ladder[Min(level, |c.ladder| - 1)]
  }

  /** The record right after a failure was counted, before the threshold is looked at. */
  function Counted(c: JoinConfig, r: JoinRecord, now: Time): JoinRecord
  {
    var s := Settle(r, now);
    s.(failed := Retain(s.failed, now, c.failedWindow, s.Floor()) + [now],
       lastFailed := Some(now), lastActivity := now)
  }

  function Lock(c: JoinConfig, r: JoinRecord, now: Time): JoinRecord
    requires c.Valid()
  {
    var penalty := PenaltyAt(c, r.level);
    r.(lockedUntil := Some(now + penalty), lockoutEnd := Some(now + penalty), penalty := Some(penalty),
       failed := [], lastFailed := None,
       level := if r.level + 1 < |c.ladder| then r.level + 1 else r.level)
  }

  function FailureOutcome(c: JoinConfig, r: JoinRecord, now: Time): JoinRecord
    requires c.Valid()
  {
    if r.LockedAt(now) then
      r
    else
      var s := Counted(c, r, now);
      if |s.failed| >= c.threshold then Lock(c, s, now) else s
  }

  function SuccessOutcome(r: JoinRecord, now: Time): JoinRecord
  {
    r.(failed := [], lastActivity := now)
  }

  function RemainingAt(r: JoinRecord, now: Time): Option<Duration>
  {
    if r.LockedAt(now) then Some(r.lockedUntil.value - now) else None
  }

  function Retention(c: JoinConfig): Duration
  {
    Max(c.failedWindow, RATE_WINDOW)
  }

  /** The pruning rule: no active lockout, reset window over, and no recent activity. */
  predicate Stale(c: JoinConfig, r: JoinRecord, now: Time)
  {
    && !r.LockedAt(now)
    && !(r.lockoutEnd.Some? && r.penalty.Some? && Since(now, r.QuietStart()) < 2 * r.penalty.value)
    && Since(now, r.lastActivity) >= Retention(c)
  }

  /** What every record satisfies once the clock shows `now`. */
  ghost predicate RecordInv(c: JoinConfig, r: JoinRecord, now: Time)
  {
    && r.lastActivity <= now
    && |r.attempts| <= c.maxJoins
    && AtMost(r.attempts, r.lastActivity)
    && AtMost(r.failed, r.lastActivity)
    && (r.lockedUntil.Some? ==> r.failed == [] && r.lastFailed.None?)
    && (r.LockedAt(now) ==> r.lockoutEnd == r.lockedUntil)
    && (r.lockoutEnd.Some? <==> r.penalty.Some?)
    && (r.level > 0 ==> r.lockoutEnd.Some?)
    && (r.lockoutEnd.Some? && !r.LockedAt(now) ==> r.lockoutEnd.value <= now)
    && (r.failed != [] ==> r.lastFailed.Some?)
    && (r.lastFailed.Some? ==> AtMost(r.failed, r.lastFailed.value) && r.lastFailed.value <= r.lastActivity)
    && (r.lastFailed.Some? && r.lockoutEnd.Some? ==> r.lockoutEnd.value <= r.lastFailed.value)
    && AtLeast(r.failed, r.Floor())
    && |r.failed| < c.threshold
    && r.level < |c.ladder|
    && (r.penalty.Some? ==> r.penalty.value in c.ladder)
  }

  lemma SettleKeepsInv(c: JoinConfig, r: JoinRecord, now: Time)
    requires c.Valid() && RecordInv(c, r, now) && !r.LockedAt(now)
    ensures RecordInv(c, Settle(r, now), now) && Settle(r, now).lockedUntil.None?
    ensures RecordInv(c, MaybeReset(r, now), now)
  {
  }

  /** A permission check that is not refused by a lockout. */
  lemma AttemptKeepsInv(c: JoinConfig, s: JoinRecord, now: Time, attempts: seq<Time>)
    requires c.Valid() && RecordInv(c, s, now) && s.lockedUntil.None?
    requires AtMost(attempts, now) && |attempts| <= c.maxJoins
    ensures RecordInv(c, s.(attempts := attempts, lastActivity := now), now)
  {
  }

  lemma CheckKeepsInv(c: JoinConfig, r: JoinRecord, now: Time)
    requires c.Valid() && RecordInv(c, r, now)
    ensures RecordInv(c, CheckOutcome(c, r, now).0, now)
  {
    if !r.LockedAt(now) {
      hide Settle;
      SettleKeepsInv(c, r, now);
      var s := Settle(r, now);
      RetainBounds(s.attempts, now, RATE_WINDOW, 0, s.lastActivity);
      AttemptKeepsInv(c, s, now, CheckOutcome(c, r, now).0.attempts);
    }
  }

  lemma CountedKeepsInv(c: JoinConfig, s: JoinRecord, now: Time, failed: seq<Time>)
    requires c.Valid() && RecordInv(c, s, now) && s.lockedUntil.None?
    requires AtMost(failed, now) && AtLeast(failed, s.Floor())
    ensures var counted := s.(failed := failed, lastFailed := Some(now), lastActivity := now);
            && (|failed| < c.threshold ==> RecordInv(c, counted, now))
            && RecordInv(c, Lock(c, counted, now), now)
  {
    assert PenaltyAt(c, s.level) in c.ladder;
  }

  lemma FailureKeepsInv(c: JoinConfig, r: JoinRecord, now: Time)
    requires c.Valid() && RecordInv(c, r, now)
    ensures RecordInv(c, FailureOutcome(c, r, now), now)
  {
    if !r.LockedAt(now) {
      hide Settle, Lock;
      SettleKeepsInv(c, r, now);
      var s := Settle(r, now);
      RetainBounds(s.failed, now, c.failedWindow, s.Floor(), s.lastActivity);
      CountedKeepsInv(c, s, now, Counted(c, r, now).failed);
    }
  }
}
