/**
 How many failures a key can have counted within one failure window, over every run of the
 limiter, and exactly for which ladders the bound holds.
 */
module JoinSliding {
  import opened Basics
  import opened Windows
  import opened JoinRecords
  import opened JoinLimiting

  /** The call records a failure of `k` that is counted, not ignored because of a lockout. */
  predicate Counts(s: Records, e: JoinEvent, k: RateKey)
  {
    e.op.Fail? && e.key == k && !(k in s && s[k].LockedAt(e.now))
  }

  function CountedFailures(c: JoinConfig, s: Records, es: seq<JoinEvent>, k: RateKey): nat
    requires c.Valid()
    decreases |es|
  {
    if es == [] then
      0
    else
      (if Counts(s, es[0], k) then 1 else 0) + CountedFailures(c, Step(c, s, es[0]).0, es[1..], k)
  }

  /** All calls lie in the half-open interval of one failure window from `from`, and none is a success of `k`. */
  ghost predicate OneWindow(c: JoinConfig, es: seq<JoinEvent>, k: RateKey, from: Time)
  {
    forall e :: e in es ==> from <= e.now < from + c.failedWindow && !(e.op.Succeed? && e.key == k)
  }

  ghost predicate LongPenalties(c: JoinConfig)
  {
    forall i :: 0 <= i < |c.ladder| ==> c.ladder[i] >= c.failedWindow
  }

  /** A record after `n` failures counted since `from`: a lockout outlasts the window, or they all are stored. */
  ghost predicate Stored(c: JoinConfig, r: JoinRecord, n: nat, from: Time)
  {
    && r.lastActivity >= from
    && if r.lockedUntil.Some? then
         r.lockedUntil.value >= from + c.failedWindow && n <= c.threshold && r.lockoutEnd == r.lockedUntil
       else
         TailAtLeast(r.failed, n, from) && r.lastFailed.Some? && r.lastFailed.value >= from
  }

  /** Bookkeeping for `n` failures counted since `from`. */
  ghost predicate Quota(c: JoinConfig, s: Records, k: RateKey, n: nat, from: Time)
  {
    n == 0 || (k in s && Stored(c, s[k], n, from))
  }

  lemma PenaltyIsLong(c: JoinConfig, level: nat)
    requires c.Valid() && LongPenalties(c)
    ensures PenaltyAt(c, level) >= c.failedWindow
  {
  }

  /** A failure counted inside the window: the stored ones survive, and a lockout covers the rest of it. */
  lemma QuotaCountedFailure(c: JoinConfig, s: Records, e: JoinEvent, k: RateKey, n: nat, from: Time)
    requires c.Valid() && LongPenalties(c) && StateInv(c, s, e.now) && Quota(c, s, k, n, from)
    requires from <= e.now < from + c.failedWindow && Counts(s, e, k)
    ensures Quota(c, Step(c, s, e).0, k, n + 1, from)
  {
    var r := Entry(s, k, e.now);
    var settled := Settle(r, e.now);
    var kept := Retain(settled.failed, e.now, c.failedWindow, settled.Floor());
    if n > 0 {
      assert r.lockedUntil.None?;
      assert settled == r;
      var start := Max(from, r.Floor());
      RetainTail(r.failed, n, start, e.now, c.failedWindow, r.Floor());
    }
    assert TailAtLeast(kept, n, from);
    assert TailAtLeast(kept + [e.now], n + 1, from);
    PenaltyIsLong(c, settled.level);
  }

  /** A record that holds recent failures and is not locked is neither reset nor pruned within the window. */
  lemma RecentStays(c: JoinConfig, r: JoinRecord, from: Time, now: Time)
    requires c.Valid() && LongPenalties(c) && RecordInv(c, r, now) && from <= now < from + c.failedWindow
    requires r.lockedUntil.None? && r.lastActivity >= from && r.lastFailed.Some? && r.lastFailed.value >= from
    ensures Settle(r, now) == MaybeReset(r, now) == r && !Stale(c, r, now)
  {
  }

  lemma StoredThroughCheck(c: JoinConfig, r: JoinRecord, n: nat, from: Time, now: Time)
    requires c.Valid() && LongPenalties(c) && RecordInv(c, r, now) && from <= now < from + c.failedWindow && Stored(c, r, n, from)
    ensures Stored(c, CheckOutcome(c, r, now).0, n, from)
  {
    if r.lockedUntil.None? {
      RecentStays(c, r, from, now);
    }
  }

  lemma StoredThroughReset(c: JoinConfig, r: JoinRecord, n: nat, from: Time, now: Time)
    requires c.Valid() && LongPenalties(c) && RecordInv(c, r, now) && from <= now < from + c.failedWindow && Stored(c, r, n, from)
    ensures Stored(c, MaybeReset(r, now), n, from) && !Stale(c, r, now)
  {
    if r.lockedUntil.None? {
      RecentStays(c, r, from, now);
    }
  }

  /** Calls that count no failure leave the bookkeeping alone. */
  lemma QuotaOther(c: JoinConfig, s: Records, e: JoinEvent, k: RateKey, n: nat, from: Time)
    requires c.Valid() && LongPenalties(c) && StateInv(c, s, e.now) && k in s && Stored(c, s[k], n, from)
    requires from <= e.now < from + c.failedWindow && !(e.op.Succeed? && e.key == k) && !Counts(s, e, k)
    ensures k in Step(c, s, e).0 && Stored(c, Step(c, s, e).0[k], n, from)
  {
    hide Stored, Stale, CheckOutcome, MaybeReset, SuccessOutcome, RecordInv;
    if e.op.Prune? {
      StoredThroughReset(c, s[k], n, from, e.now);
    } else if e.key == k {
      StoredThroughReset(c, s[k], n, from, e.now);
      StoredThroughCheck(c, s[k], n, from, e.now);
    }
  }

  lemma QuotaStep(c: JoinConfig, s: Records, e: JoinEvent, k: RateKey, n: nat, from: Time)
    requires c.Valid() && LongPenalties(c) && StateInv(c, s, e.now) && Quota(c, s, k, n, from)
    requires from <= e.now < from + c.failedWindow && !(e.op.Succeed? && e.key == k)
    ensures Quota(c, Step(c, s, e).0, k, if Counts(s, e, k) then n + 1 else n, from)
  {
    hide Step, Counts, StateInv;
    if Counts(s, e, k) {
      QuotaCountedFailure(c, s, e, k, n, from);
    } else if n > 0 {
      QuotaOther(c, s, e, k, n, from);
    }
  }

  lemma {:induction false} QuotaRun(c: JoinConfig, s: Records, es: seq<JoinEvent>, k: RateKey, n: nat, from: Time, start: Time)
    requires c.Valid() && LongPenalties(c) && StateInv(c, s, start) && Clocked(es, start)
    requires Quota(c, s, k, n, from) && OneWindow(c, es, k, from)
    ensures n + CountedFailures(c, s, es, k) <= c.threshold
    decreases |es|
  {
    if es != [] {
      var e := es[0];
      StateInvLater(c, s, start, e.now);
      QuotaStep(c, s, e, k, n, from);
      StepKeepsInv(c, s, e, start);
      QuotaRun(c, Step(c, s, e).0, es[1..], k, if Counts(s, e, k) then n + 1 else n, from, e.now);
    }
  }

  /**
   In every run, a stretch of calls within one failure window and without a success of `k`
   counts at most `threshold` failures of `k`.
   */
  lemma {:induction false} SlidingFailureBound(c: JoinConfig, before: seq<JoinEvent>, es: seq<JoinEvent>, k: RateKey,
                                               from: Time, start: Time)
    requires c.Valid() && LongPenalties(c)
    requires Clocked(before, start) && Clocked(es, EndTime(before, start)) && OneWindow(c, es, k, from)
    ensures CountedFailures(c, Final(c, map[], before), es, k) <= c.threshold
  {
    RunKeepsInv(c, map[], before, start);
    QuotaRun(c, Final(c, map[], before), es, k, 0, from, EndTime(before, start));
  }

  /** The bound for one run: a prefix `before`, then a stretch `es` within one window. */
  ghost predicate BoundHolds(c: JoinConfig, before: seq<JoinEvent>, es: seq<JoinEvent>, k: RateKey, from: Time)
    requires c.Valid()
  {
    Clocked(before + es, 0) && OneWindow(c, es, k, from)
    ==> CountedFailures(c, Final(c, map[], before), es, k) <= c.threshold
  }

  // The other direction: a short penalty is reached by a client that fails as early as it can.

  function Failures(k: RateKey, t: Time, n: nat): seq<JoinEvent>
  {
    if n == 0 then [] else [JoinEvent(k, Fail, t)] + Failures(k, t, n - 1)
  }

  /** Bursts of `threshold` failures that take the ladder from level `i` to level `j`, the first at `t`. */
  function Climb(c: JoinConfig, k: RateKey, i: nat, j: nat, t: Time): seq<JoinEvent>
    requires i <= j <= |c.ladder|
    decreases j - i
  {
    if i == j then [] else Failures(k, t, c.threshold) + Climb(c, k, i + 1, j, t + c.ladder[i])
  }

  function ClimbEnd(c: JoinConfig, i: nat, j: nat, t: Time): Time
    requires i <= j <= |c.ladder|
    decreases j - i
  {
    if i == j then t else ClimbEnd(c, i + 1, j, t + c.ladder[i])
  }

  /** At `t` the key is not locked out, stands at `level`, and has `n` failures stored, all of instant `t`. */
  ghost predicate Ready(c: JoinConfig, s: Records, k: RateKey, t: Time, level: nat, n: nat)
  {
    if k !in s then level == 0 && n == 0 else
      var r := s[k];
      && !r.LockedAt(t) && r.level == level
      && (r.lockoutEnd.Some? ==> r.lockoutEnd.value == t && r.penalty.Some? && r.penalty.value > 0)
      && |r.failed| == n && AtLeast(r.failed, t) && AtMost(r.failed, t)
      && (n > 0 ==> r.lockedUntil.None?)
      && (r.lastFailed.Some? ==> r.lastFailed.value == t)
  }

  lemma {:induction false} RetainAll(s: seq<Time>, now: Time, window: Duration, floor: Time)
    requires window > 0 && floor <= now && AtLeast(s, now) && AtMost(s, now)
    ensures Retain(s, now, window, floor) == s
  {
    if s != [] {
      RetainAll(s[..|s| - 1], now, window, floor);
    }
  }

  /** One more failure at the same instant: it is stored, or it is the one that locks. */
  lemma ReadyStep(c: JoinConfig, s: Records, k: RateKey, t: Time, level: nat, n: nat)
    requires c.Valid() && Ready(c, s, k, t, level, n) && n < c.threshold && level < |c.ladder|
    ensures Counts(s, JoinEvent(k, Fail, t), k)
    ensures var next := Step(c, s, JoinEvent(k, Fail, t)).0;
      if n + 1 < c.threshold then Ready(c, next, k, t, level, n + 1) else
        && k in next && next[k].lockedUntil == Some(t + c.ladder[level])
        && (level + 1 < |c.ladder| && c.ladder[level] > 0
            ==> Ready(c, next, k, t + c.ladder[level], level + 1, 0))
  {
    var r := Entry(s, k, t);
    var settled := Settle(r, t);
    assert settled.failed == r.failed && settled.level == level;
    RetainAll(settled.failed, t, c.failedWindow, settled.Floor());
  }

  /** A burst at one instant ends in a lockout of the current rung, and every failure in it counts. */
  lemma {:induction false} BurstLocks(c: JoinConfig, s: Records, k: RateKey, t: Time, level: nat, n: nat, rest: seq<JoinEvent>)
    returns (next: Records)
    requires c.Valid() && Ready(c, s, k, t, level, n) && n < c.threshold && level < |c.ladder|
    ensures k in next && next[k].lockedUntil == Some(t + c.ladder[level])
    ensures level + 1 < |c.ladder| && c.ladder[level] > 0 ==> Ready(c, next, k, t + c.ladder[level], level + 1, 0)
    ensures Final(c, s, Failures(k, t, c.threshold - n) + rest) == Final(c, next, rest)
    ensures CountedFailures(c, s, Failures(k, t, c.threshold - n) + rest, k)
         == c.threshold - n + CountedFailures(c, next, rest, k)
    decreases c.threshold - n
  {
    hide Step, Ready, Counts;
    var e := JoinEvent(k, Fail, t);
    var es := Failures(k, t, c.threshold - n) + rest;
    assert es[0] == e && es[1..] == Failures(k, t, c.threshold - n - 1) + rest;
    ReadyStep(c, s, k, t, level, n);
    next := Step(c, s, e).0;
    if n + 1 < c.threshold {
      next := BurstLocks(c, next, k, t, level, n + 1, rest);
    } else {
      assert es[1..] == rest;
    }
  }

  lemma {:induction false} ClimbReaches(c: JoinConfig, s: Records, k: RateKey, i: nat, j: nat, t: Time)
    requires c.Valid() && i <= j < |c.ladder| && Ready(c, s, k, t, i, 0)
    requires forall m :: i <= m < j ==> c.ladder[m] > 0
    ensures Ready(c, Final(c, s, Climb(c, k, i, j, t)), k, ClimbEnd(c, i, j, t), j, 0)
    decreases j - i
  {
    hide Step, Ready;
    if i == j {
      assert Climb(c, k, i, j, t) == [];
    } else {
      var next := ClimbRung(c, s, k, i, j, t);
      ClimbReaches(c, next, k, i + 1, j, t + c.ladder[i]);
      assert ClimbEnd(c, i, j, t) == ClimbEnd(c, i + 1, j, t + c.ladder[i]);
    }
  }

  lemma ClimbRung(c: JoinConfig, s: Records, k: RateKey, i: nat, j: nat, t: Time) returns (next: Records)
    requires c.Valid() && i < j < |c.ladder| && Ready(c, s, k, t, i, 0) && c.ladder[i] > 0
    ensures Ready(c, next, k, t + c.ladder[i], i + 1, 0)
    ensures Final(c, s, Climb(c, k, i, j, t)) == Final(c, next, Climb(c, k, i + 1, j, t + c.ladder[i]))
  {
    hide Final, Step;
    next := BurstLocks(c, s, k, t, i, 0, Climb(c, k, i + 1, j, t + c.ladder[i]));
  }

  lemma {:induction false} FailuresClocked(k: RateKey, t: Time, n: nat, rest: seq<JoinEvent>, start: Time)
    requires start <= t && Clocked(rest, t)
    ensures Clocked(Failures(k, t, n) + rest, start)
  {
    if n > 0 {
      FailuresClocked(k, t, n - 1, rest, t);
      assert (Failures(k, t, n) + rest)[1..] == Failures(k, t, n - 1) + rest;
    } else {
      assert Failures(k, t, n) + rest == rest;
    }
  }

  lemma {:induction false} ClimbClocked(c: JoinConfig, k: RateKey, i: nat, j: nat, t: Time, rest: seq<JoinEvent>)
    requires i <= j <= |c.ladder| && Clocked(rest, ClimbEnd(c, i, j, t))
    ensures Clocked(Climb(c, k, i, j, t) + rest, t)
    decreases j - i
  {
    hide Failures;
    if i < j {
      var tail := Climb(c, k, i + 1, j, t + c.ladder[i]) + rest;
      ClimbClocked(c, k, i + 1, j, t + c.ladder[i], rest);
      FailuresClocked(k, t, c.threshold, tail, t);
      assert Climb(c, k, i, j, t) + rest == Failures(k, t, c.threshold) + tail;
    } else {
      assert Climb(c, k, i, j, t) + rest == rest;
    }
  }

  lemma {:induction false} FailuresWithin(k: RateKey, t: Time, n: nat)
    ensures forall e :: e in Failures(k, t, n) ==> e == JoinEvent(k, Fail, t)
  {
    if n > 0 {
      FailuresWithin(k, t, n - 1);
    }
  }

  /** The run that breaks the bound: climb to the short rung, fail through it, and once more after it. */
  function Again(c: JoinConfig, k: RateKey, i: nat, t: Time): seq<JoinEvent>
    requires i < |c.ladder|
  {
    [JoinEvent(k, Fail, t + c.ladder[i])]
  }

  lemma {:induction false} OneIsCounted(c: JoinConfig, s: Records, e: JoinEvent, k: RateKey)
    requires c.Valid() && Counts(s, e, k)
    ensures CountedFailures(c, s, [e], k) == 1
  {
    assert CountedFailures(c, Step(c, s, e).0, [e][1..], k) == 0;
  }

  lemma {:induction false} BurstOverflows(c: JoinConfig, s: Records, k: RateKey, i: nat, t: Time)
    requires c.Valid() && i < |c.ladder| && Ready(c, s, k, t, i, 0)
    ensures CountedFailures(c, s, Failures(k, t, c.threshold) + Again(c, k, i, t), k) == c.threshold + 1
  {
    hide Final, Step, Ready;
    var next := BurstLocks(c, s, k, t, i, 0, Again(c, k, i, t));
    OneIsCounted(c, next, JoinEvent(k, Fail, t + c.ladder[i]), k);
  }

  lemma {:induction false} OverflowFits(c: JoinConfig, k: RateKey, i: nat, t: Time, start: Time)
    requires c.Valid() && i < |c.ladder| && c.ladder[i] < c.failedWindow && start <= t
    ensures OneWindow(c, Failures(k, t, c.threshold) + Again(c, k, i, t), k, t)
    ensures Clocked(Failures(k, t, c.threshold) + Again(c, k, i, t), start)
  {
    FailuresWithin(k, t, c.threshold);
    assert Clocked(Again(c, k, i, t), t);
    FailuresClocked(k, t, c.threshold, Again(c, k, i, t), start);
  }

  /** A rung shorter than the failure window lets `threshold + 1` failures into one window. */
  lemma ShortPenaltyBreaksBound(c: JoinConfig, k: RateKey, i: nat)
    requires c.Valid() && i < |c.ladder| && c.ladder[i] < c.failedWindow
    requires forall m :: 0 <= m < i ==> c.ladder[m] > 0
    ensures exists before, es, from :: !BoundHolds(c, before, es, k, from)
  {
    var before, t := Climb(c, k, 0, i, 0), ClimbEnd(c, 0, i, 0);
    var es := Failures(k, t, c.threshold) + Again(c, k, i, t);
    assert Ready(c, Final(c, map[], before), k, t, i, 0) by {
      ClimbReaches(c, map[], k, 0, i, 0);
    }
    assert Clocked(before + es, 0) && OneWindow(c, es, k, t) by {
      OverflowFits(c, k, i, t, t);
      ClimbClocked(c, k, 0, i, 0, es);
    }
    BurstOverflows(c, Final(c, map[], before), k, i, t);
    assert !BoundHolds(c, before, es, k, t);
  }

  lemma {:induction false} ClockedSplit(before: seq<JoinEvent>, es: seq<JoinEvent>, start: Time)
    requires Clocked(before + es, start)
    ensures Clocked(before, start) && Clocked(es, EndTime(before, start))
    decreases |before|
  {
    if before != [] {
      assert (before + es)[1..] == before[1..] + es;
      ClockedSplit(before[1..], es, before[0].now);
    } else {
      assert before + es == es;
    }
  }

  /** The sliding bound holds of every run exactly when no rung is shorter than the failure window. */
  lemma SlidingBoundIff(c: JoinConfig)
    requires c.Valid()
    ensures (forall before, es, k, from :: BoundHolds(c, before, es, k, from)) <==> LongPenalties(c)
  {
    if LongPenalties(c) {
      forall before, es, k, from
        ensures BoundHolds(c, before, es, k, from)
      {
        if Clocked(before + es, 0) && OneWindow(c, es, k, from) {
          ClockedSplit(before, es, 0);
          SlidingFailureBound(c, before, es, k, from, 0);
        }
      }
    } else {
      var i := FirstShort(c, 0);
      ShortPenaltyBreaksBound(c, RateKey(0), i);
    }
  }

  function FirstShort(c: JoinConfig, from: nat): (i: nat)
    requires from <= |c.ladder| && exists j :: from <= j < |c.ladder| && c.ladder[j] < c.failedWindow
    ensures from <= i < |c.ladder| && c.ladder[i] < c.failedWindow
    ensures forall m :: from <= m < i ==> c.ladder[m] >= c.failedWindow
    decreases |c.ladder| - from
  {
    if c.ladder[from] < c.failedWindow then from else FirstShort(c, from + 1)
  }

  /** The defaults meet the condition: a five-minute window and rungs of five minutes and more. */
  lemma DefaultsAreLong(c: JoinConfig)
    requires c.ladder == DEFAULT_LADDER && c.failedWindow == 300 * SECOND
    ensures LongPenalties(c)
  {
  }
}
