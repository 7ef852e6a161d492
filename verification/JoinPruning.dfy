/**
 Pruning is invisible. Each record has a normal form at an instant: what is left of it once
 everything that can no longer matter is dropped. Every call answers, and evolves, in the
 normal form alone, and a stale record has the normal form of a missing one.
 */
module JoinPruning {
  import opened Basics
  import opened Windows
  import opened JoinRecords
  import opened JoinLimiting

  function Norm(c: JoinConfig, r: JoinRecord, now: Time): JoinRecord
  {
    var attempts := Retain(r.attempts, now, RATE_WINDOW, 0);
    if r.LockedAt(now) then
      r.(attempts := attempts, lastActivity := 0)
    else
      var s := Settle(r, now);
      s.(attempts := attempts,
         failed := Retain(s.failed, now, c.failedWindow, s.Floor()),
         lastFailed := if s.lockoutEnd.Some? then s.lastFailed else None,
         lastActivity := 0)
  }

  function NormOf(c: JoinConfig, s: Records, k: RateKey, now: Time): JoinRecord
  {
    if k in s then Norm(c, s[k], now) else NewRecord(0)
  }

  /** Two limiter states that no sequence of calls from `now` on can tell apart. */
  ghost predicate Similar(c: JoinConfig, s: Records, t: Records, now: Time)
  {
    forall k {:trigger k in s} {:trigger k in t} :: NormOf(c, s, k, now) == NormOf(c, t, k, now)
  }

  lemma NormLater(c: JoinConfig, r: JoinRecord, now: Time, later: Time)
    requires now <= later
    ensures Norm(c, Norm(c, r, now), later) == Norm(c, r, later)
  {
    RetainRetain(r.attempts, now, later, RATE_WINDOW, 0);
    if !r.LockedAt(now) {
      var s := Settle(r, now);
      RetainRetain(s.failed, now, later, c.failedWindow, s.Floor());
    }
    hide Retain;
  }

  lemma NormOfMissing(c: JoinConfig, now: Time, later: Time)
    ensures Norm(c, NewRecord(now), later) == NewRecord(0)
  {
  }

  /** A record the pruner may drop is indistinguishable from no record. */
  lemma StaleIsNew(c: JoinConfig, r: JoinRecord, now: Time)
    requires c.Valid() && RecordInv(c, r, now) && Stale(c, r, now)
    ensures Norm(c, r, now) == NewRecord(0)
  {
    var s := Settle(r, now);
    RetainNothing(r.attempts, now, RATE_WINDOW, 0, r.lastActivity);
    RetainNothing(s.failed, now, c.failedWindow, s.Floor(), r.lastActivity);
  }

  /** The normal form of a record that no rule changes any more. */
  function Trim(c: JoinConfig, s: JoinRecord, now: Time): JoinRecord
  {
    s.(attempts := Retain(s.attempts, now, RATE_WINDOW, 0),
       failed := Retain(s.failed, now, c.failedWindow, s.Floor()),
       lastFailed := if s.lockoutEnd.Some? then s.lastFailed else None,
       lastActivity := 0)
  }

  lemma NormIsSettled(c: JoinConfig, r: JoinRecord, now: Time)
    requires !r.LockedAt(now)
    ensures Norm(c, r, now) == Trim(c, Settle(r, now), now)
    ensures Settle(Norm(c, r, now), now) == Norm(c, r, now) && !Norm(c, r, now).LockedAt(now)
    ensures Trim(c, Norm(c, r, now), now) == Norm(c, r, now)
  {
    RetainRetain(r.attempts, now, now, RATE_WINDOW, 0);
    var s := Settle(r, now);
    RetainRetain(s.failed, now, now, c.failedWindow, s.Floor());
  }

  lemma CheckThroughNorm(c: JoinConfig, r: JoinRecord, now: Time)
    requires c.Valid()
    ensures CheckOutcome(c, r, now).1 == CheckOutcome(c, Norm(c, r, now), now).1
    ensures Norm(c, CheckOutcome(c, r, now).0, now) == Norm(c, CheckOutcome(c, Norm(c, r, now), now).0, now)
  {
    if r.LockedAt(now) {
      RetainRetain(r.attempts, now, now, RATE_WINDOW, 0);
    } else {
      NormIsSettled(c, r, now);
      var s, n := Settle(r, now), Norm(c, r, now);
      var attempts := Retain(s.attempts, now, RATE_WINDOW, 0);
      assert Retain(n.attempts, now, RATE_WINDOW, 0) == attempts == n.attempts;
      var after := CheckOutcome(c, r, now).0.attempts;
      AfterCheck(c, s, n, after, now);
    }
  }

  lemma AfterCheck(c: JoinConfig, s: JoinRecord, n: JoinRecord, attempts: seq<Time>, now: Time)
    requires s.lockedUntil.None? && MaybeReset(s, now) == s && n == Trim(c, s, now)
    ensures Norm(c, s.(attempts := attempts, lastActivity := now), now)
         == Norm(c, n.(attempts := attempts, lastActivity := now), now)
  {
    RetainRetain(s.failed, now, now, c.failedWindow, s.Floor());
  }

  /** A failure counts alike in a record and in its normal form. */
  lemma {:induction false} CountedThroughNorm(c: JoinConfig, r: JoinRecord, now: Time)
    requires !r.LockedAt(now)
    ensures Counted(c, r, now) == Counted(c, Norm(c, r, now), now).(attempts := r.attempts)
    ensures Counted(c, Norm(c, r, now), now).attempts == Retain(r.attempts, now, RATE_WINDOW, 0)
  {
    NormIsSettled(c, r, now);
    var s := Settle(r, now);
    RetainRetain(s.failed, now, now, c.failedWindow, s.Floor());
  }

  lemma LockIgnoresAttempts(c: JoinConfig, s: JoinRecord, attempts: seq<Time>, now: Time)
    requires c.Valid()
    ensures Lock(c, s.(attempts := attempts), now) == Lock(c, s, now).(attempts := attempts)
  {
  }

  lemma FailureThroughNorm(c: JoinConfig, r: JoinRecord, now: Time)
    requires c.Valid()
    ensures Norm(c, FailureOutcome(c, r, now), now) == Norm(c, FailureOutcome(c, Norm(c, r, now), now), now)
  {
    RetainRetain(r.attempts, now, now, RATE_WINDOW, 0);
    if !r.LockedAt(now) {
      NormIsSettled(c, r, now);
      hide Norm, Counted, Settle, Retain, Lock;
      CountedThroughNorm(c, r, now);
      LockIgnoresAttempts(c, Counted(c, Norm(c, r, now), now), r.attempts, now);
      NormAttempts(c, FailureOutcome(c, r, now), Counted(c, Norm(c, r, now), now).attempts, now);
    }
  }

  /** Only the retained attempts enter the normal form. */
  lemma {:induction false} NormAttempts(c: JoinConfig, r: JoinRecord, attempts: seq<Time>, now: Time)
    requires Retain(attempts, now, RATE_WINDOW, 0) == Retain(r.attempts, now, RATE_WINDOW, 0)
    ensures Norm(c, r.(attempts := attempts), now) == Norm(c, r, now)
  {
  }

  lemma SuccessThroughNorm(c: JoinConfig, r: JoinRecord, now: Time)
    requires c.Valid() && RecordInv(c, r, now)
    ensures Norm(c, SuccessOutcome(r, now), now) == Norm(c, SuccessOutcome(Norm(c, r, now), now), now)
  {
    RetainRetain(r.attempts, now, now, RATE_WINDOW, 0);
  }

  lemma LevelThroughNorm(c: JoinConfig, r: JoinRecord, now: Time)
    requires c.Valid() && RecordInv(c, r, now)
    ensures MaybeReset(r, now).level == Norm(c, r, now).level
    ensures Norm(c, MaybeReset(r, now), now) == Norm(c, r, now)
  {
  }

  /** A success on a key whose record is equivalent to none leaves it so. */
  lemma SuccessOnNew(c: JoinConfig, now: Time)
    ensures Norm(c, SuccessOutcome(NewRecord(0), now), now) == NewRecord(0)
  {
  }

  lemma SimilarLater(c: JoinConfig, s: Records, t: Records, now: Time, later: Time)
    requires Similar(c, s, t, now) && now <= later
    ensures Similar(c, s, t, later)
  {
    forall k
      ensures NormOf(c, s, k, later) == NormOf(c, t, k, later)
    {
      NormOfMissing(c, 0, later);
      if k in s { NormLater(c, s[k], now, later); }
      if k in t { NormLater(c, t[k], now, later); }
    }
  }

  /** What a call other than pruning does to the normal form of its own key. */
  function NormStep(c: JoinConfig, n: JoinRecord, op: JoinOp, now: Time): (JoinRecord, JoinOutput)
    requires c.Valid() && !op.Prune?
  {
    match op
    case Check =>
      var (r, outcome) := CheckOutcome(c, n, now);
      (Norm(c, r, now), Checked(outcome))
    case Fail => (Norm(c, FailureOutcome(c, n, now), now), Silent)
    case Succeed => (Norm(c, SuccessOutcome(n, now), now), Silent)
    case Level => (n, LevelIs(n.level))
    case Remaining => (n, RemainingIs(RemainingAt(n, now)))
  }

  lemma StepThroughNorm(c: JoinConfig, s: Records, e: JoinEvent)
    requires c.Valid() && StateInv(c, s, e.now) && !e.op.Prune?
    ensures NormStep(c, NormOf(c, s, e.key, e.now), e.op, e.now)
         == (NormOf(c, Step(c, s, e).0, e.key, e.now), Step(c, s, e).1)
    ensures forall k :: k != e.key ==> NormOf(c, Step(c, s, e).0, k, e.now) == NormOf(c, s, k, e.now)
  {
    var r := Entry(s, e.key, e.now);
    NormOfMissing(c, e.now, e.now);
    assert NormOf(c, s, e.key, e.now) == Norm(c, r, e.now);
    match e.op
    case Check => CheckThroughNorm(c, r, e.now);
    case Fail => FailureThroughNorm(c, r, e.now);
    case Succeed =>
      if e.key in s { SuccessThroughNorm(c, r, e.now); } else { SuccessOnNew(c, e.now); }
    case Level =>
      if e.key in s { LevelThroughNorm(c, r, e.now); }
    case Remaining =>
  }

  lemma SimilarStep(c: JoinConfig, s: Records, t: Records, e: JoinEvent)
    requires c.Valid() && Similar(c, s, t, e.now) && StateInv(c, s, e.now) && StateInv(c, t, e.now)
    requires !e.op.Prune?
    ensures Step(c, s, e).1 == Step(c, t, e).1
    ensures Similar(c, Step(c, s, e).0, Step(c, t, e).0, e.now)
  {
    StepThroughNorm(c, s, e);
    StepThroughNorm(c, t, e);
    assert NormOf(c, s, e.key, e.now) == NormOf(c, t, e.key, e.now);
  }

  lemma SimilarPruned(c: JoinConfig, s: Records, t: Records, now: Time)
    requires c.Valid() && Similar(c, s, t, now) && StateInv(c, s, now)
    ensures Similar(c, Pruned(c, s, now), t, now)
  {
    forall k
      ensures NormOf(c, Pruned(c, s, now), k, now) == NormOf(c, t, k, now)
    {
      assert NormOf(c, s, k, now) == NormOf(c, t, k, now);
      if k in s && Stale(c, s[k], now) {
        StaleIsNew(c, s[k], now);
      }
    }
  }

  /** The calls of `es` without the background pruning. */
  function Unpruned(es: seq<JoinEvent>): seq<JoinEvent>
  {
    if es == [] then []
    else if es[0].op.Prune? then Unpruned(es[1..])
    else [es[0]] + Unpruned(es[1..])
  }

  lemma {:induction false} PruningSimulation(c: JoinConfig, s: Records, t: Records, es: seq<JoinEvent>, now: Time)
    requires c.Valid() && Clocked(es, now)
    requires Similar(c, s, t, now) && StateInv(c, s, now) && StateInv(c, t, now)
    ensures Outputs(c, s, es) == Outputs(c, t, Unpruned(es))
    decreases |es|
  {
    if es != [] {
      var e := es[0];
      SimilarLater(c, s, t, now, e.now);
      StepKeepsInv(c, s, e, now);
      if e.op.Prune? {
        StateInvLater(c, s, now, e.now);
        SimilarPruned(c, s, t, e.now);
        StateInvLater(c, t, now, e.now);
        PruningSimulation(c, Step(c, s, e).0, t, es[1..], e.now);
      } else {
        StateInvLater(c, s, now, e.now);
        StateInvLater(c, t, now, e.now);
        SimilarStep(c, s, t, e);
        StepKeepsInv(c, t, e, now);
        PruningSimulation(c, Step(c, s, e).0, Step(c, t, e).0, es[1..], e.now);
        assert Unpruned(es)[1..] == Unpruned(es[1..]);
      }
    }
  }

  /** Whatever pruning is mixed into a run, every caller gets the answer of the run without it. */
  lemma {:induction false} PruningIsInvisible(c: JoinConfig, es: seq<JoinEvent>, start: Time)
    requires c.Valid() && Clocked(es, start)
    ensures Outputs(c, map[], es) == Outputs(c, map[], Unpruned(es))
  {
    PruningSimulation(c, map[], map[], es, start);
  }
}
