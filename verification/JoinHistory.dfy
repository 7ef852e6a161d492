/**
 The limiter as a function of history. When a key is locked out, and at which level, depends on nothing
 but the instants of its failures and successes: a reference that stores all of them and never forgets,
 filters or prunes gives the same answers.
 */
module JoinHistory {
  import opened Basics
  import opened Windows
  import opened JoinRecords
  import opened JoinLimiting
  import opened JoinPruning
  import opened JoinRates
  import Ladder = JoinLadder

  type Lockout = Ladder.Lockout

  /**
   `misses` are the failures since the last success, lockout or reset of the ladder, `latest` is the last
   of all failures since the last lockout or reset, `lockout` the last lockout since the last reset, and
   `climb` how many of these there were.
   */
  datatype Watch = Watch(misses: seq<Time>, latest: Option<Time>, lockout: Option<Lockout>, climb: nat)

  const NOTHING := Watch([], None, None, 0)

  predicate LockedOut(w: Watch, now: Time)
  {
    w.lockout.Some? && now < w.lockout.value.End()
  }

  /** The ladder is reset once twice the last penalty has passed since the last failure, or since the lockout ended. */
  predicate Quiet(w: Watch, now: Time)
  {
    && w.lockout.Some? && w.lockout.value.End() <= now
    && (if w.latest.Some? then w.latest.value else w.lockout.value.End()) + 2 * w.lockout.value.penalty <= now
  }

  function Rested(w: Watch, now: Time): Watch
  {
    if Quiet(w, now) then NOTHING else w
  }

  /** A failure is ignored during a lockout; the one that makes `threshold` within a window starts the next rung. */
  function Missed(c: JoinConfig, w: Watch, now: Time): Watch
    requires |c.ladder| > 0
  {
    if LockedOut(w, now) then w else
      var v := Rested(w, now);
      if |Recent(v.misses, now, c.failedWindow)| + 1 < c.threshold then
        v.(misses := v.misses + [now], latest := Some(now))
      else
        var rung := if v.climb < |c.ladder| then v.climb else |c.ladder| - 1;
        Watch([], None, Some(Ladder.Lockout(now, c.ladder[rung])), v.climb + 1)
  }

  /** The reference after one call. */
  function After(c: JoinConfig, w: Watch, e: JoinEvent, k: RateKey): Watch
    requires |c.ladder| > 0
  {
    if e.key != k then w else if e.op.Fail? then Missed(c, w, e.now) else if e.op.Succeed? then w.(misses := []) else w
  }

  /** The reference after the calls `es`. */
  function Watched(c: JoinConfig, w: Watch, es: seq<JoinEvent>, k: RateKey): Watch
    requires |c.ladder| > 0
    decreases |es|
  {
    if es == [] then w
    else Watched(c, After(c, w, es[0], k), es[1..], k)
  }

  function LevelOf(c: JoinConfig, w: Watch): nat
    requires |c.ladder| > 0
  {
    if w.climb < |c.ladder| then w.climb else |c.ladder| - 1
  }

  /** What holds of a reference at `now`. */
  ghost predicate Sane(w: Watch, now: Time)
  {
    && InOrder(w.misses, now)
    && (w.latest.Some? ==> w.latest.value <= now && (w.lockout.Some? ==> w.lockout.value.End() <= w.latest.value))
    && (w.lockout.Some? ==> AtLeast(w.misses, w.lockout.value.End()))
    && (LockedOut(w, now) ==> w.misses == [] && w.latest.None?)
  }

  /** The normal form of a record says what the reference says. */
  ghost predicate Agrees(c: JoinConfig, n: JoinRecord, w: Watch, now: Time)
    requires c.Valid()
  {
    if LockedOut(w, now) then
      && n.lockedUntil == n.lockoutEnd == Some(w.lockout.value.End()) && n.penalty == Some(w.lockout.value.penalty)
      && n.level == LevelOf(c, w) && n.failed == [] && n.lastFailed.None?
    else
      var v := Rested(w, now);
      && n.lockedUntil.None? && n.level == LevelOf(c, v) && n.failed == Recent(v.misses, now, c.failedWindow)
      && match v.lockout
         case None => n.lockoutEnd.None? && n.penalty.None?
         case Some(l) => n.lockoutEnd == Some(l.End()) && n.penalty == Some(l.penalty) && n.lastFailed == v.latest
  }

  lemma QuietStays(w: Watch, now: Time, later: Time)
    requires now <= later
    ensures Quiet(w, now) ==> Quiet(w, later)
    ensures LockedOut(w, later) ==> LockedOut(w, now)
    ensures Rested(Rested(w, now), later) == Rested(w, later)
  {
  }

  lemma SaneLater(w: Watch, now: Time, later: Time)
    requires Sane(w, now) && now <= later
    ensures Sane(w, later)
  {
  }

  /** A window above a floor that all entries respect is a window. */
  lemma {:induction false} RetainAboveFloor(ts: seq<Time>, now: Time, span: Duration, floor: Time)
    requires AtMost(ts, now) && AtLeast(ts, floor)
    ensures Retain(ts, now, span, floor) == Recent(ts, now, span)
  {
    if ts != [] {
      RetainAboveFloor(ts[..|ts| - 1], now, span, floor);
    }
  }

  lemma {:induction false} RecentAtLeast(ts: seq<Time>, now: Time, span: Duration, floor: Time)
    requires AtMost(ts, now) && AtLeast(ts, floor)
    ensures AtMost(Recent(ts, now, span), now) && AtLeast(Recent(ts, now, span), floor)
  {
    if ts != [] {
      RecentAtLeast(ts[..|ts| - 1], now, span, floor);
    }
  }

  /** The failures of an unlocked record at a later instant. */
  lemma {:induction false} FailedLater(c: JoinConfig, n: JoinRecord, w: Watch, now: Time, later: Time)
    requires c.Valid() && Sane(w, now) && Agrees(c, n, w, now) && !LockedOut(w, now) && now <= later && !Quiet(w, later)
    ensures Retain(n.failed, later, c.failedWindow, n.Floor()) == Recent(w.misses, later, c.failedWindow)
    ensures AtLeast(n.failed, n.Floor())
  {
    QuietStays(w, now, later);
    var floor := n.Floor();
    RecentAtLeast(w.misses, now, c.failedWindow, floor);
    RetainAboveFloor(n.failed, later, c.failedWindow, floor);
    RecentLater(w.misses, now, later, c.failedWindow);
  }

  lemma LockedLater(c: JoinConfig, n: JoinRecord, w: Watch, now: Time, later: Time)
    requires c.Valid() && Sane(w, now) && Agrees(c, n, w, now) && LockedOut(w, now) && now <= later
    ensures Agrees(c, Norm(c, n, later), w, later)
  {
  }

  lemma FreeLater(c: JoinConfig, n: JoinRecord, w: Watch, now: Time, later: Time)
    requires c.Valid() && Sane(w, now) && Agrees(c, n, w, now) && !LockedOut(w, now) && now <= later
    ensures Agrees(c, Norm(c, n, later), w, later)
  {
    QuietStays(w, now, later);
    if !Quiet(w, later) {
      FailedLater(c, n, w, now, later);
    }
  }

  lemma AgreesLater(c: JoinConfig, n: JoinRecord, w: Watch, now: Time, later: Time)
    requires c.Valid() && Sane(w, now) && Agrees(c, n, w, now) && now <= later
    ensures Agrees(c, Norm(c, n, later), w, later)
  {
    hide Agrees, Norm, Sane;
    if LockedOut(w, now) {
      LockedLater(c, n, w, now, later);
    } else {
      FreeLater(c, n, w, now, later);
    }
  }

  // What a call does.

  /** In normal form, an unlocked record is settled. */
  predicate Settled(n: JoinRecord, now: Time)
  {
    !n.LockedAt(now) ==> Settle(n, now) == n
  }

  lemma NormIsFixed(c: JoinConfig, r: JoinRecord, now: Time)
    ensures Settled(Norm(c, r, now), now)
  {
    if !r.LockedAt(now) {
      NormIsSettled(c, r, now);
    }
  }

  lemma {:induction false} CountedIs(c: JoinConfig, n: JoinRecord, v: Watch, now: Time)
    requires c.Valid() && Sane(v, now) && Agrees(c, n, v, now) && !LockedOut(v, now) && !Quiet(v, now) && Settled(n, now)
    ensures Counted(c, n, now) ==
            n.(failed := Recent(v.misses, now, c.failedWindow) + [now], lastFailed := Some(now), lastActivity := now)
  {
    FailedLater(c, n, v, now, now);
    hide Recent, Retain;
  }

  lemma {:induction false} OneMoreAgrees(c: JoinConfig, n: JoinRecord, v: Watch, now: Time)
    requires c.Valid() && Sane(v, now) && Agrees(c, n, v, now) && !LockedOut(v, now) && !Quiet(v, now)
    ensures var next := v.(misses := v.misses + [now], latest := Some(now));
            var counted := n.(failed := Recent(v.misses, now, c.failedWindow) + [now], lastFailed := Some(now), lastActivity := now);
            Sane(next, now) && Agrees(c, counted, next, now)
  {
    RecentAppend(v.misses, now, now, c.failedWindow);
    hide Recent;
  }

  /** One more failure, below the threshold. */
  lemma {:induction false} CountedAgrees(c: JoinConfig, n: JoinRecord, w: Watch, now: Time)
    requires c.Valid() && Sane(w, now) && Agrees(c, n, w, now) && !LockedOut(w, now) && Settled(n, now)
    ensures var v := Rested(w, now);
            var next := v.(misses := v.misses + [now], latest := Some(now));
            && Counted(c, n, now).failed == Recent(v.misses, now, c.failedWindow) + [now]
            && Sane(next, now) && Agrees(c, Norm(c, Counted(c, n, now), now), next, now)
  {
    RestedAgrees(c, n, w, now);
    hide Agrees, Norm, Sane, Counted;
    var v := Rested(w, now);
    CountedIs(c, n, v, now);
    OneMoreAgrees(c, n, v, now);
    AgreesLater(c, Counted(c, n, now), v.(misses := v.misses + [now], latest := Some(now)), now, now);
  }

  lemma RestedAgrees(c: JoinConfig, n: JoinRecord, w: Watch, now: Time)
    requires c.Valid() && Sane(w, now) && Agrees(c, n, w, now) && !LockedOut(w, now)
    ensures Sane(Rested(w, now), now) && Agrees(c, n, Rested(w, now), now) && !Quiet(Rested(w, now), now)
  {
  }

  /** The failure that locks. */
  lemma LockAgrees(c: JoinConfig, n: JoinRecord, climb: nat, now: Time)
    requires c.Valid() && n.level == if climb < |c.ladder| then climb else |c.ladder| - 1
    ensures var next := Watch([], None, Some(Ladder.Lockout(now, c.ladder[n.level])), climb + 1);
            Sane(next, now) && Agrees(c, Norm(c, Lock(c, n, now), now), next, now)
  {
  }

  lemma SameLock(c: JoinConfig, n: JoinRecord, w: Watch, now: Time)
    requires c.Valid() && Agrees(c, n, w, now)
    ensures n.LockedAt(now) <==> LockedOut(w, now)
    ensures LockedOut(w, now) ==> n.lockedUntil == Some(w.lockout.value.End()) && n.level == LevelOf(c, w)
    ensures !LockedOut(w, now) ==> n.level == LevelOf(c, Rested(w, now))
  {
  }

  lemma FailAgrees(c: JoinConfig, n: JoinRecord, w: Watch, now: Time)
    requires c.Valid() && Sane(w, now) && Agrees(c, n, w, now) && Settled(n, now)
    ensures Sane(Missed(c, w, now), now) && Agrees(c, Norm(c, FailureOutcome(c, n, now), now), Missed(c, w, now), now)
  {
    SameLock(c, n, w, now);
    hide Norm, Lock, Sane, Recent, Agrees, Settle;
    if LockedOut(w, now) {
      AgreesLater(c, n, w, now, now);
    } else {
      CountedAgrees(c, n, w, now);
      LockAgrees(c, Counted(c, n, now), Rested(w, now).climb, now);
    }
  }

  lemma CheckAgrees(c: JoinConfig, n: JoinRecord, w: Watch, now: Time)
    requires c.Valid() && Sane(w, now) && Agrees(c, n, w, now) && Settled(n, now)
    ensures Agrees(c, Norm(c, CheckOutcome(c, n, now).0, now), w, now)
  {
    var after := CheckOutcome(c, n, now).0;
    assert after == n.(attempts := after.attempts, lastActivity := after.lastActivity);
    hide Norm, CheckOutcome, Recent;
    AgreesLater(c, after, w, now, now);
  }

  lemma SuccessAgrees(c: JoinConfig, n: JoinRecord, w: Watch, now: Time)
    requires c.Valid() && Sane(w, now) && Agrees(c, n, w, now)
    ensures var forgiven := w.(misses := []);
            Sane(forgiven, now) && Agrees(c, Norm(c, SuccessOutcome(n, now), now), forgiven, now)
  {
    hide Norm;
    AgreesLater(c, SuccessOutcome(n, now), w.(misses := []), now, now);
  }

  lemma PrunedNorm(c: JoinConfig, s: Records, k: RateKey, now: Time)
    requires c.Valid() && StateInv(c, s, now)
    ensures NormOf(c, Pruned(c, s, now), k, now) == NormOf(c, s, k, now)
  {
    hide Norm, Stale;
    if k in s && Stale(c, s[k], now) {
      StaleIsNew(c, s[k], now);
    }
  }

  lemma NormOfIsSettled(c: JoinConfig, s: Records, k: RateKey, now: Time)
    ensures Settled(NormOf(c, s, k, now), now)
  {
    if k in s {
      NormIsFixed(c, s[k], now);
    }
  }

  lemma StepAgrees(c: JoinConfig, s: Records, e: JoinEvent, k: RateKey, w: Watch)
    requires c.Valid() && StateInv(c, s, e.now) && Sane(w, e.now) && Agrees(c, NormOf(c, s, k, e.now), w, e.now)
    ensures Sane(After(c, w, e, k), e.now) && Agrees(c, NormOf(c, Step(c, s, e).0, k, e.now), After(c, w, e, k), e.now)
  {
    hide Agrees, Sane, Norm, NormOf, Missed, StateInv, Settled;
    if e.op.Prune? {
      PrunedNorm(c, s, k, e.now);
    } else {
      StepThroughNorm(c, s, e);
      if e.key == k {
        var n := NormOf(c, s, k, e.now);
        hide Step, CheckOutcome, FailureOutcome, SuccessOutcome;
        NormOfIsSettled(c, s, k, e.now);
        match e.op
        case Check => CheckAgrees(c, n, w, e.now);
        case Fail => FailAgrees(c, n, w, e.now);
        case Succeed => SuccessAgrees(c, n, w, e.now);
        case _ =>
      }
    }
  }

  lemma {:induction false} RunAgrees(c: JoinConfig, s: Records, es: seq<JoinEvent>, k: RateKey, w: Watch, start: Time)
    requires c.Valid() && StateInv(c, s, start) && Clocked(es, start)
    requires Sane(w, start) && Agrees(c, NormOf(c, s, k, start), w, start)
    ensures var end := EndTime(es, start);
            Sane(Watched(c, w, es, k), end) && Agrees(c, NormOf(c, Final(c, s, es), k, end), Watched(c, w, es, k), end)
    decreases |es|
  {
    if es != [] {
      var e := es[0];
      EndOfRest(es, start);
      hide Agrees, Sane, NormOf, Step, After, StateInv, EndTime;
      StateInvLater(c, s, start, e.now);
      AgreesAt(c, s, k, w, start, e.now);
      StepAgrees(c, s, e, k, w);
      StepKeepsInv(c, s, e, start);
      RunAgrees(c, Step(c, s, e).0, es[1..], k, After(c, w, e, k), e.now);
    }
  }

  lemma AgreesAt(c: JoinConfig, s: Records, k: RateKey, w: Watch, now: Time, later: Time)
    requires c.Valid() && Sane(w, now) && Agrees(c, NormOf(c, s, k, now), w, now) && now <= later
    ensures Sane(w, later) && Agrees(c, NormOf(c, s, k, later), w, later)
  {
    hide Agrees, Norm, Sane;
    SaneLater(w, now, later);
    AgreesLater(c, NormOf(c, s, k, now), w, now, later);
    NormOfMissing(c, 0, later);
    if k in s {
      NormLater(c, s[k], now, later);
    }
  }

  lemma NothingAgrees(c: JoinConfig, now: Time)
    requires c.Valid()
    ensures Sane(NOTHING, now) && Agrees(c, NewRecord(0), NOTHING, now)
  {
  }

  /** The normal form of a key after a run agrees with the reference. */
  lemma {:induction false} HistoryAgrees(c: JoinConfig, es: seq<JoinEvent>, k: RateKey, start: Time, now: Time)
    requires c.Valid() && Clocked(es, start) && EndTime(es, start) <= now
    ensures var s := Final(c, map[], es);
            StateInv(c, s, now) && Agrees(c, NormOf(c, s, k, now), Watched(c, NOTHING, es, k), now)
  {
    var s := Final(c, map[], es);
    NothingAgrees(c, start);
    RunKeepsInv(c, map[], es, start);
    hide Agrees, Sane, Final, Watched, Norm, EndTime;
    RunAgrees(c, map[], es, k, NOTHING, start);
    StateInvLater(c, s, EndTime(es, start), now);
    AgreesAt(c, s, k, Watched(c, NOTHING, es, k), EndTime(es, start), now);
  }

  lemma AnswersAgree(c: JoinConfig, s: Records, k: RateKey, w: Watch, now: Time)
    requires c.Valid() && StateInv(c, s, now) && Agrees(c, NormOf(c, s, k, now), w, now)
    ensures Step(c, s, JoinEvent(k, Remaining, now)).1
            == RemainingIs(if LockedOut(w, now) then Some(w.lockout.value.End() - now) else None)
    ensures Step(c, s, JoinEvent(k, Level, now)).1
            == LevelIs(LevelOf(c, if LockedOut(w, now) then w else Rested(w, now)))
  {
    SameLock(c, NormOf(c, s, k, now), w, now);
    hide Agrees, NormOf, Step, StateInv, LevelOf, Rested, LockedOut;
    StepThroughNorm(c, s, JoinEvent(k, Remaining, now));
    StepThroughNorm(c, s, JoinEvent(k, Level, now));
  }

  /**
   After every run, prunes included, the limiter reports a lockout, the time left of it and the level of
   a key exactly as the reference does: from the failures and successes of that key alone.
   */
  lemma {:induction false} LimiterFollowsHistory(c: JoinConfig, es: seq<JoinEvent>, k: RateKey, start: Time, now: Time)
    requires c.Valid() && Clocked(es, start) && EndTime(es, start) <= now
    ensures var s := Final(c, map[], es);
            var w := Watched(c, NOTHING, es, k);
            && Step(c, s, JoinEvent(k, Remaining, now)).1
               == RemainingIs(if LockedOut(w, now) then Some(w.lockout.value.End() - now) else None)
            && Step(c, s, JoinEvent(k, Level, now)).1
               == LevelIs(LevelOf(c, if LockedOut(w, now) then w else Rested(w, now)))
  {
    hide Agrees, StateInv, Step, NormOf, LevelOf, Rested, LockedOut;
    HistoryAgrees(c, es, k, start, now);
    AnswersAgree(c, Final(c, map[], es), k, Watched(c, NOTHING, es, k), now);
  }
}
