/**
 The escalation ladder as a function of what happened to a key: its lockouts since the ladder
 last stood at its start, and the last failure that was counted.
 */
module JoinLadder {
  import opened Basics
  import opened Windows
  import opened JoinRecords
  import opened JoinLimiting
  import opened JoinSliding

  datatype Lockout = Lockout(at: Time, penalty: Duration) {
    function End(): Time { at + penalty }
  }

  datatype History = History(lockouts: seq<Lockout>, lastCounted: Option<Time>)

  const NO_HISTORY := History([], None)

  /** What a call does to the record of the key it concerns; pruning concerns every key. */
  function KeyStep(c: JoinConfig, o: Option<JoinRecord>, op: JoinOp, now: Time): Option<JoinRecord>
    requires c.Valid()
  {
    var r := if o.Some? then o.value else NewRecord(now);
    match op
    case Check => Some(CheckOutcome(c, r, now).0)
    case Fail => Some(FailureOutcome(c, r, now))
    case Succeed => if o.Some? then Some(SuccessOutcome(r, now)) else None
    case Level => if o.Some? then Some(MaybeReset(r, now)) else None
    case Remaining => o
    case Prune => if o.Some? && !Stale(c, r, now) then o else None
  }

  predicate Concerns(e: JoinEvent, k: RateKey)
  {
    e.op.Prune? || e.key == k
  }

  lemma StepByKey(c: JoinConfig, s: Records, e: JoinEvent, k: RateKey)
    requires c.Valid()
    ensures Lookup(Step(c, s, e).0, k) == if Concerns(e, k) then KeyStep(c, Lookup(s, k), e.op, e.now) else Lookup(s, k)
  {
  }

  predicate Engaged(o: Option<JoinRecord>)
  {
    o.Some? && o.value.lockoutEnd.Some?
  }

  /** The record once the call has applied the reset or the pruning rule, and nothing else yet. */
  function Rested(c: JoinConfig, o: Option<JoinRecord>, op: JoinOp, now: Time): Option<JoinRecord>
  {
    if o.None? then None
    else if op.Prune? then (if Stale(c, o.value, now) then None else o)
    else if (op.Check? || op.Fail?) && !o.value.LockedAt(now) then Some(Settle(o.value, now))
    else if op.Level? then Some(MaybeReset(o.value, now))
    else o
  }

  /** The history of a key after a call that concerns it. */
  function Observe(c: JoinConfig, o: Option<JoinRecord>, op: JoinOp, now: Time, h: History): History
    requires c.Valid()
  {
    var lockouts := if Engaged(Rested(c, o, op, now)) then h.lockouts else [];
    if op.Fail? && !(o.Some? && o.value.LockedAt(now)) then
      var after := KeyStep(c, o, op, now).value;
      History(if after.lockedUntil.Some? then lockouts + [Lockout(now, after.lockedUntil.value - now)] else lockouts,
              Some(now))
    else
      History(lockouts, h.lastCounted)
  }

  function ObserveEvent(c: JoinConfig, s: Records, e: JoinEvent, k: RateKey, h: History): History
    requires c.Valid()
  {
    if Concerns(e, k) then Observe(c, Lookup(s, k), e.op, e.now, h) else h
  }

  function HistoryOf(c: JoinConfig, s: Records, h: History, es: seq<JoinEvent>, k: RateKey): History
    requires c.Valid()
    decreases |es|
  {
    if es == [] then h else HistoryOf(c, Step(c, s, es[0]).0, ObserveEvent(c, s, es[0], k, h), es[1..], k)
  }

  /** The n-th lockout of a climb lasts as long as rung n (or the last rung), and no two overlap. */
  ghost predicate Lawful(c: JoinConfig, lockouts: seq<Lockout>)
    requires c.Valid()
  {
    && (forall i :: 0 <= i < |lockouts| ==> lockouts[i].penalty == PenaltyAt(c, i))
    && (forall i :: 0 < i < |lockouts| ==> lockouts[i - 1].End() <= lockouts[i].at)
  }

  /** When the current quiet period began. */
  function QuietSince(h: History): Time
    requires h.lockouts != [] && h.lastCounted.Some?
  {
    Max(h.lastCounted.value, h.lockouts[|h.lockouts| - 1].End())
  }

  /** The ladder level the history prescribes at `now`. */
  function LevelBy(c: JoinConfig, h: History, now: Time): nat
    requires c.Valid() && (h.lockouts != [] ==> h.lastCounted.Some?)
  {
    if h.lockouts == [] || now >= QuietSince(h) + 2 * h.lockouts[|h.lockouts| - 1].penalty then 0
    else Min(|h.lockouts|, |c.ladder| - 1)
  }

  /** The record of a key agrees with its history. */
  ghost predicate Matches(c: JoinConfig, o: Option<JoinRecord>, h: History)
    requires c.Valid()
  {
    && Lawful(c, h.lockouts)
    && (h.lockouts != [] <==> Engaged(o))
    && (h.lockouts != [] ==>
          && o.value.lockoutEnd == Some(h.lockouts[|h.lockouts| - 1].End())
          && o.value.penalty == Some(h.lockouts[|h.lockouts| - 1].penalty)
          && o.value.level == Min(|h.lockouts|, |c.ladder| - 1)
          && h.lastCounted.Some?
          && o.value.QuietStart() == QuietSince(h))
  }

  lemma LawfulExtend(c: JoinConfig, lockouts: seq<Lockout>, at: Time)
    requires c.Valid() && Lawful(c, lockouts)
    requires lockouts != [] ==> lockouts[|lockouts| - 1].End() <= at
    ensures Lawful(c, lockouts + [Lockout(at, PenaltyAt(c, |lockouts|))])
  {
  }

  lemma RestKeepsMatch(c: JoinConfig, r: JoinRecord, now: Time, h: History)
    requires c.Valid() && RecordInv(c, r, now) && !r.LockedAt(now) && Matches(c, Some(r), h)
    ensures var rested := Settle(r, now);
      Matches(c, Some(rested), h.(lockouts := if rested.lockoutEnd.Some? then h.lockouts else []))
      && rested.level == Min(if rested.lockoutEnd.Some? then |h.lockouts| else 0, |c.ladder| - 1)
    ensures var reset := MaybeReset(r, now);
      Matches(c, Some(reset), h.(lockouts := if reset.lockoutEnd.Some? then h.lockouts else []))
  {
  }

  lemma CountedMatches(c: JoinConfig, r: JoinRecord, now: Time, h: History)
    requires c.Valid() && RecordInv(c, r, now) && r.lockedUntil.None? && MaybeReset(r, now) == r
    requires Matches(c, Some(r), h) && r.level == Min(|h.lockouts|, |c.ladder| - 1)
    ensures var counted := Counted(c, r, now);
      && Matches(c, Some(counted), h.(lastCounted := Some(now))) && counted.lockedUntil.None?
      && Matches(c, Some(Lock(c, counted, now)),
                 History(h.lockouts + [Lockout(now, PenaltyAt(c, r.level))], Some(now)))
  {
    assert PenaltyAt(c, r.level) == PenaltyAt(c, |h.lockouts|);
    LawfulExtend(c, h.lockouts, now);
  }

  /** A counted failure, seen from outside: the rested record counts it, and perhaps locks. */
  lemma FailureSeen(c: JoinConfig, o: Option<JoinRecord>, now: Time, h: History)
    requires c.Valid() && (o.Some? ==> !o.value.LockedAt(now))
    ensures var rested := Settle(if o.Some? then o.value else NewRecord(now), now);
      var lockouts := if rested.lockoutEnd.Some? then h.lockouts else [];
      var counted := Counted(c, rested, now);
      if |counted.failed| >= c.threshold then
        && KeyStep(c, o, Fail, now) == Some(Lock(c, counted, now))
        && Observe(c, o, Fail, now, h) == History(lockouts + [Lockout(now, PenaltyAt(c, rested.level))], Some(now))
      else
        KeyStep(c, o, Fail, now) == Some(counted) && Observe(c, o, Fail, now, h) == History(lockouts, Some(now))
  {
    var r := if o.Some? then o.value else NewRecord(now);
    assert Settle(Settle(r, now), now) == Settle(r, now);
  }

  lemma ObserveFailure(c: JoinConfig, o: Option<JoinRecord>, now: Time, h: History)
    requires c.Valid() && Matches(c, o, h) && (o.Some? ==> RecordInv(c, o.value, now) && !o.value.LockedAt(now))
    ensures Matches(c, KeyStep(c, o, Fail, now), Observe(c, o, Fail, now, h))
  {
    var r := if o.Some? then o.value else NewRecord(now);
    assert RecordInv(c, r, now) && Matches(c, Some(r), h);
    RestKeepsMatch(c, r, now, h);
    SettleKeepsInv(c, r, now);
    var rested := Settle(r, now);
    CountedMatches(c, rested, now, h.(lockouts := if rested.lockoutEnd.Some? then h.lockouts else []));
    FailureSeen(c, o, now, h);
  }

  /** Nothing that reads the ladder depends on the stored attempts, failures and activity. */
  lemma MatchIgnoresWindows(c: JoinConfig, r: JoinRecord, attempts: seq<Time>, failed: seq<Time>, active: Time, h: History)
    requires c.Valid() && Matches(c, Some(r), h)
    ensures Matches(c, Some(r.(attempts := attempts, failed := failed, lastActivity := active)), h)
  {
  }

  /** A check rests an unlocked record and then touches only its attempts and activity. */
  lemma CheckRests(c: JoinConfig, r: JoinRecord, now: Time)
    requires c.Valid() && !r.LockedAt(now)
    ensures var after := CheckOutcome(c, r, now).0;
            var rested := Settle(r, now);
            after == rested.(attempts := after.attempts, failed := rested.failed, lastActivity := now)
  {
  }

  lemma ObserveCheck(c: JoinConfig, r: JoinRecord, now: Time, h: History)
    requires c.Valid() && Matches(c, Some(r), h) && RecordInv(c, r, now)
    ensures Matches(c, KeyStep(c, Some(r), Check, now), Observe(c, Some(r), Check, now, h))
  {
    if !r.LockedAt(now) {
      hide CheckOutcome, Settle, Matches, RecordInv;
      RestKeepsMatch(c, r, now, h);
      CheckRests(c, r, now);
      var rested := Settle(r, now);
      MatchIgnoresWindows(c, rested, CheckOutcome(c, r, now).0.attempts, rested.failed, now, Observe(c, Some(r), Check, now, h));
    }
  }

  lemma ObserveLevel(c: JoinConfig, r: JoinRecord, now: Time, h: History)
    requires c.Valid() && Matches(c, Some(r), h) && RecordInv(c, r, now)
    ensures Matches(c, KeyStep(c, Some(r), Level, now), Observe(c, Some(r), Level, now, h))
  {
    if !r.LockedAt(now) {
      hide Matches, RecordInv, MaybeReset;
      RestKeepsMatch(c, r, now, h);
    }
  }

  lemma ObservePrune(c: JoinConfig, r: JoinRecord, now: Time, h: History)
    requires c.Valid() && Matches(c, Some(r), h)
    ensures Matches(c, KeyStep(c, Some(r), Prune, now), Observe(c, Some(r), Prune, now, h))
  {
  }

  lemma ObserveKeepsMatch(c: JoinConfig, o: Option<JoinRecord>, op: JoinOp, now: Time, h: History)
    requires c.Valid() && Matches(c, o, h) && (o.Some? ==> RecordInv(c, o.value, now))
    ensures Matches(c, KeyStep(c, o, op, now), Observe(c, o, op, now, h))
  {
    if op.Fail? {
      if o.None? || !o.value.LockedAt(now) {
        ObserveFailure(c, o, now, h);
      }
    } else if o.Some? {
      hide CheckOutcome, RecordInv, Stale, MaybeReset;
      var r := o.value;
      match op
      case Check => ObserveCheck(c, r, now, h);
      case Succeed => MatchIgnoresWindows(c, r, r.attempts, [], now, h);
      case Level => ObserveLevel(c, r, now, h);
      case Remaining =>
      case Prune => ObservePrune(c, r, now, h);
    }
  }

  lemma {:induction false} HistoryRun(c: JoinConfig, s: Records, h: History, es: seq<JoinEvent>, k: RateKey, start: Time)
    requires c.Valid() && StateInv(c, s, start) && Clocked(es, start) && Matches(c, Lookup(s, k), h)
    ensures Matches(c, Lookup(Final(c, s, es), k), HistoryOf(c, s, h, es, k))
    decreases |es|
  {
    if es != [] {
      StateInvLater(c, s, start, es[0].now);
      StepKeepsInv(c, s, es[0], start);
      StepByKey(c, s, es[0], k);
      ObserveKeepsMatch(c, Lookup(s, k), es[0].op, es[0].now, h);
      HistoryRun(c, Step(c, s, es[0]).0, ObserveEvent(c, s, es[0], k, h), es[1..], k, es[0].now);
    }
  }

  /**
   The ladder law: over every run the lockouts of a climb take the rungs in order, and the
   level reported at any later instant is the one the history prescribes.
   */
  lemma {:induction false} LadderLaw(c: JoinConfig, es: seq<JoinEvent>, k: RateKey, start: Time, now: Time)
    requires c.Valid() && Clocked(es, start) && EndTime(es, start) <= now
    ensures var h := HistoryOf(c, map[], NO_HISTORY, es, k);
      && Lawful(c, h.lockouts) && (h.lockouts != [] ==> h.lastCounted.Some?)
      && Step(c, Final(c, map[], es), JoinEvent(k, Level, now)).1 == LevelIs(LevelBy(c, h, now))
  {
    HistoryRun(c, map[], NO_HISTORY, es, k, start);
    RunKeepsInv(c, map[], es, start);
    var s := Final(c, map[], es);
    StateInvLater(c, s, EndTime(es, start), now);
    if k in s && s[k].LockedAt(now) {
      var h := HistoryOf(c, map[], NO_HISTORY, es, k);
      assert s[k].lockoutEnd == s[k].lockedUntil;
      assert QuietSince(h) > now;
    }
  }

  /** The penalties of the first `n` lockouts of a climb, added up. */
  function PenaltySum(c: JoinConfig, n: nat): Duration
    requires c.Valid()
  {
    if n == 0 then 0 else PenaltySum(c, n - 1) + PenaltyAt(c, n - 1)
  }

  /** A client cannot run through n lockouts faster than the first n - 1 penalties add up to. */
  lemma {:induction false} ClimbTakesTime(c: JoinConfig, lockouts: seq<Lockout>, n: nat)
    requires c.Valid() && Lawful(c, lockouts) && 1 <= n <= |lockouts|
    ensures lockouts[n - 1].at >= lockouts[0].at + PenaltySum(c, n - 1)
  {
    if n > 1 {
      ClimbTakesTime(c, lockouts, n - 1);
      assert lockouts[n - 2].End() <= lockouts[n - 1].at;
    }
  }

  function LevelOf(s: Records, k: RateKey): nat
  {
    if k in s then s[k].level else 0
  }

  /** The level of a record falls only by the reset or the pruning rule. */
  lemma RecordFalls(c: JoinConfig, r: JoinRecord, op: JoinOp, now: Time)
    requires c.Valid() && RecordInv(c, r, now)
    requires var after := KeyStep(c, Some(r), op, now); after.None? || after.value.level < r.level
    requires r.level > 0
    ensures r.lockoutEnd.Some? && r.QuietStart() + 2 * r.penalty.value <= now
    ensures var after := KeyStep(c, Some(r), op, now);
      after.Some? && after.value.level > 0 ==> op.Fail? && after.value.lockedUntil == Some(now + c.ladder[0])
  {
    if op.Fail? || op.Check? {
      assert !r.LockedAt(now);
      assert Settle(r, now).level <= r.level;
      assert ResetDue(Unlock(r, now), now);
    }
  }

  /**
   The stored level falls only once twice the last penalty has passed since the last counted failure
   or, after a lockout without one, since the lockout ended, and then to the start of the ladder: to 0,
   or to the first rung when the same call locks again.
   */
  lemma {:induction false} LadderFallsOnlyWhenQuiet(c: JoinConfig, es: seq<JoinEvent>, e: JoinEvent, k: RateKey, start: Time)
    requires c.Valid() && Clocked(es, start) && EndTime(es, start) <= e.now
    requires LevelOf(Step(c, Final(c, map[], es), e).0, k) < LevelOf(Final(c, map[], es), k)
    ensures var h := HistoryOf(c, map[], NO_HISTORY, es, k);
      && h.lockouts != [] && h.lastCounted.Some?
      && QuietSince(h) + 2 * h.lockouts[|h.lockouts| - 1].penalty <= e.now
    ensures var after := Lookup(Step(c, Final(c, map[], es), e).0, k);
      after.None? || after.value.level == 0
      || (e.op.Fail? && e.key == k && after.value.lockedUntil == Some(e.now + c.ladder[0]))
  {
    hide Final, HistoryOf, Step, CheckOutcome, FailureOutcome, MaybeReset, Stale;
    HistoryRun(c, map[], NO_HISTORY, es, k, start);
    RunKeepsInv(c, map[], es, start);
    var s := Final(c, map[], es);
    StateInvLater(c, s, EndTime(es, start), e.now);
    StepByKey(c, s, e, k);
    RecordFalls(c, s[k], e.op, e.now);
  }
}
