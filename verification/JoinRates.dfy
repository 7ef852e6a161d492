/**
 How many joins a minute the limiter lets through, seen from outside: by the answers it gave, never by
 the attempts it stores.
 */
module JoinRates {
  import opened Basics
  import opened Windows
  import opened JoinRecords
  import opened JoinLimiting

  /** The call is a check of `k` that is answered with a permission. */
  predicate Grants(c: JoinConfig, s: Records, e: JoinEvent, k: RateKey)
    requires c.Valid()
  {
    e.op.Check? && e.key == k && Step(c, s, e).1 == Checked(Permitted)
  }

  /** The instants of the permitted checks of `k`, in order. */
  function Granted(c: JoinConfig, s: Records, es: seq<JoinEvent>, k: RateKey): seq<Time>
    requires c.Valid()
    decreases |es|
  {
    if es == [] then []
    else
      var rest := Granted(c, Step(c, s, es[0]).0, es[1..], k);
      if Grants(c, s, es[0], k) then [es[0].now] + rest else rest
  }

  /** What the records know of the permitted checks `ts` of a key once the clock shows `now`. */
  ghost predicate Remembers(s: Records, k: RateKey, ts: seq<Time>, now: Time)
  {
    && InOrder(ts, now)
    && Recent(ts, now, RATE_WINDOW) == if k in s then Recent(s[k].attempts, now, RATE_WINDOW) else []
  }

  lemma RemembersLater(s: Records, k: RateKey, ts: seq<Time>, now: Time, later: Time)
    requires Remembers(s, k, ts, now) && now <= later
    ensures Remembers(s, k, ts, later)
  {
    RecentLater(ts, now, later, RATE_WINDOW);
    if k in s {
      RecentLater(s[k].attempts, now, later, RATE_WINDOW);
    }
  }

  // One call.

  /** What is answered to a check, and what becomes of the attempts. */
  lemma {:induction false} CheckedAttempts(c: JoinConfig, r: JoinRecord, now: Time)
    requires c.Valid() && RecordInv(c, r, now)
    ensures var (after, outcome) := CheckOutcome(c, r, now);
            var recent := Recent(r.attempts, now, RATE_WINDOW);
            if r.LockedAt(now) then after.attempts == r.attempts && outcome.LockedOut?
            else if |recent| < c.maxJoins then after.attempts == recent + [now] && outcome.Permitted?
            else after.attempts == recent && !outcome.Permitted?
  {
    RetainIsRecent(r.attempts, now, RATE_WINDOW);
  }

  lemma {:induction false} NewIsFine(c: JoinConfig, now: Time)
    requires c.Valid()
    ensures RecordInv(c, NewRecord(now), now) && Recent(NewRecord(now).attempts, now, RATE_WINDOW) == []
  {
  }

  lemma CheckRemembers(c: JoinConfig, s: Records, k: RateKey, ts: seq<Time>, now: Time)
    requires c.Valid() && StateInv(c, s, now) && Remembers(s, k, ts, now)
    ensures var e := JoinEvent(k, Check, now);
            Remembers(Step(c, s, e).0, k, if Grants(c, s, e, k) then ts + [now] else ts, now)
  {
    hide CheckOutcome, Recent, RecordInv;
    var r := Entry(s, k, now);
    NewIsFine(c, now);
    CheckedAttempts(c, r, now);
    RecentOnce(r.attempts, now, RATE_WINDOW);
    RecentAppend(Recent(r.attempts, now, RATE_WINDOW), now, now, RATE_WINDOW);
    RecentAppend(ts, now, now, RATE_WINDOW);
  }

  /** A failure leaves the attempts alone. */
  lemma FailureAttempts(c: JoinConfig, r: JoinRecord, now: Time)
    requires c.Valid()
    ensures FailureOutcome(c, r, now).attempts == r.attempts
  {
  }

  lemma ResetAttempts(r: JoinRecord, now: Time)
    ensures MaybeReset(r, now).attempts == r.attempts
  {
  }

  lemma PruneRemembers(c: JoinConfig, s: Records, k: RateKey, ts: seq<Time>, now: Time)
    requires c.Valid() && StateInv(c, s, now) && Remembers(s, k, ts, now)
    ensures Remembers(Pruned(c, s, now), k, ts, now)
  {
    if k in s && Stale(c, s[k], now) {
      NoneRecent(s[k].attempts, now, RATE_WINDOW);
    }
  }

  lemma StepRemembers(c: JoinConfig, s: Records, e: JoinEvent, k: RateKey, ts: seq<Time>)
    requires c.Valid() && StateInv(c, s, e.now) && Remembers(s, k, ts, e.now)
    ensures Remembers(Step(c, s, e).0, k, if Grants(c, s, e, k) then ts + [e.now] else ts, e.now)
  {
    hide Recent, CheckOutcome, FailureOutcome, MaybeReset, Stale, RecordInv;
    if e.op.Prune? {
      PruneRemembers(c, s, k, ts, e.now);
    } else if e.key == k && e.op.Check? {
      CheckRemembers(c, s, k, ts, e.now);
    } else if e.key == k && e.op.Fail? {
      NewIsFine(c, e.now);
      FailureAttempts(c, Entry(s, k, e.now), e.now);
    } else if e.key == k && e.op.Level? && k in s {
      ResetAttempts(s[k], e.now);
    }
  }

  lemma OneByOne(ts: seq<Time>, x: Time, rest: seq<Time>)
    ensures ts + [x] + rest == ts + ([x] + rest) && ts + [] == ts
  {
  }

  lemma EndOfRest(es: seq<JoinEvent>, start: Time)
    requires es != []
    ensures EndTime(es, start) == EndTime(es[1..], es[0].now)
  {
  }

  lemma {:induction false} RunRemembers(c: JoinConfig, s: Records, es: seq<JoinEvent>, k: RateKey, ts: seq<Time>, start: Time)
    requires c.Valid() && StateInv(c, s, start) && Clocked(es, start) && Remembers(s, k, ts, start)
    ensures Remembers(Final(c, s, es), k, ts + Granted(c, s, es, k), EndTime(es, start))
    decreases |es|
  {
    if es == [] {
      OneByOne(ts, 0, []);
    } else {
      var e := es[0];
      var more := if Grants(c, s, e, k) then ts + [e.now] else ts;
      var rest := Granted(c, Step(c, s, e).0, es[1..], k);
      OneByOne(ts, e.now, rest);
      EndOfRest(es, start);
      hide Step, Remembers, Grants, StateInv, Recent, InOrder, EndTime;
      StateInvLater(c, s, start, e.now);
      RemembersLater(s, k, ts, start, e.now);
      StepRemembers(c, s, e, k, ts);
      StepKeepsInv(c, s, e, start);
      RunRemembers(c, Step(c, s, e).0, es[1..], k, more, e.now);
    }
  }

  // What callers see.

  /** In any run the instants of the permitted checks of a key are in order, and its records remember the recent ones. */
  lemma {:induction false} RunIsRemembered(c: JoinConfig, es: seq<JoinEvent>, k: RateKey, start: Time, now: Time)
    requires c.Valid() && Clocked(es, start) && EndTime(es, start) <= now
    ensures StateInv(c, Final(c, map[], es), now) && Remembers(Final(c, map[], es), k, Granted(c, map[], es, k), now)
  {
    RunKeepsInv(c, map[], es, start);
    StateInvLater(c, Final(c, map[], es), EndTime(es, start), now);
    RunRemembers(c, map[], es, k, [], start);
    assert [] + Granted(c, map[], es, k) == Granted(c, map[], es, k);
    RemembersLater(Final(c, map[], es), k, Granted(c, map[], es, k), EndTime(es, start), now);
  }

  lemma {:induction false} AnswerFromRecord(c: JoinConfig, r: JoinRecord, now: Time)
    requires c.Valid() && RecordInv(c, r, now) && !r.LockedAt(now)
    ensures var recent := Recent(r.attempts, now, RATE_WINDOW);
            var answer := CheckOutcome(c, r, now).1;
            if |recent| < c.maxJoins then answer == Permitted
            else if c.maxJoins == 0 then answer == Aborts
            else now < recent[0] + RATE_WINDOW ==> answer == RateLimited(WholeSeconds(recent[0] + RATE_WINDOW - now))
  {
    RetainIsRecent(r.attempts, now, RATE_WINDOW);
    RecentAtMost(r.attempts, now, RATE_WINDOW);
  }

  /**
   The answer to a check after any run, prunes included: a key that the limiter reports as locked out is
   told how long; any other is let in if and only if fewer than `maxJoins` of its checks were permitted
   in the last minute, and is otherwise told when the oldest of these will be a minute old.
   */
  lemma {:induction false} CheckAnswer(c: JoinConfig, es: seq<JoinEvent>, k: RateKey, start: Time, now: Time)
    requires c.Valid() && Clocked(es, start) && EndTime(es, start) <= now
    ensures var s := Final(c, map[], es);
            var recent := Recent(Granted(c, map[], es, k), now, 60 * SECOND);
            var answer := Step(c, s, JoinEvent(k, Check, now)).1.outcome;
            match Step(c, s, JoinEvent(k, Remaining, now)).1.left
            case Some(left) => answer == LockedOut(WholeSeconds(left))
            case None =>
              if |recent| < c.maxJoins then answer == Permitted
              else if c.maxJoins == 0 then answer == Aborts
              else now < recent[0] + 60 * SECOND && answer == RateLimited(WholeSeconds(recent[0] + 60 * SECOND - now))
  {
    RunIsRemembered(c, es, k, start, now);
    var s := Final(c, map[], es);
    var ts := Granted(c, map[], es, k);
    hide Final, Granted, Recent, RecordInv;
    NewIsFine(c, now);
    if Recent(ts, now, RATE_WINDOW) != [] {
      FirstRecent(ts, now, RATE_WINDOW);
    }
    if !Entry(s, k, now).LockedAt(now) {
      hide CheckOutcome;
      AnswerFromRecord(c, Entry(s, k, now), now);
    }
  }

  /** The permitted checks `ts` came no faster than the limit allows. */
  ghost predicate Spaced(max: nat, ts: seq<Time>)
  {
    forall i, j :: 0 <= i <= j < |ts| && ts[j] < ts[i] + 60 * SECOND ==> j - i < max
  }

  lemma {:induction false} SpacedAppend(max: nat, ts: seq<Time>, now: Time)
    requires InOrder(ts, now) && Spaced(max, ts) && |Recent(ts, now, 60 * SECOND)| < max
    ensures Spaced(max, ts + [now])
  {
    var more := ts + [now];
    forall i, j | 0 <= i <= j < |more| && more[j] < more[i] + 60 * SECOND
      ensures j - i < max
    {
      if i < |ts| && j == |ts| {
        RecentReaches(ts, now, 60 * SECOND, i);
      } else if j < |ts| {
        assert ts[j] < ts[i] + 60 * SECOND;
      }
    }
  }

  lemma {:induction false} GrantMeansRoom(c: JoinConfig, s: Records, e: JoinEvent, k: RateKey, ts: seq<Time>)
    requires c.Valid() && StateInv(c, s, e.now) && Remembers(s, k, ts, e.now) && Grants(c, s, e, k)
    ensures |Recent(ts, e.now, 60 * SECOND)| < c.maxJoins
  {
    NewIsFine(c, e.now);
    CheckedAttempts(c, Entry(s, k, e.now), e.now);
  }

  lemma {:induction false} RunIsSpaced(c: JoinConfig, s: Records, es: seq<JoinEvent>, k: RateKey, ts: seq<Time>, start: Time)
    requires c.Valid() && StateInv(c, s, start) && Clocked(es, start) && Remembers(s, k, ts, start) && Spaced(c.maxJoins, ts)
    ensures Spaced(c.maxJoins, ts + Granted(c, s, es, k))
    decreases |es|
  {
    if es == [] {
      OneByOne(ts, 0, []);
    } else {
      var e := es[0];
      var more := if Grants(c, s, e, k) then ts + [e.now] else ts;
      OneByOne(ts, e.now, Granted(c, Step(c, s, e).0, es[1..], k));
      RemembersLater(s, k, ts, start, e.now);
      assert InOrder(ts, e.now);
      hide Step, Remembers, Grants, StateInv, Recent, InOrder, Spaced;
      StateInvLater(c, s, start, e.now);
      if Grants(c, s, e, k) {
        GrantMeansRoom(c, s, e, k, ts);
        SpacedAppend(c.maxJoins, ts, e.now);
      }
      StepRemembers(c, s, e, k, ts);
      StepKeepsInv(c, s, e, start);
      RunIsSpaced(c, Step(c, s, e).0, es[1..], k, more, e.now);
    }
  }

  /** In every run, prunes included, no stretch of one minute holds more than `maxJoins` permitted checks of a key. */
  lemma {:induction false} GrantedPerMinute(c: JoinConfig, es: seq<JoinEvent>, k: RateKey, start: Time, i: nat, j: nat)
    requires c.Valid() && Clocked(es, start) && i <= j < |Granted(c, map[], es, k)|
    requires Granted(c, map[], es, k)[j] < Granted(c, map[], es, k)[i] + 60 * SECOND
    ensures j + 1 - i <= c.maxJoins
  {
    RunIsSpaced(c, map[], es, k, [], start);
    assert [] + Granted(c, map[], es, k) == Granted(c, map[], es, k);
  }
}
