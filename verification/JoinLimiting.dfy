/**
 The join limiter: a map from rate keys to records, its operations as a transition
 system on that map, and the class that carries them out in place.
 */
module JoinLimiting {
  import opened Basics
  import opened Windows
  import opened JoinRecords

  type Records = map<RateKey, JoinRecord>

  datatype JoinOp = Check | Fail | Succeed | Level | Remaining | Prune

  /** One call at instant `now`; pruning concerns every key and ignores `key`. */
  datatype JoinEvent = JoinEvent(key: RateKey, op: JoinOp, now: Time)

  datatype JoinOutput = Checked(outcome: JoinOutcome) | LevelIs(level: nat) | RemainingIs(left: Option<Duration>) | Silent

  function Lookup(s: Records, k: RateKey): Option<JoinRecord>
  {
    if k in s then Some(s[k]) else None
  }

  /** The record a call on `k` works on: the stored one, or a new one. */
  function Entry(s: Records, k: RateKey, now: Time): JoinRecord
  {
    if k in s then s[k] else NewRecord(now)
  }

  function Pruned(c: JoinConfig, s: Records, now: Time): Records
  {
    map k | k in s && !Stale(c, s[k], now) :: s[k]
  }

  function Step(c: JoinConfig, s: Records, e: JoinEvent): (Records, JoinOutput)
    requires c.Valid()
  {
    match e.op
    case Check =>
      var (r, outcome) := CheckOutcome(c, Entry(s, e.key, e.now), e.now);
      (s[e.key := r], Checked(outcome))
    case Fail =>
      (s[e.key := FailureOutcome(c, Entry(s, e.key, e.now), e.now)], Silent)
    case Succeed =>
      (if e.key in s then s[e.key := SuccessOutcome(s[e.key], e.now)] else s, Silent)
    case Level =>
      if e.key in s then
        var r := MaybeReset(s[e.key], e.now);
        (s[e.key := r], LevelIs(r.level))
      else
        (s, LevelIs(0))
    case Remaining =>
      (s, RemainingIs(if e.key in s then RemainingAt(s[e.key], e.now) else None))
    case Prune =>
      (Pruned(c, s, e.now), Silent)
  }

  /** The state after the calls `es`, starting from `s`. */
  function Final(c: JoinConfig, s: Records, es: seq<JoinEvent>): Records
    requires c.Valid()
    decreases |es|
  {
    if es == [] then s else Final(c, Step(c, s, es[0]).0, es[1..])
  }

  /** What the callers of `es` see; pruning is a background task and answers nobody. */
  function Outputs(c: JoinConfig, s: Records, es: seq<JoinEvent>): seq<JoinOutput>
    requires c.Valid()
    decreases |es|
  {
    if es == [] then
      []
    else
      var (next, output) := Step(c, s, es[0]);
      if es[0].op.Prune? then Outputs(c, next, es[1..]) else [output] + Outputs(c, next, es[1..])
  }

  /** The clock does not run backwards and starts no earlier than `start`. */
  ghost predicate Clocked(es: seq<JoinEvent>, start: Time)
  {
    es != [] ==> start <= es[0].now && Clocked(es[1..], es[0].now)
  }

  ghost predicate StateInv(c: JoinConfig, s: Records, now: Time)
  {
    forall k :: k in s ==> RecordInv(c, s[k], now)
  }

  lemma StateInvLater(c: JoinConfig, s: Records, now: Time, later: Time)
    requires StateInv(c, s, now) && now <= later
    ensures StateInv(c, s, later)
  {
  }

  lemma StepKeepsInv(c: JoinConfig, s: Records, e: JoinEvent, start: Time)
    requires c.Valid() && StateInv(c, s, start) && start <= e.now
    ensures StateInv(c, Step(c, s, e).0, e.now)
  {
    assert StateInv(c, s, e.now);
    match e.op
    case Check =>
      CheckKeepsInv(c, Entry(s, e.key, e.now), e.now);
    case Fail =>
      FailureKeepsInv(c, Entry(s, e.key, e.now), e.now);
    case Succeed =>
    case Level =>
      if e.key in s && !s[e.key].LockedAt(e.now) {
        SettleKeepsInv(c, s[e.key], e.now);
      }
    case Remaining =>
    case Prune =>
  }

  /** The instant of the last call, or `start` when there is none. */
  function EndTime(es: seq<JoinEvent>, start: Time): Time
  {
    if es == [] then start else es[|es| - 1].now
  }

  lemma {:induction false} RunKeepsInv(c: JoinConfig, s: Records, es: seq<JoinEvent>, start: Time)
    requires c.Valid() && StateInv(c, s, start) && Clocked(es, start)
    ensures StateInv(c, Final(c, s, es), EndTime(es, start))
    decreases |es|
  {
    if es != [] {
      StepKeepsInv(c, s, es[0], start);
      RunKeepsInv(c, Step(c, s, es[0]).0, es[1..], es[0].now);
    }
  }

  /** Over every run, a check aborts exactly when joins are limited to none and the key is not locked out. */
  lemma {:induction false} CheckAbortsIff(c: JoinConfig, es: seq<JoinEvent>, k: RateKey, start: Time, now: Time)
    requires c.Valid() && Clocked(es, start) && EndTime(es, start) <= now
    ensures var s := Final(c, map[], es);
            Step(c, s, JoinEvent(k, Check, now)).1 == Checked(Aborts)
            <==> c.maxJoins == 0 && !(k in s && s[k].LockedAt(now))
  {
    RunKeepsInv(c, map[], es, start);
    StateInvLater(c, Final(c, map[], es), EndTime(es, start), now);
  }

  class JoinLimiter {
    const config: JoinConfig
    var records: Records

    ghost predicate Valid() {
      config.Valid()
    }

    /** Thresholds and windows below one are raised to one; an empty ladder becomes the default. */
    constructor WithLadder(maxJoins: nat, threshold: nat, failedWindowSecs: nat, ladder: seq<Duration>)
      ensures Valid() && records == map[]
      ensures config == JoinConfig(maxJoins, Max(threshold, 1), Max(failedWindowSecs, 1) * SECOND,
                                   if ladder == [] then DEFAULT_LADDER else ladder)
    {
      config := JoinConfig(maxJoins, Max(threshold, 1), Max(failedWindowSecs, 1) * SECOND,
                           if ladder == [] then DEFAULT_LADDER else ladder);
      records := map[];
    }

    method CheckJoinPermittedAt(key: RateKey, now: Time) returns (outcome: JoinOutcome)
      requires Valid()
      modifies this
      ensures Valid()
      ensures (records, Checked(outcome)) == Step(config, old(records), JoinEvent(key, Check, now))
    {
      var entry := if key in records then records[key] else NewRecord(now);
      if entry.lockedUntil.Some? {
        var until := entry.lockedUntil.value;
        if now < until {
          records := records[key := entry];
          return LockedOut(RetrySeconds(until - now));
        }
        entry := entry.(lockedUntil := None, failed := [], lastFailed := None);
      }
      entry := MaybeReset(entry, now);
      entry := entry.(lastActivity := now);
      entry := entry.(attempts := Retain(entry.attempts, now, RATE_WINDOW, 0));
      if |entry.attempts| >= config.maxJoins {
        if entry.attempts == [] {
          records := records[key := entry];
          return Aborts;
        }
        var elapsed := Since(now, entry.attempts[0]);
        records := records[key := entry];
        return RateLimited(if elapsed < RATE_WINDOW then RetrySeconds(RATE_WINDOW - elapsed) else 1);
      }
      entry := entry.(attempts := entry.attempts + [now]);
      records := records[key := entry];
      return Permitted;
    }

    method RecordFailureAt(key: RateKey, now: Time)
      requires Valid()
      modifies this
      ensures Valid()
      ensures records == Step(config, old(records), JoinEvent(key, Fail, now)).0
    {
      var entry := if key in records then records[key] else NewRecord(now);
      if entry.lockedUntil.Some? {
        if now < entry.lockedUntil.value {
          records := records[key := entry];
          return;
        }
        entry := entry.(lockedUntil := None, failed := [], lastFailed := None);
      }
      entry := MaybeReset(entry, now);
      entry := entry.(lastActivity := now);
      entry := entry.(failed := Retain(entry.failed, now, config.failedWindow, entry.Floor()));
      entry := entry.(failed := entry.failed + [now], lastFailed := Some(now));
      if |entry.failed| >= config.threshold {
        var penalty := config.ladder[Min(entry.level, |config.ladder| - 1)];
        var end := now + penalty;
        entry := entry.(lockedUntil := Some(end), lockoutEnd := Some(end), penalty := Some(penalty));
        entry := entry.(failed := [], lastFailed := None);
        if entry.level + 1 < |config.ladder| {
          entry := entry.(level := entry.level + 1);
        }
      }
      records := records[key := entry];
    }

    method RecordSuccessAt(key: RateKey, now: Time)
      requires Valid()
      modifies this
      ensures Valid()
      ensures records == Step(config, old(records), JoinEvent(key, Succeed, now)).0
    {
      if key in records {
        records := records[key := records[key].(failed := [], lastActivity := now)];
      }
    }

    method PruneStaleAt(now: Time)
      requires Valid()
      modifies this
      ensures Valid()
      ensures records == Pruned(config, old(records), now)
    {
      records := map k | k in records && !Stale(config, records[k], now) :: records[k];
    }

    method GetLadderLevelAt(key: RateKey, now: Time) returns (level: nat)
      requires Valid()
      modifies this
      ensures Valid()
      ensures (records, LevelIs(level)) == Step(config, old(records), JoinEvent(key, Level, now))
    {
      if key in records {
        var entry := MaybeReset(records[key], now);
        records := records[key := entry];
        return entry.level;
      }
      return 0;
    }

    method GetLockoutRemainingAt(key: RateKey, now: Time) returns (left: Option<Duration>)
      requires Valid()
      ensures (records, RemainingIs(left)) == Step(config, records, JoinEvent(key, Remaining, now))
    {
      if key in records && records[key].lockedUntil.Some? && now < records[key].lockedUntil.value {
        return Some(records[key].lockedUntil.value - now);
      }
      return None;
    }
  }
}
