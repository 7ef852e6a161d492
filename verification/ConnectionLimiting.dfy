/**
 The connection limiter: a one-minute window of accepted attempts per key and an exponential
 backoff for clients that exceed it or keep trying while blocked.
 */
module ConnectionLimiting {
  import opened Basics
  import opened Windows

  const WINDOW: Duration := 60 * SECOND
  const LEVEL_CAP: nat := 10

  datatype ConnConfig = ConnConfig(maxPerMinute: nat, baseBackoff: Duration, maxBackoff: Duration)

  datatype ConnRecord = ConnRecord(attempts: seq<Time>, level: nat, blockedUntil: Option<Time>, lastAttempt: Time)
  {
    predicate BlockedAt(now: Time) {
      blockedUntil.Some? && now < blockedUntil.value
    }
  }

  type ConnRecords = map<RateKey, ConnRecord>

  datatype ConnOutcome = Accepted | Rejected(retryAfterSecs: nat)

  /** An attempt of `key`, or a pruning of all keys. */
  datatype ConnEvent = Attempt(key: RateKey, now: Time) | Sweep(now: Time)

  function Pow2(n: nat): (p: nat)
    ensures p >= 1
  {
    if n == 0 then 1 else 2 * Pow2(n - 1)
  }

  function Multiplier(level: nat): (m: nat)
    ensures m >= 1
  {
    Pow2(if level == 0 then 0 else level - 1)
  }

  /** The backoff imposed at `level`: the base doubled per level above the first, up to the maximum. */
  function Backoff(c: ConnConfig, level: nat): Duration
  {
    Min(c.baseBackoff * Multiplier(level), c.maxBackoff)
  }

  function Raise(level: nat): nat
  {
    Min(level + 1, LEVEL_CAP)
  }

  function NewConn(now: Time): ConnRecord
  {
    ConnRecord([], 0, None, now)
  }

  /** The record after an expired block was lifted. */
  function Unblock(r: ConnRecord, now: Time): ConnRecord
  {
    if r.blockedUntil.None? then r else
      r.(level := if Since(now, r.lastAttempt) > WINDOW * 2 then 0 else r.level, blockedUntil := None)
  }

  function Try(c: ConnConfig, r: ConnRecord, now: Time): (ConnRecord, ConnOutcome)
  {
    if r.BlockedAt(now) then
      var level := Raise(r.level);
      (r.(level := level, blockedUntil := Some(now + Backoff(c, level)), lastAttempt := now),
       Rejected(RetrySeconds(r.blockedUntil.value - now)))
    else
      var u := Unblock(r, now).(lastAttempt := now, attempts := Retain(r.attempts, now, WINDOW, 0));
      if |u.attempts| >= c.maxPerMinute then
        var level := Raise(u.level);
        (u.(level := level, blockedUntil := Some(now + Backoff(c, level))), Rejected(RetrySeconds(Backoff(c, level))))
      else
        (u.(attempts := u.attempts + [now]), Accepted)
  }

  predicate Expired(c: ConnConfig, r: ConnRecord, now: Time)
  {
    !r.BlockedAt(now) && Since(now, r.lastAttempt) >= WINDOW + c.maxBackoff
  }

  function Entry(s: ConnRecords, k: RateKey, now: Time): ConnRecord
  {
    if k in s then s[k] else NewConn(now)
  }

  function Swept(c: ConnConfig, s: ConnRecords, now: Time): ConnRecords
  {
    map k | k in s && !Expired(c, s[k], now) :: s[k]
  }

  function Next(c: ConnConfig, s: ConnRecords, e: ConnEvent): ConnRecords
  {
    match e
    case Attempt(k, now) => s[k := Try(c, Entry(s, k, now), now).0]
    case Sweep(now) => Swept(c, s, now)
  }

  function Final(c: ConnConfig, s: ConnRecords, es: seq<ConnEvent>): ConnRecords
    decreases |es|
  {
    if es == [] then s else Final(c, Next(c, s, es[0]), es[1..])
  }

  ghost predicate Clocked(es: seq<ConnEvent>, start: Time)
  {
    es != [] ==> start <= es[0].now && Clocked(es[1..], es[0].now)
  }

  function EndTime(es: seq<ConnEvent>, start: Time): Time
  {
    if es == [] then start else es[|es| - 1].now
  }

  ghost predicate ConnInv(c: ConnConfig, r: ConnRecord, now: Time)
  {
    && r.lastAttempt <= now
    && AtMost(r.attempts, r.lastAttempt)
    && |r.attempts| <= c.maxPerMinute
    && (r.blockedUntil.Some? ==> r.level >= 1 && r.blockedUntil.value == r.lastAttempt + Backoff(c, r.level))
  }

  ghost predicate StateInv(c: ConnConfig, s: ConnRecords, now: Time)
  {
    forall k :: k in s ==> ConnInv(c, s[k], now)
  }

  lemma MulMonotone(x: nat, y: nat, z: nat)
    requires y <= z
    ensures x * y <= x * z
  {
  }

  lemma BackoffGrows(c: ConnConfig, level: nat)
    requires 1 <= level <= LEVEL_CAP
    ensures Backoff(c, level) <= Backoff(c, Raise(level))
  {
    if level < LEVEL_CAP {
      var x, y := Pow2(level - 1), Pow2(level);
      assert x <= y;
      hide Pow2;
      MulMonotone(c.baseBackoff, x, y);
    }
  }

  lemma NextKeepsInv(c: ConnConfig, s: ConnRecords, e: ConnEvent, start: Time)
    requires StateInv(c, s, start) && start <= e.now
    ensures StateInv(c, Next(c, s, e), e.now)
  {
    hide Backoff;
    if e.Attempt? {
      var r := Entry(s, e.key, e.now);
      RetainBounds(r.attempts, e.now, WINDOW, 0, r.lastAttempt);
    }
  }

  lemma {:induction false} RunKeepsInv(c: ConnConfig, s: ConnRecords, es: seq<ConnEvent>, start: Time)
    requires StateInv(c, s, start) && Clocked(es, start)
    ensures StateInv(c, Final(c, s, es), EndTime(es, start))
    decreases |es|
  {
    hide Next, StateInv;
    if es != [] {
      NextKeepsInv(c, s, es[0], start);
      RunKeepsInv(c, Next(c, s, es[0]), es[1..], es[0].now);
    }
  }

  // At most `maxPerMinute` accepted attempts in a minute.

  predicate Accepts(c: ConnConfig, s: ConnRecords, e: ConnEvent, k: RateKey)
  {
    e.Attempt? && e.key == k && Try(c, Entry(s, k, e.now), e.now).1.Accepted?
  }

  function CountAccepted(c: ConnConfig, s: ConnRecords, es: seq<ConnEvent>, k: RateKey): nat
    decreases |es|
  {
    if es == [] then 0
    else (if Accepts(c, s, es[0], k) then 1 else 0) + CountAccepted(c, Next(c, s, es[0]), es[1..], k)
  }

  ghost predicate OneMinute(es: seq<ConnEvent>, from: Time)
  {
    forall e :: e in es ==> from <= e.now < from + WINDOW
  }

  /** `n` attempts accepted since `from` are still stored. */
  ghost predicate Quota(s: ConnRecords, k: RateKey, n: nat, from: Time)
  {
    n == 0 || (k in s && s[k].lastAttempt >= from && TailAtLeast(s[k].attempts, n, from))
  }

  lemma QuotaStep(c: ConnConfig, s: ConnRecords, e: ConnEvent, k: RateKey, n: nat, from: Time)
    requires Quota(s, k, n, from) && StateInv(c, s, e.now) && from <= e.now < from + WINDOW
    ensures Quota(Next(c, s, e), k, if Accepts(c, s, e, k) then n + 1 else n, from)
  {
    hide Backoff;
    if e.Attempt? && e.key == k && n > 0 {
      RetainTail(s[k].attempts, n, from, e.now, WINDOW, 0);
    }
  }

  lemma {:induction false} QuotaRun(c: ConnConfig, s: ConnRecords, es: seq<ConnEvent>, k: RateKey, n: nat, from: Time, start: Time)
    requires StateInv(c, s, start) && Clocked(es, start) && OneMinute(es, from) && Quota(s, k, n, from)
    ensures n + CountAccepted(c, s, es, k) <= c.maxPerMinute
    decreases |es|
  {
    hide Next, Accepts;
    if es != [] {
      assert StateInv(c, s, es[0].now);
      QuotaStep(c, s, es[0], k, n, from);
      NextKeepsInv(c, s, es[0], start);
      QuotaRun(c, Next(c, s, es[0]), es[1..], k, if Accepts(c, s, es[0], k) then n + 1 else n, from, es[0].now);
    }
  }

  /** Over any run with sweeps, no minute sees more than `maxPerMinute` accepted attempts of a key. */
  lemma {:induction false} AcceptedPerMinute(c: ConnConfig, before: seq<ConnEvent>, es: seq<ConnEvent>, k: RateKey, from: Time, start: Time)
    requires Clocked(before, start) && Clocked(es, EndTime(before, start)) && OneMinute(es, from)
    ensures CountAccepted(c, Final(c, map[], before), es, k) <= c.maxPerMinute
  {
    RunKeepsInv(c, map[], before, start);
    QuotaRun(c, Final(c, map[], before), es, k, 0, from, EndTime(before, start));
  }

  // Blocks only move later, and never beyond the maximum.

  ghost predicate LevelInv(s: ConnRecords)
  {
    forall k :: k in s ==> s[k].level <= LEVEL_CAP
  }

  lemma {:induction false} RunKeepsLevel(c: ConnConfig, s: ConnRecords, es: seq<ConnEvent>)
    requires LevelInv(s)
    ensures LevelInv(Final(c, s, es))
    decreases |es|
  {
    hide Backoff;
    if es != [] {
      RunKeepsLevel(c, Next(c, s, es[0]), es[1..]);
    }
  }

  lemma {:induction false} BlockHolds(c: ConnConfig, s: ConnRecords, es: seq<ConnEvent>, k: RateKey, until: Time, start: Time)
    requires StateInv(c, s, start) && LevelInv(s) && Clocked(es, start)
    requires k in s && s[k].blockedUntil.Some? && until <= s[k].blockedUntil.value
    requires forall e :: e in es ==> e.now < until
    ensures var t := Final(c, s, es); k in t && t[k].blockedUntil.Some? && until <= t[k].blockedUntil.value
    ensures CountAccepted(c, s, es, k) == 0
    decreases |es|
  {
    hide Backoff;
    if es != [] {
      var e := es[0];
      NextKeepsInv(c, s, e, start);
      BackoffGrows(c, s[k].level);
      BlockHolds(c, Next(c, s, e), es[1..], k, until, e.now);
    }
  }

  /**
   A block found active is never moved earlier while it lasts, whatever the client does, lets no
   attempt through, and ends at most `maxBackoff` after the last attempt.
   */
  lemma {:induction false} BlockNeverShrinks(c: ConnConfig, before: seq<ConnEvent>, es: seq<ConnEvent>, k: RateKey, start: Time)
    requires Clocked(before, start) && Clocked(es, EndTime(before, start))
    requires var s := Final(c, map[], before);
      k in s && s[k].blockedUntil.Some? && forall e :: e in es ==> e.now < s[k].blockedUntil.value
    ensures var s := Final(c, map[], before); var t := Final(c, s, es);
      && k in t && t[k].blockedUntil.Some? && s[k].blockedUntil.value <= t[k].blockedUntil.value
      && t[k].blockedUntil.value <= t[k].lastAttempt + c.maxBackoff
      && CountAccepted(c, s, es, k) == 0
  {
    hide Next, Multiplier;
    RunKeepsInv(c, map[], before, start);
    RunKeepsLevel(c, map[], before);
    var s := Final(c, map[], before);
    BlockHolds(c, s, es, k, s[k].blockedUntil.value, EndTime(before, start));
    RunKeepsInv(c, s, es, EndTime(before, start));
  }

  // Silence heals.

  /** The stored `lastAttempt` of `k` is the instant of one of its attempts in `es`, or was there before. */
  lemma {:induction false} LastAttemptIsAnAttempt(c: ConnConfig, s: ConnRecords, es: seq<ConnEvent>, k: RateKey)
    requires k in Final(c, s, es)
    ensures var t := Final(c, s, es);
      (k in s && t[k].lastAttempt == s[k].lastAttempt) || Attempt(k, t[k].lastAttempt) in es
    decreases |es|
  {
    hide Backoff;
    if es != [] {
      LastAttemptIsAnAttempt(c, Next(c, s, es[0]), es[1..], k);
    }
  }

  /** After a minute and a full maximal backoff without an attempt, the next attempt is accepted. */
  lemma {:induction false} SilenceHeals(c: ConnConfig, es: seq<ConnEvent>, k: RateKey, now: Time, start: Time)
    requires c.maxPerMinute >= 1 && Clocked(es, start) && EndTime(es, start) <= now
    requires forall t: Time :: Attempt(k, t) in es ==> t + Max(WINDOW, c.maxBackoff) <= now
    ensures Accepts(c, Final(c, map[], es), Attempt(k, now), k)
  {
    hide Multiplier;
    var s := Final(c, map[], es);
    RunKeepsInv(c, map[], es, start);
    if k in s {
      LastAttemptIsAnAttempt(c, map[], es, k);
      RetainNothing(s[k].attempts, now, WINDOW, 0, s[k].lastAttempt);
    }
  }

  class ConnectionLimiter {
    const config: ConnConfig
    var records: ConnRecords

    constructor (maxPerMinute: nat, baseBackoffSecs: nat, maxBackoffSecs: nat)
      ensures records == map[]
      ensures config == ConnConfig(maxPerMinute, Max(baseBackoffSecs, 1) * SECOND, Max(maxBackoffSecs, 1) * SECOND)
    {
      config := ConnConfig(maxPerMinute, Max(baseBackoffSecs, 1) * SECOND, Max(maxBackoffSecs, 1) * SECOND);
      records := map[];
    }

    method CheckAndRecord(key: RateKey, now: Time) returns (outcome: ConnOutcome)
      modifies this
      ensures records == Next(config, old(records), Attempt(key, now))
      ensures outcome == Try(config, Entry(old(records), key, now), now).1
    {
      hide Multiplier;
      var entry := if key in records then records[key] else NewConn(now);
      if entry.blockedUntil.Some? {
        var until := entry.blockedUntil.value;
        if now < until {
          entry := entry.(level := Min(entry.level + 1, LEVEL_CAP));
          var multiplier := Multiplier(entry.level);
          var backoff := Min(config.baseBackoff * multiplier, config.maxBackoff);
          entry := entry.(blockedUntil := Some(now + backoff));
          entry := entry.(lastAttempt := now);
          records := records[key := entry];
          return Rejected(RetrySeconds(until - now));
        }
        if Since(now, entry.lastAttempt) > WINDOW * 2 {
          entry := entry.(level := 0);
        }
        entry := entry.(blockedUntil := None);
      }
      entry := entry.(lastAttempt := now);
      entry := entry.(attempts := Retain(entry.attempts, now, WINDOW, 0));
      if |entry.attempts| >= config.maxPerMinute {
        entry := entry.(level := Min(entry.level + 1, LEVEL_CAP));
        var multiplier := Multiplier(entry.level);
        var backoff := Min(config.baseBackoff * multiplier, config.maxBackoff);
        entry := entry.(blockedUntil := Some(now + backoff));
        outcome := Rejected(RetrySeconds(backoff));
      } else {
        entry := entry.(attempts := entry.attempts + [now]);
        outcome := Accepted;
      }
      records := records[key := entry];
    }

    method PruneStale(now: Time)
      modifies this
      ensures records == Next(config, old(records), Sweep(now))
    {
      records := map k | k in records && !Expired(config, records[k], now) :: records[k];
    }
  }
}
