/**
 The connection limiter as a function of history. Every answer follows from what the client did and
 was told before, and from when idle clients were forgotten; the stored windows, levels and block
 ends are compared with a reference that keeps all accepted attempts and counts refusals.
 */
module ConnectionHistory {
  import opened Basics
  import opened Windows
  import opened ConnectionLimiting

  /**
   A client as its own history shows it: the attempts that were accepted, the refusals still held
   against it, the instant of its last attempt, and whether that one was refused.
   */
  datatype Client = Client(accepted: seq<Time>, strikes: nat, last: Time, refused: bool)

  const STRANGER := Client([], 0, 0, false)

  /** How long a client is blocked on its n-th strike: twice as long as on the one before, up to the tenth and the maximum. */
  function Penalty(c: ConnConfig, strikes: nat): Duration
  {
    if strikes <= 1 then Min(c.baseBackoff, c.maxBackoff)
    else if strikes <= 10 then Min(2 * Penalty(c, strikes - 1), c.maxBackoff)
    else Penalty(c, strikes - 1)
  }

  predicate Held(c: ConnConfig, w: Client, now: Time)
  {
    w.refused && now < w.last + Penalty(c, w.strikes)
  }

  /** Two minutes of silence after a refusal clear the strikes. */
  function Strikes(w: Client, now: Time): nat
  {
    if w.refused && w.last + 120 * SECOND < now then 0 else w.strikes
  }

  /**
   A blocked client is told how long its block still lasts; any other is let in if and only if fewer
   than `maxPerMinute` of its attempts were accepted in the last minute, and is blocked otherwise.
   */
  function Answer(c: ConnConfig, w: Client, now: Time): ConnOutcome
  {
    if Held(c, w, now) then Rejected(WholeSeconds(w.last + Penalty(c, w.strikes) - now))
    else if |Recent(w.accepted, now, 60 * SECOND)| < c.maxPerMinute then Accepted
    else Rejected(WholeSeconds(Penalty(c, Strikes(w, now) + 1)))
  }

  /** An accepted attempt is no strike, a refused one is; a sweep clears the strikes of a client it forgets. */
  function After(c: ConnConfig, w: Client, e: ConnEvent, k: RateKey): Client
  {
    match e
    case Attempt(key, now) =>
      if key != k then w
      else if Answer(c, w, now) == Accepted then Client(w.accepted + [now], Strikes(w, now), now, false)
      else Client(w.accepted, (if Held(c, w, now) then w.strikes else Strikes(w, now)) + 1, now, true)
    case Sweep(now) =>
      if Held(c, w, now) || now < w.last + 60 * SECOND + c.maxBackoff then w else w.(strikes := 0, refused := false)
  }

  function Known(c: ConnConfig, w: Client, es: seq<ConnEvent>, k: RateKey): Client
    decreases |es|
  {
    if es == [] then w else Known(c, After(c, w, es[0], k), es[1..], k)
  }

  /** The stored records agree with the reference on everything that later answers depend on. */
  ghost predicate Agrees(c: ConnConfig, s: ConnRecords, k: RateKey, w: Client, now: Time)
  {
    && AtMost(w.accepted, w.last) && w.last <= now
    && if k !in s then
         !w.refused && w.strikes == 0 && Recent(w.accepted, now, WINDOW) == []
       else
         && s[k].lastAttempt == w.last && AtMost(s[k].attempts, w.last)
         && s[k].level == Min(w.strikes, LEVEL_CAP) && (w.refused ==> w.strikes >= 1)
         && s[k].blockedUntil == (if w.refused then Some(w.last + Penalty(c, w.strikes)) else None)
         && Recent(s[k].attempts, now, WINDOW) == Recent(w.accepted, now, WINDOW)
  }

  lemma CappedDoubling(x: nat, max: nat)
    ensures Min(2 * Min(x, max), max) == Min(2 * x, max)
  {
  }

  lemma Doubling(base: nat, p: nat)
    ensures base * (2 * p) == 2 * (base * p)
  {
  }

  /** The stored level gives the block of the reference. */
  lemma {:induction false} PenaltyIsBackoff(c: ConnConfig, strikes: nat)
    requires strikes >= 1
    ensures Penalty(c, strikes) == Backoff(c, Min(strikes, LEVEL_CAP))
  {
    if strikes == 1 {
      assert Pow2(0) == 1;
    } else {
      PenaltyIsBackoff(c, strikes - 1);
      if strikes <= 10 {
        Doubling(c.baseBackoff, Pow2(strikes - 2));
        CappedDoubling(c.baseBackoff * Pow2(strikes - 2), c.maxBackoff);
      }
    }
  }

  lemma AgreesLater(c: ConnConfig, s: ConnRecords, k: RateKey, w: Client, now: Time, later: Time)
    requires Agrees(c, s, k, w, now) && now <= later
    ensures Agrees(c, s, k, w, later)
  {
    hide Penalty;
    RecentLater(w.accepted, now, later, WINDOW);
    if k in s {
      RecentLater(s[k].attempts, now, later, WINDOW);
    }
  }

  /** An attempt during a block. */
  lemma HeldAgrees(c: ConnConfig, s: ConnRecords, k: RateKey, w: Client, now: Time)
    requires Agrees(c, s, k, w, now) && k in s && s[k].BlockedAt(now)
    ensures Try(c, s[k], now).1 == Answer(c, w, now)
    ensures Agrees(c, s[k := Try(c, s[k], now).0], k, After(c, w, Attempt(k, now), k), now)
  {
    PenaltyIsBackoff(c, w.strikes + 1);
    hide Penalty, Backoff, Recent;
  }

  /** The record and the reference as an attempt outside a block finds them. */
  lemma {:induction false} WindowAgrees(c: ConnConfig, s: ConnRecords, k: RateKey, w: Client, now: Time)
    requires Agrees(c, s, k, w, now) && !Entry(s, k, now).BlockedAt(now)
    ensures var u := Unblock(Entry(s, k, now), now);
            && Retain(u.attempts, now, WINDOW, 0) == Recent(w.accepted, now, WINDOW)
            && u.level == Min(Strikes(w, now), LEVEL_CAP) && u.blockedUntil.None?
            && AtMost(Recent(w.accepted, now, WINDOW), now)
  {
    hide Penalty;
    RetainIsRecent(Entry(s, k, now).attempts, now, WINDOW);
    RecentAtMost(w.accepted, now, WINDOW);
  }

  /** The record that an attempt outside a block leaves, and its answer, in the terms of the reference. */
  function Left(c: ConnConfig, w: Client, now: Time): (ConnRecord, ConnOutcome)
  {
    var recent, strikes := Recent(w.accepted, now, WINDOW), Strikes(w, now);
    if |recent| < c.maxPerMinute then (ConnRecord(recent + [now], Min(strikes, LEVEL_CAP), None, now), Accepted)
    else
      var until := now + Penalty(c, strikes + 1);
      (ConnRecord(recent, Min(strikes + 1, LEVEL_CAP), Some(until), now), Rejected(WholeSeconds(Penalty(c, strikes + 1))))
  }

  lemma TryLeaves(c: ConnConfig, s: ConnRecords, k: RateKey, w: Client, now: Time)
    requires Agrees(c, s, k, w, now) && !Entry(s, k, now).BlockedAt(now)
    ensures Try(c, Entry(s, k, now), now) == Left(c, w, now)
    ensures Try(c, Entry(s, k, now), now).1 == Answer(c, w, now)
  {
    WindowAgrees(c, s, k, w, now);
    PenaltyIsBackoff(c, Strikes(w, now) + 1);
    assert !Held(c, w, now);
    hide Penalty, Backoff, Recent, Unblock, Retain, Strikes, Held, Agrees;
  }

  lemma LeftAgrees(c: ConnConfig, s: ConnRecords, k: RateKey, w: Client, now: Time)
    requires Agrees(c, s, k, w, now) && !Held(c, w, now)
    ensures Agrees(c, s[k := Left(c, w, now).0], k, After(c, w, Attempt(k, now), k), now)
  {
    hide Penalty, Recent, Strikes, Held;
    RecentAtMost(w.accepted, now, WINDOW);
    RecentOnce(w.accepted, now, WINDOW);
    RecentAppend(w.accepted, now, now, WINDOW);
    RecentAppend(Recent(w.accepted, now, WINDOW), now, now, WINDOW);
  }

  lemma FreeAgrees(c: ConnConfig, s: ConnRecords, k: RateKey, w: Client, now: Time)
    requires Agrees(c, s, k, w, now) && !Entry(s, k, now).BlockedAt(now)
    ensures Try(c, Entry(s, k, now), now).1 == Answer(c, w, now)
    ensures Agrees(c, s[k := Try(c, Entry(s, k, now), now).0], k, After(c, w, Attempt(k, now), k), now)
  {
    assert !Held(c, w, now);
    hide Try, Left, Answer, After, Agrees, Held;
    TryLeaves(c, s, k, w, now);
    LeftAgrees(c, s, k, w, now);
  }

  lemma SweepAgrees(c: ConnConfig, s: ConnRecords, k: RateKey, w: Client, now: Time)
    requires Agrees(c, s, k, w, now)
    ensures Agrees(c, Swept(c, s, now), k, After(c, w, Sweep(now), k), now)
  {
    hide Penalty, Recent;
    if k in s && Expired(c, s[k], now) {
      NoneRecent(w.accepted, now, WINDOW);
    }
  }

  lemma NextAgrees(c: ConnConfig, s: ConnRecords, e: ConnEvent, k: RateKey, w: Client)
    requires Agrees(c, s, k, w, e.now)
    ensures Agrees(c, Next(c, s, e), k, After(c, w, e, k), e.now)
  {
    hide Penalty, Recent, Try, Answer;
    match e
    case Sweep(now) => SweepAgrees(c, s, k, w, now);
    case Attempt(key, now) =>
      if key == k {
        if Entry(s, k, now).BlockedAt(now) {
          HeldAgrees(c, s, k, w, now);
        } else {
          FreeAgrees(c, s, k, w, now);
        }
      }
  }

  lemma {:induction false} RunAgrees(c: ConnConfig, s: ConnRecords, es: seq<ConnEvent>, k: RateKey, w: Client, start: Time)
    requires Agrees(c, s, k, w, start) && Clocked(es, start)
    ensures Agrees(c, Final(c, s, es), k, Known(c, w, es, k), EndTime(es, start))
    decreases |es|
  {
    if es != [] {
      assert EndTime(es, start) == EndTime(es[1..], es[0].now);
      hide Agrees, After, Next, EndTime;
      AgreesLater(c, s, k, w, start, es[0].now);
      NextAgrees(c, s, es[0], k, w);
      RunAgrees(c, Next(c, s, es[0]), es[1..], k, After(c, w, es[0], k), es[0].now);
    }
  }

  /** After every run, sweeps included, an attempt of any key is answered as the reference answers it. */
  lemma {:induction false} LimiterFollowsHistory(c: ConnConfig, es: seq<ConnEvent>, k: RateKey, start: Time, now: Time)
    requires Clocked(es, start) && EndTime(es, start) <= now
    ensures Try(c, Entry(Final(c, map[], es), k, now), now).1 == Answer(c, Known(c, STRANGER, es, k), now)
  {
    var s, w := Final(c, map[], es), Known(c, STRANGER, es, k);
    assert Agrees(c, map[], k, STRANGER, start);
    hide Agrees, Try, Answer, Final, Known, EndTime;
    RunAgrees(c, map[], es, k, STRANGER, start);
    AgreesLater(c, s, k, w, EndTime(es, start), now);
    if Entry(s, k, now).BlockedAt(now) {
      assert k in s;
      HeldAgrees(c, s, k, w, now);
    } else {
      FreeAgrees(c, s, k, w, now);
    }
  }

  // Which clients are tracked.

  lemma {:induction false} RecentAttemptIsTracked(c: ConnConfig, s: ConnRecords, es: seq<ConnEvent>, k: RateKey, t: Time, now: Time, start: Time)
    requires Clocked(es, start) && EndTime(es, start) <= now < t + WINDOW + c.maxBackoff
    requires (k in s && t <= s[k].lastAttempt <= start) || Attempt(k, t) in es
    ensures k in Final(c, s, es) && Final(c, s, es)[k].lastAttempt >= t
    decreases |es|
  {
    if es != [] {
      assert EndTime(es, start) == EndTime(es[1..], es[0].now);
      EndIsLast(es, start);
      assert es == [es[0]] + es[1..];
      hide Backoff, Retain, Unblock;
      RecentAttemptIsTracked(c, Next(c, s, es[0]), es[1..], k, t, now, es[0].now);
    }
  }

  lemma {:induction false} EndIsLast(es: seq<ConnEvent>, start: Time)
    requires Clocked(es, start)
    ensures start <= EndTime(es, start) && (es != [] ==> es[0].now <= EndTime(es, start))
    decreases |es|
  {
    if es != [] {
      EndIsLast(es[1..], es[0].now);
    }
  }

  /**
   A sweep keeps exactly the clients with an attempt in the last minute plus the longest block: nobody
   blocked is forgotten, and nobody idle is remembered.
   */
  lemma {:induction false} TrackedIff(c: ConnConfig, es: seq<ConnEvent>, k: RateKey, start: Time, now: Time)
    requires Clocked(es, start) && EndTime(es, start) <= now
    ensures k in Swept(c, Final(c, map[], es), now) <==>
              exists t: Time :: Attempt(k, t) in es && now < t + 60 * SECOND + c.maxBackoff
  {
    var s := Final(c, map[], es);
    RunKeepsInv(c, map[], es, start);
    hide Multiplier;
    if k in Swept(c, s, now) {
      LastAttemptIsAnAttempt(c, map[], es, k);
      assert Attempt(k, s[k].lastAttempt) in es;
    }
    if t: Time :| Attempt(k, t) in es && now < t + 60 * SECOND + c.maxBackoff {
      RecentAttemptIsTracked(c, map[], es, k, t, now, start);
    }
  }
}
