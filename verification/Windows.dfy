/** Sliding windows of timestamps, as the limiters keep them in vectors. */
module Windows {
  import opened Basics

  /** The entries of `s` that are younger than `window` at `now` and not earlier than `floor`. */
  function Retain(s: seq<Time>, now: Time, window: Duration, floor: Time): (r: seq<Time>)
    ensures |r| <= |s|
  {
    if s == [] then
      []
    else
      var last := s[|s| - 1];
      var kept := Retain(s[..|s| - 1], now, window, floor);
      if Since(now, last) < window && last >= floor then kept + [last] else kept
  }

  ghost predicate AtMost(s: seq<Time>, bound: Time)
  {
    forall i :: 0 <= i < |s| ==> s[i] <= bound
  }

  ghost predicate AtLeast(s: seq<Time>, bound: Time)
  {
    forall i :: 0 <= i < |s| ==> s[i] >= bound
  }

  lemma {:induction false} RetainAppend(s: seq<Time>, x: Time, now: Time, window: Duration, floor: Time)
    ensures Retain(s + [x], now, window, floor)
         == Retain(s, now, window, floor) + (if Since(now, x) < window && x >= floor then [x] else [])
  {
    assert (s + [x])[..|s|] == s;
  }

  /** Retaining again later subsumes having retained earlier. */
  lemma {:induction false} RetainRetain(s: seq<Time>, now: Time, later: Time, window: Duration, floor: Time)
    requires now <= later
    ensures Retain(Retain(s, now, window, floor), later, window, floor) == Retain(s, later, window, floor)
  {
    if s != [] {
      var last := s[|s| - 1];
      var kept := Retain(s[..|s| - 1], now, window, floor);
      RetainRetain(s[..|s| - 1], now, later, window, floor);
      RetainAppend(kept, last, later, window, floor);
    }
  }

  lemma {:induction false} RetainNothing(s: seq<Time>, now: Time, window: Duration, floor: Time, bound: Time)
    requires AtMost(s, bound) && Since(now, bound) >= window && bound <= now
    ensures Retain(s, now, window, floor) == []
  {
    if s != [] {
      RetainNothing(s[..|s| - 1], now, window, floor, bound);
    }
  }

  /** Bounds on the kept entries: every upper bound survives, and the floor becomes a lower bound. */
  lemma {:induction false} RetainBounds(s: seq<Time>, now: Time, window: Duration, floor: Time, bound: Time)
    requires AtMost(s, bound)
    ensures AtMost(Retain(s, now, window, floor), bound) && AtLeast(Retain(s, now, window, floor), floor)
  {
    if s != [] {
      RetainBounds(s[..|s| - 1], now, window, floor, bound);
    }
  }

  /** The last `c` entries of `s` are not earlier than `from`. */
  ghost predicate TailAtLeast(s: seq<Time>, c: nat, from: Time)
  {
    c <= |s| && forall i :: |s| - c <= i < |s| ==> s[i] >= from
  }

  /** Entries at the end survive when all of them are recent and above the floor. */
  lemma {:induction false} RetainTail(s: seq<Time>, c: nat, from: Time, now: Time, window: Duration, floor: Time)
    requires TailAtLeast(s, c, from) && floor <= from && Since(now, from) < window
    ensures TailAtLeast(Retain(s, now, window, floor), c, from)
  {
    if c > 0 {
      RetainTail(s[..|s| - 1], c - 1, from, now, window, floor);
    }
  }

  /** The instants that are less than `span` before `now`. */
  function Recent(ts: seq<Time>, now: Time, span: Duration): seq<Time>
  {
    if ts == [] then []
    else
      var front, last := ts[..|ts| - 1], ts[|ts| - 1];
      if now < last + span then Recent(front, now, span) + [last] else Recent(front, now, span)
  }

  /** Nondecreasing, and none after `now`. */
  ghost predicate InOrder(ts: seq<Time>, now: Time)
  {
    && (forall i, j :: 0 <= i < j < |ts| ==> ts[i] <= ts[j])
    && (forall i :: 0 <= i < |ts| ==> ts[i] <= now)
  }

  lemma {:induction false} RetainIsRecent(ts: seq<Time>, now: Time, span: Duration)
    requires AtMost(ts, now)
    ensures Retain(ts, now, span, 0) == Recent(ts, now, span)
  {
    if ts != [] {
      RetainIsRecent(ts[..|ts| - 1], now, span);
    }
  }

  lemma {:induction false} RecentAppend(ts: seq<Time>, x: Time, now: Time, span: Duration)
    ensures Recent(ts + [x], now, span) == if now < x + span then Recent(ts, now, span) + [x] else Recent(ts, now, span)
  {
    assert (ts + [x])[..|ts|] == ts;
  }

  lemma {:induction false} RecentLater(ts: seq<Time>, now: Time, later: Time, span: Duration)
    requires now <= later
    ensures Recent(Recent(ts, now, span), later, span) == Recent(ts, later, span)
  {
    if ts != [] {
      RecentLater(ts[..|ts| - 1], now, later, span);
      if now < ts[|ts| - 1] + span {
        RecentAppend(Recent(ts[..|ts| - 1], now, span), ts[|ts| - 1], later, span);
      }
    }
  }

  lemma {:induction false} NoneRecent(ts: seq<Time>, now: Time, span: Duration)
    requires forall i :: 0 <= i < |ts| ==> ts[i] + span <= now
    ensures Recent(ts, now, span) == []
  {
    if ts != [] {
      NoneRecent(ts[..|ts| - 1], now, span);
    }
  }

  lemma SuffixGrows(ts: seq<Time>, r: nat)
    requires 0 < |ts| && r < |ts|
    ensures ts[..|ts| - 1][|ts| - 1 - r..] + [ts[|ts| - 1]] == ts[|ts| - (r + 1)..]
  {
  }

  /** In order, the recent instants are the last ones. */
  lemma {:induction false} RecentIsSuffix(ts: seq<Time>, now: Time, span: Duration)
    requires InOrder(ts, now)
    ensures |Recent(ts, now, span)| <= |ts| && Recent(ts, now, span) == ts[|ts| - |Recent(ts, now, span)|..]
  {
    if ts != [] {
      var front, last := ts[..|ts| - 1], ts[|ts| - 1];
      if now < last + span {
        RecentIsSuffix(front, now, span);
        SuffixGrows(ts, |Recent(front, now, span)|);
      } else {
        NoneRecent(ts, now, span);
      }
    }
  }

  lemma {:induction false} RecentReaches(ts: seq<Time>, now: Time, span: Duration, i: nat)
    requires InOrder(ts, now) && i < |ts|
    ensures now < ts[i] + span <==> |ts| - i <= |Recent(ts, now, span)|
  {
    var last := |ts| - 1;
    if now >= ts[last] + span {
      NoneRecent(ts, now, span);
    } else if i < last {
      RecentReaches(ts[..last], now, span, i);
    }
  }

  lemma {:induction false} RecentOnce(ts: seq<Time>, now: Time, span: Duration)
    ensures Recent(Recent(ts, now, span), now, span) == Recent(ts, now, span)
  {
    RecentLater(ts, now, now, span);
  }

  lemma {:induction false} RecentAtMost(ts: seq<Time>, now: Time, span: Duration)
    requires AtMost(ts, now)
    ensures AtMost(Recent(ts, now, span), now)
  {
    if ts != [] {
      RecentAtMost(ts[..|ts| - 1], now, span);
    }
  }

  lemma {:induction false} FirstRecent(ts: seq<Time>, now: Time, span: Duration)
    requires InOrder(ts, now) && Recent(ts, now, span) != []
    ensures now < Recent(ts, now, span)[0] + span
  {
    RecentIsSuffix(ts, now, span);
    RecentReaches(ts, now, span, |ts| - |Recent(ts, now, span)|);
  }

  /** The whole seconds in a span, at least one. */
  function WholeSeconds(d: Duration): nat
  {
    if d < SECOND then 1 else d / SECOND
  }
}
