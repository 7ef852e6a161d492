/**
 The token bucket of the flood control, with real-valued tokens and seconds, and the exact
 condition under which a request passes.
 */
module FloodControl {

  datatype Bucket = Bucket(capacity: real, rate: real, tokens: real, lastRefill: real)

  /** A request for `cost` tokens at instant `at`, in seconds. */
  datatype Request = Request(cost: real, at: real)

  function MinReal(a: real, b: real): real
  {
    if a <= b then a else b
  }

  function NewBucket(capacity: nat, rate: nat, now: real): Bucket
  {
    var cap := if capacity < 1 then 1.0 else capacity as real;
    var perSecond := if rate < 1 then 1.0 else rate as real;
    Bucket(cap, perSecond, cap, now)
  }

  function Refilled(b: Bucket, now: real): Bucket
  {
    var elapsed := if now >= b.lastRefill then now - b.lastRefill else 0.0;
    b.(tokens := MinReal(b.tokens + elapsed * b.rate, b.capacity), lastRefill := now)
  }

  predicate Passes(b: Bucket, r: Request)
  {
    Refilled(b, r.at).tokens >= r.cost
  }

  function Acquire(b: Bucket, r: Request): Bucket
  {
    var full := Refilled(b, r.at);
    if full.tokens >= r.cost then full.(tokens := full.tokens - r.cost) else full
  }

  /** The bucket after the requests `rs`. */
  function After(b: Bucket, rs: seq<Request>): Bucket
  {
    if rs == [] then b else Acquire(After(b, rs[..|rs| - 1]), rs[|rs| - 1])
  }

  /** The total cost of the requests among `rs[from..]` that passed when `rs` was run from `b`. */
  function Spent(b: Bucket, rs: seq<Request>, from: nat): real
    requires from <= |rs|
    decreases |rs| - from
  {
    if from == |rs| then 0.0
    else (if Passes(After(b, rs[..from]), rs[from]) then rs[from].cost else 0.0) + Spent(b, rs, from + 1)
  }

  ghost predicate Ordered(b: Bucket, rs: seq<Request>)
  {
    && (forall i :: 0 <= i < |rs| ==> b.lastRefill <= rs[i].at)
    && (forall i, j :: 0 <= i <= j < |rs| ==> rs[i].at <= rs[j].at)
  }

  ghost predicate Fresh(b: Bucket)
  {
    b.tokens == b.capacity && b.capacity > 0.0 && b.rate > 0.0
  }

  lemma {:induction false} AfterShape(b: Bucket, rs: seq<Request>)
    requires Fresh(b)
    ensures After(b, rs).capacity == b.capacity && After(b, rs).rate == b.rate
    ensures After(b, rs).lastRefill == if rs == [] then b.lastRefill else rs[|rs| - 1].at
    ensures 0.0 <= After(b, rs).tokens
  {
    if rs != [] {
      AfterShape(b, rs[..|rs| - 1]);
    }
  }

  /** Appending a request adds its cost, if it passes, to what every suffix spent. */
  lemma {:induction false} SpentAppend(b: Bucket, rs: seq<Request>, r: Request, from: nat)
    requires from <= |rs|
    ensures Spent(b, rs + [r], from)
         == Spent(b, rs, from) + (if Passes(After(b, rs), r) then r.cost else 0.0)
    decreases |rs| - from
  {
    if from < |rs| {
      assert (rs + [r])[..from] == rs[..from];
      SpentAppend(b, rs, r, from + 1);
    } else {
      assert (rs + [r])[..from] == rs;
    }
  }

  /** The tokens earned between two instants. */
  function Earned(b: Bucket, from: real, to: real): real
  {
    (to - from) * b.rate
  }

  lemma EarnedAdds(b: Bucket, x: real, y: real, z: real)
    ensures Earned(b, x, z) == Earned(b, x, y) + Earned(b, y, z)
    ensures Earned(b, x, x) == 0.0
    ensures b.rate > 0.0 && x <= y ==> Earned(b, x, y) >= 0.0
  {
  }

  /** What the suffix starting with request `i` leaves of the allowance that began with it. */
  function Allowance(b: Bucket, rs: seq<Request>, r: Request, i: nat): real
    requires i <= |rs|
  {
    b.capacity + Earned(b, (rs + [r])[i].at, r.at) - Spent(b, rs, i)
  }

  lemma {:induction false} AllowanceStep(b: Bucket, rs: seq<Request>, last: Request, r: Request, i: nat)
    requires i <= |rs|
    ensures var paid := if Passes(After(b, rs), last) then last.cost else 0.0;
      Allowance(b, rs + [last], r, i) == Allowance(b, rs, last, i) - paid + Earned(b, last.at, r.at)
  {
    SpentAppend(b, rs, last, i);
    var at := (rs + [last])[i].at;
    assert (rs + [last] + [r])[i].at == at;
    EarnedAdds(b, at, last.at, r.at);
  }

  lemma AllowanceNow(b: Bucket, rs: seq<Request>, r: Request)
    ensures Allowance(b, rs, r, |rs|) == b.capacity
  {
    EarnedAdds(b, r.at, r.at, r.at);
  }

  lemma RefilledIs(b: Bucket, now: real)
    requires b.lastRefill <= now && b.rate > 0.0
    ensures Refilled(b, now).tokens == MinReal(b.tokens + Earned(b, b.lastRefill, now), b.capacity)
  {
  }

  lemma {:induction false} AfterNotLater(b: Bucket, rs: seq<Request>, r: Request)
    requires Fresh(b) && Ordered(b, rs + [r])
    ensures After(b, rs).lastRefill <= r.at
    ensures After(b, rs).capacity == b.capacity && After(b, rs).rate == b.rate
  {
    AfterShape(b, rs);
    assert (rs + [r])[|rs|] == r;
    if rs != [] {
      assert (rs + [r])[|rs| - 1] == rs[|rs| - 1];
    }
  }

  /** One refill of a running bucket, in terms of the configured rate and capacity. */
  lemma RefillOf(b: Bucket, a: Bucket, now: real)
    requires Fresh(b) && a.capacity == b.capacity && a.rate == b.rate && a.lastRefill <= now
    ensures Refilled(a, now).tokens == MinReal(a.tokens + Earned(b, a.lastRefill, now), b.capacity)
    ensures Earned(b, a.lastRefill, now) >= 0.0
  {
    RefilledIs(a, now);
    EarnedAdds(b, a.lastRefill, now, now);
  }

  lemma {:induction false} RefilledStep(b: Bucket, rs: seq<Request>, r: Request)
    requires Fresh(b) && Ordered(b, rs + [r])
    ensures Refilled(After(b, rs), r.at).tokens
         == MinReal(After(b, rs).tokens + Earned(b, After(b, rs).lastRefill, r.at), b.capacity)
    ensures Earned(b, After(b, rs).lastRefill, r.at) >= 0.0
  {
    AfterNotLater(b, rs, r);
    RefillOf(b, After(b, rs), r.at);
  }

  lemma OrderedPrefix(b: Bucket, rs: seq<Request>, r: Request)
    requires Ordered(b, rs + [r])
    ensures Ordered(b, rs)
  {
    assert forall i :: 0 <= i < |rs| ==> rs[i] == (rs + [r])[i];
  }

  /** Seen at request `r`, the tokens are the least allowance over all suffixes of the run. */
  lemma {:induction false} TokensAreLeastAllowance(b: Bucket, rs: seq<Request>, r: Request) returns (least: nat)
    requires Fresh(b) && Ordered(b, rs + [r])
    ensures forall i :: 0 <= i <= |rs| ==> Refilled(After(b, rs), r.at).tokens <= Allowance(b, rs, r, i)
    ensures least <= |rs| && Refilled(After(b, rs), r.at).tokens == Allowance(b, rs, r, least)
  {
    RefilledStep(b, rs, r);
    AllowanceNow(b, rs, r);
    if rs == [] {
      least := 0;
    } else {
      var front, last := rs[..|rs| - 1], rs[|rs| - 1];
      assert rs == front + [last];
      OrderedPrefix(b, rs, r);
      least := TokensAreLeastAllowance(b, front, last);
      AfterShape(b, rs);
      forall i | 0 <= i < |rs|
        ensures Refilled(After(b, rs), r.at).tokens <= Allowance(b, rs, r, i)
      {
        AllowanceStep(b, front, last, r, i);
      }
      AllowanceStep(b, front, last, r, least);
      if Refilled(After(b, rs), r.at).tokens == b.capacity {
        least := |rs|;
      }
    }
  }

  /**
   A request passes exactly when its cost fits into the allowance of every suffix of the run:
   one capacity, plus the refill since the suffix began, minus what the suffix accepted.
   */
  lemma {:induction false} PassesIff(b: Bucket, rs: seq<Request>, r: Request)
    requires Fresh(b) && Ordered(b, rs + [r])
    ensures Passes(After(b, rs), r) <==> forall i :: 0 <= i <= |rs| ==> r.cost <= Allowance(b, rs, r, i)
  {
    var least := TokensAreLeastAllowance(b, rs, r);
  }

  /** Over every stretch of a run the accepted cost is at most capacity plus rate times elapsed time. */
  lemma FloodBound(b: Bucket, rs: seq<Request>, from: nat)
    requires Fresh(b) && Ordered(b, rs) && from < |rs|
    ensures Spent(b, rs, from) <= b.capacity + Earned(b, rs[from].at, rs[|rs| - 1].at)
  {
    var front, last := rs[..|rs| - 1], rs[|rs| - 1];
    assert rs == front + [last];
    var tokens := Refilled(After(b, front), last.at).tokens;
    var paid := if Passes(After(b, front), last) then last.cost else 0.0;
    assert tokens <= Allowance(b, front, last, from) by {
      var least := TokensAreLeastAllowance(b, front, last);
    }
    assert Spent(b, rs, from) == Spent(b, front, from) + paid by { SpentAppend(b, front, last, from); }
    assert After(b, rs).tokens == tokens - paid;
    assert 0.0 <= After(b, rs).tokens by { AfterShape(b, rs); }
    assert (front + [last])[from] == rs[from];
  }

  class TokenBucket {
    const capacity: real
    const rate: real
    var tokens: real
    var lastRefill: real

    ghost function Value(): Bucket
      reads this
    {
      Bucket(capacity, rate, tokens, lastRefill)
    }

    constructor (capacity: nat, rate: nat, now: real)
      ensures Value() == NewBucket(capacity, rate, now) && Fresh(Value())
    {
      this.capacity := if capacity < 1 then 1.0 else capacity as real;
      this.rate := if rate < 1 then 1.0 else rate as real;
      tokens := if capacity < 1 then 1.0 else capacity as real;
      lastRefill := now;
    }

    method TryAcquire(cost: real, now: real) returns (allowed: bool)
      modifies this
      ensures Value() == Acquire(old(Value()), Request(cost, now))
      ensures allowed == Passes(old(Value()), Request(cost, now))
    {
      var elapsed := if now >= lastRefill then now - lastRefill else 0.0;
      tokens := MinReal(tokens + elapsed * rate, capacity);
      lastRefill := now;
      allowed := tokens >= cost;
      if allowed {
        tokens := tokens - cost;
      }
    }
  }
}
