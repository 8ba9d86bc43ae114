// Token bucket limiter: steady refill at `rate` tokens per second, bursts up
// to `capacity`. The monotonic clock is a real number of seconds; a sleep of
// `w` seconds moves it forward by exactly `w`.
module RateLimiter {

  function Max(a: real, b: real): real { if a >= b then a else b }
  function Min(a: real, b: real): real { if a <= b then a else b }

  /** The bucket's four fields as a value. */
  datatype Bucket = Bucket(rate: real, capacity: real, tokens: real, updatedAt: real)

  ghost predicate Invariant(b: Bucket)
  {
    b.capacity >= 1.0 && 0.0 <= b.tokens <= b.capacity
  }

  /** Tokens after refilling from `b.updatedAt` up to `now`; a clock that moved back adds nothing. */
  function Refilled(b: Bucket, now: real): (t: real)
    requires Invariant(b) && b.rate > 0.0
    ensures b.tokens <= t <= b.capacity
    ensures t == b.capacity || t == b.tokens + Max(0.0, now - b.updatedAt) * b.rate
  {
    Min(b.capacity, b.tokens + Max(0.0, now - b.updatedAt) * b.rate)
  }

  /** One pass of the acquire loop at instant `now`: the new fields and the wait, 0 when granted. */
  function Step(b: Bucket, req: real, now: real): (r: (Bucket, real))
    requires Invariant(b) && b.rate > 0.0 && req >= 0.0
    ensures Invariant(r.0) && r.0.updatedAt == now && r.0.rate == b.rate && r.0.capacity == b.capacity
    ensures r.1 == 0.0 <==> Refilled(b, now) >= req
    ensures r.1 == 0.0 ==> r.0.tokens == Refilled(b, now) - req
    ensures r.1 > 0.0 ==> r.0.tokens == Refilled(b, now) && r.1 * b.rate == req - r.0.tokens
  {
    var t := Refilled(b, now);
    if t >= req then (b.(tokens := t - req, updatedAt := now), 0.0)
    else (b.(tokens := t, updatedAt := now), (req - t) / b.rate)
  }

  /** What `acquire` does overall: the final fields and the instant the tokens are granted. */
  function Acquire(b: Bucket, req: real, now: real): (r: (Bucket, real))
    requires Invariant(b) && Max(0.0, req) <= b.capacity
  {
    if b.rate <= 0.0 then (b, now)
    else
      var first := Step(b, Max(0.0, req), now);
      if first.1 == 0.0 then (first.0, now)
      else (Step(first.0, Max(0.0, req), now + first.1).0, now + first.1)
  }

  /** The refill never leaves [0, capacity] and a grant deducts exactly the clamped request. */
  lemma AcquireKeepsBounds(b: Bucket, req: real, now: real)
    requires Invariant(b) && Max(0.0, req) <= b.capacity
    ensures Invariant(Acquire(b, req, now).0)
    ensures Acquire(b, req, now).1 >= now
    ensures b.rate <= 0.0 ==> Acquire(b, req, now) == (b, now)
    ensures b.rate > 0.0 && Refilled(b, now) >= Max(0.0, req) ==>
      Acquire(b, req, now) == (b.(tokens := Refilled(b, now) - Max(0.0, req), updatedAt := now), now)
  {
  }

  /** After waiting the computed time the second pass always grants, leaving the bucket empty. */
  lemma {:induction false} SecondPassGrants(b: Bucket, req: real, now: real)
    requires Invariant(b) && b.rate > 0.0 && 0.0 <= req <= b.capacity
    requires Step(b, req, now).1 > 0.0
    ensures var first := Step(b, req, now);
      Step(first.0, req, now + first.1).1 == 0.0 &&
      Step(first.0, req, now + first.1).0.tokens == 0.0
  {
    var first := Step(b, req, now);
    var w := first.1;
    assert first.0.updatedAt == now;
    assert Max(0.0, now + w - now) == w;
    assert first.0.tokens + w * b.rate == req;
  }

  /** A request above the capacity can never be granted: in the source it blocks forever. */
  lemma AboveCapacityNeverGranted(b: Bucket, req: real, now: real)
    requires Invariant(b) && b.rate > 0.0 && req > b.capacity
    ensures Step(b, req, now).1 > 0.0
  {
  }

  class TokenBucket {
    var rate: real
    var capacity: real
    var tokens: real
    var updatedAt: real

    ghost function State(): Bucket
      reads this
    {
      Bucket(rate, capacity, tokens, updatedAt)
    }

    ghost predicate Valid()
      reads this
    {
      Invariant(State())
    }

    /** A new bucket starts full; the capacity is at least one token. */
    constructor (ratePerSec: real, cap: int, now: real)
      ensures Valid()
      ensures rate == ratePerSec && updatedAt == now
      ensures capacity == (if cap >= 1 then cap as real else 1.0) && tokens == capacity
    {
      rate := ratePerSec;
      capacity := if cap >= 1 then cap as real else 1.0;
      tokens := if cap >= 1 then cap as real else 1.0;
      updatedAt := now;
    }

    /** Blocks until `request` tokens are available; returns the instant they were granted. */
    method AcquireAt(request: real, now: real) returns (grantedAt: real)
      requires Valid() && Max(0.0, request) <= capacity
      modifies this
      ensures Valid()
      ensures (State(), grantedAt) == Acquire(old(State()), request, now)
    {
      if rate <= 0.0 {
        return now;
      }
      var req := Max(0.0, request);
      ghost var b0 := State();
      var clock := now;
      var round := 0;
      while true
        invariant Valid() && rate == b0.rate && capacity == b0.capacity
        invariant 0 <= round <= 1
        invariant round == 0 ==> State() == b0 && clock == now
        invariant round == 1 ==> Step(b0, req, now).1 > 0.0 && State() == Step(b0, req, now).0
        invariant round == 1 ==> clock == now + Step(b0, req, now).1
        decreases 1 - round
      {
        ghost var before := State();
        tokens := Refilled(Bucket(rate, capacity, tokens, updatedAt), clock);
        updatedAt := clock;
        assert State() == Step(before, req, clock).0 || tokens >= req;
        if tokens >= req {
          tokens := tokens - req;
          if round == 1 {
            SecondPassGrants(b0, req, now);
            assert State() == Step(Step(b0, req, now).0, req, clock).0;
          } else {
            assert (State(), 0.0) == Step(b0, req, now);
          }
          return clock;
        }
        if round == 1 {
          SecondPassGrants(b0, req, now);
          assert false;
        }
        var missing := req - tokens;
        var waitTime := missing / rate;
        clock := clock + waitTime;
        round := round + 1;
      }
    }
  }
}
