/** The token bucket (src/mootloop/citations/ratelimit.py:15-63). */
module RateLimit {

  datatype Bucket = Bucket(tokens: real, last: real, capacity: real, rate: real) {
    predicate Valid() { 0.0 <= tokens <= capacity && rate > 0.0 }
  }

  function Max(a: real, b: real): real {
    if a >= b then a else b
  }

  function Min(a: real, b: real): real {
    if a <= b then a else b
  }

  function Replenish(b: Bucket, now: real): Bucket {
    b.(last := now, tokens := Min(b.capacity, b.tokens + Max(0.0, now - b.last) * b.rate))
  }

  /** One request: what it asks for, the clock when it starts, and the clock after the sleep it may make. */
  datatype Request = Request(tokens: real, now: real, afterSleep: real)

  function Wait(b: Bucket, r: Request): real
    requires b.rate > 0.0
  {
    (r.tokens - Replenish(b, r.now).tokens) / b.rate
  }

  function Acquire(b: Bucket, r: Request): Bucket {
    var b1 := Replenish(b, r.now);
    var b2 := if b1.tokens < r.tokens then Replenish(b1, r.afterSleep) else b1;
    b2.(tokens := b2.tokens - r.tokens)
  }

  /** A monotone clock, a sleep that lasts at least as long as asked, and a request the bucket can hold. */
  predicate Honest(b: Bucket, r: Request)
    requires b.rate > 0.0
  {
    && 0.0 <= r.tokens <= b.capacity && b.last <= r.now
    && (Replenish(b, r.now).tokens < r.tokens ==> r.afterSleep >= r.now + Wait(b, r))
  }

  /** Division undone: waiting the computed time refills what is missing. */
  lemma WaitRefills(missing: real, rate: real, slept: real)
    requires rate > 0.0 && slept >= missing / rate
    ensures slept * rate >= missing
  {
    var extra := slept - missing / rate;
    assert extra * rate >= 0.0;
    assert (missing / rate) * rate == missing;
    assert slept * rate == extra * rate + (missing / rate) * rate;
  }

  lemma ScaleDistributes(x: real, y: real, rate: real)
    ensures (x + y) * rate == x * rate + y * rate
  {
  }

  /** What flows in over a stretch of time. */
  function Inflow(rate: real, from: real, to: real): real {
    rate * (to - from)
  }

  lemma PositiveFactor(x: real, rate: real)
    requires x * rate > 0.0 && rate > 0.0
    ensures x > 0.0
  {
  }

  lemma WaitIsPositive(missing: real, rate: real)
    requires missing > 0.0 && rate > 0.0
    ensures missing / rate > 0.0
  {
    PositiveFactor(missing / rate, rate);
  }

  lemma ReplenishAccounts(b: Bucket, now: real)
    requires b.Valid() && b.last <= now
    ensures var next := Replenish(b, now);
      && next.Valid() && next.capacity == b.capacity && next.rate == b.rate && next.last == now
      && next.tokens == Min(b.capacity, b.tokens + Inflow(b.rate, b.last, now))
      && Inflow(b.rate, b.last, now) == (now - b.last) * b.rate >= 0.0
  {
    InflowIsPositive(b.rate, now - b.last);
  }

  lemma InflowIsPositive(rate: real, time: real)
    requires rate > 0.0 && time >= 0.0
    ensures rate * time == time * rate && rate * time >= 0.0
  {
  }

  /** An honest acquire leaves the bucket between empty and full, and what it grants plus what it leaves is
      covered by what was there and what flowed in. */
  lemma AcquireAccounts(b: Bucket, r: Request)
    requires b.Valid() && Honest(b, r)
    ensures var next := Acquire(b, r);
      && next.Valid() && next.capacity == b.capacity && next.rate == b.rate && next.last >= b.last
      && r.tokens + next.tokens <= b.tokens + Inflow(b.rate, b.last, next.last)
      && r.tokens + next.tokens <= b.capacity
  {
    var b1 := Replenish(b, r.now);
    ReplenishAccounts(b, r.now);
    if b1.tokens < r.tokens {
      var missing := r.tokens - b1.tokens;
      WaitIsPositive(missing, b.rate);
      WaitRefills(missing, b.rate, r.afterSleep - r.now);
      ReplenishAccounts(b1, r.afterSleep);
      ScaleDistributes(r.now - b.last, r.afterSleep - r.now, b.rate);
    }
  }

  function AcquireAll(b: Bucket, rs: seq<Request>): Bucket {
    if rs == [] then b else Acquire(AcquireAll(b, rs[..|rs| - 1]), rs[|rs| - 1])
  }

  predicate HonestAll(b: Bucket, rs: seq<Request>)
    requires b.rate > 0.0
  {
    rs == [] ||
    (HonestAll(b, rs[..|rs| - 1])
     && AcquireAll(b, rs[..|rs| - 1]).rate == b.rate && Honest(AcquireAll(b, rs[..|rs| - 1]), rs[|rs| - 1]))
  }

  function Granted(rs: seq<Request>): real {
    if rs == [] then 0.0 else Granted(rs[..|rs| - 1]) + rs[|rs| - 1].tokens
  }

  lemma Chain(granted: real, more: real, start: real, mid: real, end: real, rate: real, t0: real, t1: real, t2: real)
    requires granted + mid <= start + Inflow(rate, t0, t1) && more + end <= mid + Inflow(rate, t1, t2)
    ensures granted + more + end <= start + Inflow(rate, t0, t2)
  {
    ScaleDistributes(t1 - t0, t2 - t1, rate);
  }

  /** Over any sequence of acquires the bucket stays between empty and full and never grants more than it
      held plus what flowed in. */
  lemma {:induction false} BucketAccounts(b: Bucket, rs: seq<Request>)
    requires b.Valid() && HonestAll(b, rs)
    ensures var end := AcquireAll(b, rs);
      && end.Valid() && end.capacity == b.capacity && end.rate == b.rate && end.last >= b.last
      && Granted(rs) + end.tokens <= b.tokens + Inflow(b.rate, b.last, end.last)
  {
    if rs != [] {
      var front, r := rs[..|rs| - 1], rs[|rs| - 1];
      BucketAccounts(b, front);
      var mid := AcquireAll(b, front);
      AcquireAccounts(mid, r);
      var end := Acquire(mid, r);
      Chain(Granted(front), r.tokens, b.tokens, mid.tokens, end.tokens, b.rate, b.last, mid.last, end.last);
    }
  }

  lemma {:induction false} Split(b: Bucket, rs: seq<Request>, i: nat)
    requires b.Valid() && HonestAll(b, rs) && i <= |rs|
    ensures HonestAll(b, rs[..i]) && AcquireAll(b, rs[..i]).Valid()
    ensures AcquireAll(b, rs[..i]).rate == b.rate && AcquireAll(b, rs[..i]).capacity == b.capacity
    ensures HonestAll(AcquireAll(b, rs[..i]), rs[i..])
    ensures AcquireAll(AcquireAll(b, rs[..i]), rs[i..]) == AcquireAll(b, rs)
    decreases |rs|
  {
    if i == |rs| {
      assert rs[..i] == rs;
      BucketAccounts(b, rs);
    } else {
      var front := rs[..|rs| - 1];
      Split(b, front, i);
      assert front[..i] == rs[..i];
      assert rs[i..][..|rs[i..]| - 1] == front[i..];
      assert rs[i..][|rs[i..]| - 1] == rs[|rs| - 1];
    }
  }

  /** The rate limit: the tokens granted from the `i`-th grant on, up to the last, are at most the capacity
      plus the rate times the time between those two grants. */
  lemma WindowBound(b: Bucket, rs: seq<Request>, i: nat)
    requires b.Valid() && HonestAll(b, rs) && i < |rs|
    ensures var first, last := AcquireAll(b, rs[..i + 1]).last, AcquireAll(b, rs).last;
      Granted(rs[i..]) <= b.capacity + Inflow(b.rate, first, last)
  {
    Split(b, rs, i);
    Split(b, rs, i + 1);
    var before, after := AcquireAll(b, rs[..i]), AcquireAll(b, rs[..i + 1]);
    assert rs[..i + 1][..i] == rs[..i];
    AcquireAccounts(before, rs[i]);
    BucketAccounts(after, rs[i + 1..]);
    GrantedHead(rs[i..]);
    assert rs[i..][1..] == rs[i + 1..];
  }

  lemma {:induction false} GrantedHead(rs: seq<Request>)
    requires rs != []
    ensures Granted(rs) == rs[0].tokens + Granted(rs[1..])
  {
    if |rs| > 1 {
      GrantedHead(rs[..|rs| - 1]);
      assert rs[..|rs| - 1][1..] == rs[1..][..|rs| - 2];
    }
  }

  /** The bucket itself. The clock readings come from the caller. */
  class TokenBucket {
    const capacity: real
    const rate: real
    var tokens: real
    var last: real

    constructor (capacity: real, rate: real, now: real)
      requires capacity >= 0.0 && rate > 0.0
      ensures State() == Bucket(capacity, now, capacity, rate) && State().Valid()
    {
      this.capacity, this.rate := capacity, rate;
      tokens, last := capacity, now;
    }

    function State(): Bucket
      reads this
    {
      Bucket(tokens, last, capacity, rate)
    }

    method Refill(now: real)
      modifies this`tokens, this`last
      ensures State() == Replenish(old(State()), now)
    {
      var elapsed := Max(0.0, now - last);
      last := now;
      tokens := Min(capacity, tokens + elapsed * rate);
    }

    /** Takes tokens, sleeping once when the bucket is short. */
    method Take(r: Request)
      requires State().Valid() && Honest(State(), r)
      modifies this`tokens, this`last
      ensures State() == Acquire(old(State()), r)
      ensures State().Valid()
    {
      AcquireAccounts(State(), r);
      Refill(r.now);
      if tokens < r.tokens {
        Refill(r.afterSleep);
      }
      tokens := tokens - r.tokens;
    }
  }
}
