/** core/rate_limiter.py and the TokenBucket of utils.py: one token bucket, consumed one token or
    any amount at a time. Clock readings are inputs. */
module RateLimiter {
  import opened Common

  datatype Bucket = Bucket(rate: real, capacity: real, tokens: real, lastRefill: real)

  /** Every reachable bucket of a limiter with a non-negative rate and capacity. */
  predicate Sound(b: Bucket) {
    b.rate >= 0.0 && 0.0 <= b.tokens <= b.capacity
  }

  function Refilled(b: Bucket, now: real): Bucket {
    b.(tokens := Min(b.capacity, b.tokens + Worth(now - b.lastRefill, b.rate)), lastRefill := now)
  }

  /** Refill, then take the amount if it is there. */
  function Taken(b: Bucket, now: real, amount: real): Bucket {
    var r := Refilled(b, now);
    if r.tokens >= amount then r.(tokens := r.tokens - amount) else r
  }

  function Grants(b: Bucket, now: real, amount: real): bool {
    Refilled(b, now).tokens >= amount
  }

  /** Seconds until one token will be there. */
  function WaitFor(b: Bucket): real
    requires b.tokens >= 1.0 || b.rate != 0.0
  {
    if b.tokens >= 1.0 then 0.0 else (1.0 - b.tokens) / b.rate
  }

  // ---------- the bound over any interleaving of attempts ----------

  datatype Attempt = Attempt(at: real, amount: real)

  predicate Ordered(attempts: seq<Attempt>, from: real) {
    && (forall i | 0 <= i < |attempts| :: attempts[i].at >= from && attempts[i].amount >= 0.0)
    && (forall i, j | 0 <= i < j < |attempts| :: attempts[i].at <= attempts[j].at)
  }

  function AfterAttempts(b: Bucket, attempts: seq<Attempt>): Bucket
    decreases |attempts|
  {
    if attempts == [] then b else AfterAttempts(Taken(b, attempts[0].at, attempts[0].amount), attempts[1..])
  }

  function Granted(b: Bucket, attempts: seq<Attempt>): real
    decreases |attempts|
  {
    if attempts == [] then 0.0
    else
      (if Grants(b, attempts[0].at, attempts[0].amount) then attempts[0].amount else 0.0)
      + Granted(Taken(b, attempts[0].at, attempts[0].amount), attempts[1..])
  }

  lemma RefillIsSound(b: Bucket, now: real)
    requires Sound(b) && now >= b.lastRefill
    ensures Sound(Refilled(b, now))
    ensures Refilled(b, now).tokens <= b.tokens + Worth(now - b.lastRefill, b.rate)
  {
    hide Worth;
    WorthMono(0.0, now - b.lastRefill, b.rate);
    WorthZero(b.rate);
  }

  /** Tokens stay within the capacity, and what is granted is paid for by the tokens at the start and
      the refill up to any later time. */
  lemma {:induction false} GrantsArePaidFor(b: Bucket, attempts: seq<Attempt>, until: real)
    requires Sound(b) && Ordered(attempts, b.lastRefill) && until >= b.lastRefill
    requires forall i | 0 <= i < |attempts| :: attempts[i].at <= until
    ensures Sound(AfterAttempts(b, attempts))
    ensures Granted(b, attempts) + AfterAttempts(b, attempts).tokens <= b.tokens + Worth(until - b.lastRefill, b.rate)
    decreases |attempts|
  {
    hide Worth, Refilled;
    if attempts == [] {
      WorthMono(0.0, until - b.lastRefill, b.rate);
      WorthZero(b.rate);
    } else {
      var first := attempts[0];
      RefillIsSound(b, first.at);
      RefillKeepsSettings(b, first.at);
      var next := Taken(b, first.at, first.amount);
      GrantsArePaidFor(next, attempts[1..], until);
      WorthSum(first.at - b.lastRefill, until - first.at, b.rate);
      assert (first.at - b.lastRefill) + (until - first.at) == until - b.lastRefill;
    }
  }

  lemma RefillKeepsSettings(b: Bucket, now: real)
    ensures Refilled(b, now).rate == b.rate && Refilled(b, now).capacity == b.capacity
    ensures Refilled(b, now).lastRefill == now
    ensures Refilled(b, now).tokens <= b.capacity
  {
  }

  /** In any window [from, until], whatever happened before it and however attempts interleave, at most
      capacity + rate * (until - from) is granted. */
  lemma WindowBound(b: Bucket, attempts: seq<Attempt>, from: real, until: real)
    requires Sound(b) && Ordered(attempts, Max(from, b.lastRefill)) && from <= until
    requires forall i | 0 <= i < |attempts| :: attempts[i].at <= until
    ensures Granted(b, attempts) <= b.capacity + Worth(until - from, b.rate)
  {
    hide Worth, Refilled, Granted, AfterAttempts;
    WorthMono(0.0, until - from, b.rate);
    WorthZero(b.rate);
    if attempts == [] {
      assert Granted(b, attempts) == 0.0 by { NothingGranted(b); }
    } else {
      var first := attempts[0].at;
      var full := Refilled(b, first);
      RefillIsSound(b, first);
      RefillKeepsSettings(b, first);
      GrantedAfterRefill(b, attempts);
      GrantsArePaidFor(full, attempts, until);
      WorthMono(until - first, until - from, b.rate);
    }
  }

  lemma NothingGranted(b: Bucket)
    ensures Granted(b, []) == 0.0
  {
  }

  lemma GrantedAfterRefill(b: Bucket, attempts: seq<Attempt>)
    requires attempts != []
    ensures Granted(Refilled(b, attempts[0].at), attempts) == Granted(b, attempts)
  {
    hide Worth;
    RefillTwice(b, attempts[0].at);
  }

  lemma RefillTwice(b: Bucket, now: real)
    ensures Refilled(Refilled(b, now), now) == Refilled(b, now)
  {
    hide Worth;
    WorthZero(b.rate);
  }

  /** With no competitor, the attempt made after sleeping the returned wait, or longer, succeeds exactly
      when the capacity holds a whole token. */
  lemma WaitSuffices(b: Bucket, now: real, later: real)
    requires Sound(b) && b.rate > 0.0 && now >= b.lastRefill
    requires later >= now + WaitFor(Refilled(b, now))
    ensures Grants(Refilled(b, now), later, 1.0) <==> b.capacity >= 1.0
  {
    hide Worth;
    var r := Refilled(b, now);
    RefillIsSound(b, now);
    if r.tokens < 1.0 {
      var missing := 1.0 - r.tokens;
      var wait := missing / b.rate;
      assert wait * b.rate == missing;
      assert Worth(wait, b.rate) == missing by { WorthIsProduct(wait, b.rate); }
      WorthMono(wait, later - now, b.rate);
    } else {
      WorthMono(0.0, later - now, b.rate);
      WorthZero(b.rate);
    }
  }

  lemma WorthIsProduct(x: real, y: real)
    ensures Worth(x, y) == x * y
  {
  }

  /** More than the capacity is never granted. */
  lemma BeyondCapacityNever(b: Bucket, now: real, amount: real)
    requires amount > b.capacity
    ensures !Grants(b, now, amount)
  {
    RefillKeepsSettings(b, now);
  }

  // ---------- blocking calls among competitors ----------

  /** One pass of a blocking call: what other callers attempt before it, and its own clock reading. */
  datatype Pass = Pass(rivals: seq<Attempt>, at: real)

  datatype Outcome = Acquired | Raised | StillWaiting

  /** A blocking call over some passes. A failed pass sleeps, or raises where no sleep can be computed. */
  function Block(b: Bucket, passes: seq<Pass>, amount: real, sleepless: bool): (Bucket, Outcome)
    decreases |passes|
  {
    if passes == [] then (b, StillWaiting)
    else
      var before := AfterAttempts(b, passes[0].rivals);
      var after := Taken(before, passes[0].at, amount);
      if Grants(before, passes[0].at, amount) then (after, Acquired)
      else if sleepless then (after, Raised)
      else Block(after, passes[1..], amount, sleepless)
  }

  /** Every attempt such a call makes or waits through. */
  function Attempts(b: Bucket, passes: seq<Pass>, amount: real, sleepless: bool): seq<Attempt>
    decreases |passes|
  {
    if passes == [] then []
    else
      var before := AfterAttempts(b, passes[0].rivals);
      var now := passes[0].rivals + [Attempt(passes[0].at, amount)];
      if Grants(before, passes[0].at, amount) || sleepless then now
      else now + Attempts(Taken(before, passes[0].at, amount), passes[1..], amount, sleepless)
  }

  lemma {:induction false} AttemptsJoin(b: Bucket, x: seq<Attempt>, y: seq<Attempt>)
    ensures AfterAttempts(b, x + y) == AfterAttempts(AfterAttempts(b, x), y)
    ensures Granted(b, x + y) == Granted(b, x) + Granted(AfterAttempts(b, x), y)
    decreases |x|
  {
    hide Taken, Grants;
    if x == [] {
      assert x + y == y;
    } else {
      assert (x + y)[1..] == x[1..] + y;
      AttemptsJoin(Taken(b, x[0].at, x[0].amount), x[1..], y);
    }
  }

  lemma OneAttempt(b: Bucket, a: Attempt)
    ensures AfterAttempts(b, [a]) == Taken(b, a.at, a.amount)
    ensures Granted(b, [a]) == if Grants(b, a.at, a.amount) then a.amount else 0.0
  {
    hide Taken, Grants;
    assert [a][1..] == [];
  }

  /** A blocking call is one more interleaving of attempts, so the bounds on grants cover it. */
  lemma {:induction false} BlockingIsAttempts(b: Bucket, passes: seq<Pass>, amount: real, sleepless: bool)
    ensures Block(b, passes, amount, sleepless).0 == AfterAttempts(b, Attempts(b, passes, amount, sleepless))
    decreases |passes|
  {
    hide Taken, Grants, AfterAttempts, Granted;
    if passes == [] {
      assert AfterAttempts(b, []) == b by { NoAttempts(b); }
    } else {
      var p := passes[0];
      var before := AfterAttempts(b, p.rivals);
      AttemptsJoin(b, p.rivals, [Attempt(p.at, amount)]);
      OneAttempt(before, Attempt(p.at, amount));
      if !Grants(before, p.at, amount) && !sleepless {
        var after := Taken(before, p.at, amount);
        BlockingIsAttempts(after, passes[1..], amount, sleepless);
        AttemptsJoin(b, p.rivals + [Attempt(p.at, amount)], Attempts(after, passes[1..], amount, sleepless));
      }
    }
  }

  lemma NoAttempts(b: Bucket)
    ensures AfterAttempts(b, []) == b
  {
  }

  /** When it acquires, its last attempt is the one granted. */
  lemma {:induction false} AcquiredIsGranted(b: Bucket, passes: seq<Pass>, amount: real, sleepless: bool)
    requires Block(b, passes, amount, sleepless).1 == Acquired
    ensures var all := Attempts(b, passes, amount, sleepless);
            && all != [] && all[|all| - 1].amount == amount
            && Grants(AfterAttempts(b, all[..|all| - 1]), all[|all| - 1].at, amount)
    decreases |passes|
  {
    hide Taken, Grants, AfterAttempts, Granted;
    var p := passes[0];
    var before := AfterAttempts(b, p.rivals);
    var now := p.rivals + [Attempt(p.at, amount)];
    assert now[..|now| - 1] == p.rivals;
    if !Grants(before, p.at, amount) {
      var after := Taken(before, p.at, amount);
      AcquiredIsGranted(after, passes[1..], amount, sleepless);
      var later := Attempts(after, passes[1..], amount, sleepless);
      AttemptsJoin(b, p.rivals, [Attempt(p.at, amount)]);
      OneAttempt(before, Attempt(p.at, amount));
      AttemptsJoin(b, now, later[..|later| - 1]);
      assert (now + later)[..|now + later| - 1] == now + later[..|later| - 1];
    }
  }

  lemma {:induction false} AttemptsKeepSettings(b: Bucket, attempts: seq<Attempt>)
    ensures AfterAttempts(b, attempts).rate == b.rate && AfterAttempts(b, attempts).capacity == b.capacity
    decreases |attempts|
  {
    if attempts != [] {
      RefillKeepsSettings(b, attempts[0].at);
      AttemptsKeepSettings(Taken(b, attempts[0].at, attempts[0].amount), attempts[1..]);
    }
  }

  /** However long it blocks, a call for more than the capacity never acquires. */
  lemma {:induction false} BeyondCapacityBlocks(b: Bucket, passes: seq<Pass>, amount: real, sleepless: bool)
    requires amount > b.capacity
    ensures Block(b, passes, amount, sleepless).1 != Acquired
    decreases |passes|
  {
    if passes != [] {
      var before := AfterAttempts(b, passes[0].rivals);
      AttemptsKeepSettings(b, passes[0].rivals);
      RefillKeepsSettings(before, passes[0].at);
      BeyondCapacityNever(before, passes[0].at, amount);
      BeyondCapacityBlocks(Taken(before, passes[0].at, amount), passes[1..], amount, sleepless);
    }
  }

  /** Without competitors one sleep of at least the returned wait is enough for a token, exactly when the
      capacity holds one. */
  lemma OneSleepIsEnough(b: Bucket, start: real, woken: real)
    requires Sound(b) && b.rate > 0.0 && start >= b.lastRefill
    requires woken >= start + WaitFor(Refilled(b, start))
    ensures Block(b, [Pass([], start), Pass([], woken)], 1.0, false).1 == Acquired <==> b.capacity >= 1.0
  {
    hide Refilled;
    var passes := [Pass([], start), Pass([], woken)];
    assert passes[1..] == [Pass([], woken)] && passes[1..][1..] == [];
    WaitSuffices(b, start, woken);
    RefillKeepsSettings(b, start);
    var r := Refilled(b, start);
    if !Grants(b, start, 1.0) {
      assert Block(b, passes, 1.0, false) == Block(r, passes[1..], 1.0, false);
      assert passes[1..][0] == Pass([], woken) && AfterAttempts(r, []) == r;
      assert Block(r, passes[1..], 1.0, false).1 == if Grants(r, woken, 1.0) then Acquired else StillWaiting;
    }
  }

  /** How long the multi-token bucket sleeps between passes: a tenth of the amount's refill time and a
      millisecond. */
  function Nap(amount: real, rate: real): real
    requires rate != 0.0
  {
    amount / rate * 0.1 + 0.001
  }

  /** Passes without competitors, each at least one nap after the one before, however late it wakes. */
  predicate Napping(passes: seq<Pass>, nap: real) {
    && (forall i | 0 <= i < |passes| :: passes[i].rivals == [])
    && (forall i | 0 < i < |passes| :: passes[i].at >= passes[i - 1].at + nap)
  }

  /** Without competitors ten naps are enough for any amount, exactly when the capacity holds it. */
  lemma TenNapsAreEnough(b: Bucket, passes: seq<Pass>, amount: real)
    requires Sound(b) && b.rate > 0.0 && amount >= 0.0 && |passes| >= 11
    requires Napping(passes, Nap(amount, b.rate)) && passes[0].at >= b.lastRefill
    ensures Block(b, passes, amount, false).1 == Acquired <==> amount <= b.capacity
  {
    hide Refilled, Taken, Nap;
    if amount > b.capacity {
      BeyondCapacityBlocks(b, passes, amount, false);
    } else {
      TakenFacts(b, passes[0].at, amount);
      TenthsAddUp(0, amount);
      if !Grants(b, passes[0].at, amount) {
        NapsAddUp(Taken(b, passes[0].at, amount), passes[1..], amount, 0);
      }
    }
  }

  lemma {:induction false} NapsAddUp(b: Bucket, passes: seq<Pass>, amount: real, k: nat)
    requires Sound(b) && b.rate > 0.0 && 0.0 <= amount <= b.capacity && k < 10 && |passes| >= 10 - k
    requires Napping(passes, Nap(amount, b.rate)) && passes[0].at >= b.lastRefill + Nap(amount, b.rate)
    requires b.tokens >= Min(b.capacity, Tenths(k, amount))
    ensures Block(b, passes, amount, false).1 == Acquired
    decreases 10 - k
  {
    hide Refilled, Taken, Tenths, Worth, Nap;
    var now := passes[0].at;
    NapRefills(amount, b.rate);
    RefillGains(b, now, amount);
    TenthsAddUp(k, amount);
    TakenFacts(b, now, amount);
    GrantMeans(b, now, amount);
    if k == 9 {
      TenthsAddUp(10, amount);
    } else if !Grants(b, now, amount) {
      NapsAddUp(Taken(b, now, amount), passes[1..], amount, k + 1);
    }
  }

  lemma GrantMeans(b: Bucket, now: real, amount: real)
    ensures Grants(b, now, amount) <==> Refilled(b, now).tokens >= amount
  {
  }

  lemma NapRefills(amount: real, rate: real)
    requires rate > 0.0 && amount >= 0.0
    ensures Nap(amount, rate) >= 0.0 && Worth(Nap(amount, rate), rate) >= 0.1 * amount
  {
    var share := amount / rate;
    assert share * rate == amount;
    if share < 0.0 {
      ScaleStrict(share, 0.0, rate);
    }
    assert Nap(amount, rate) * rate == (share * rate) * 0.1 + 0.001 * rate;
  }

  lemma TakenFacts(b: Bucket, now: real, amount: real)
    requires Sound(b) && now >= b.lastRefill && amount >= 0.0
    ensures var after := Taken(b, now, amount);
            && Sound(after) && after.lastRefill == now && after.rate == b.rate && after.capacity == b.capacity
            && (!Grants(b, now, amount) ==> after == Refilled(b, now) && after.tokens < amount)
  {
    hide Worth;
    RefillIsSound(b, now);
  }

  lemma RefillGains(b: Bucket, now: real, amount: real)
    requires b.rate > 0.0 && amount >= 0.0 && now >= b.lastRefill + Nap(amount, b.rate)
    ensures Refilled(b, now).tokens >= Min(b.capacity, b.tokens + 0.1 * amount)
  {
    hide Worth, Nap;
    NapRefills(amount, b.rate);
    WorthMono(Nap(amount, b.rate), now - b.lastRefill, b.rate);
  }

  function Tenths(n: nat, amount: real): real {
    n as real * (0.1 * amount)
  }

  lemma TenthsAddUp(n: nat, amount: real)
    ensures Tenths(0, amount) == 0.0
    ensures Tenths(n + 1, amount) == Tenths(n, amount) + 0.1 * amount
    ensures n >= 10 && amount >= 0.0 ==> Tenths(n, amount) >= amount
  {
    if n >= 10 && amount >= 0.0 {
      ScaleMono(10.0, n as real, 0.1 * amount);
    }
  }

  lemma WaitSign(b: Bucket)
    requires b.rate != 0.0 && b.tokens < 1.0
    ensures WaitFor(b) > 0.0 <==> b.rate > 0.0
    ensures WaitFor(b) < 0.0 <==> b.rate < 0.0
  {
    var wait := (1.0 - b.tokens) / b.rate;
    assert wait * b.rate == 1.0 - b.tokens;
    if b.rate > 0.0 && wait <= 0.0 {
      ScaleMono(wait, 0.0, b.rate);
    } else if b.rate < 0.0 && wait >= 0.0 {
      ScaleMono(0.0, wait, -b.rate);
    }
  }

  // ---------- the limiters ----------

  class RateLimiter {
    const rate: real
    const capacity: real
    var tokens: real
    var lastRefill: real

    function Current(): Bucket
      reads this
    {
      Bucket(rate, capacity, tokens, lastRefill)
    }

    /** `burst` defaults to the whole part of the rate, at least one. */
    constructor (callsPerSecond: real, burst: Option<int>, now: real)
      ensures rate == callsPerSecond && lastRefill == now && tokens == capacity
      ensures burst.Some? ==> capacity == burst.value as real
      ensures burst.None? ==> capacity == Max(1.0, callsPerSecond.Floor as real)
    {
      rate := callsPerSecond;
      var full := if burst.Some? then burst.value as real
                  else if callsPerSecond >= 1.0 then callsPerSecond.Floor as real else 1.0;
      capacity, tokens, lastRefill := full, full, now;
    }

    method Refill(now: real)
      modifies this
      ensures Current() == Refilled(old(Current()), now)
    {
      var elapsed := now - lastRefill;
      tokens := Min(capacity, tokens + Worth(elapsed, rate));
      lastRefill := now;
    }

    /** None where the source divides by a zero rate. */
    method WaitTime(now: real) returns (wait: Option<real>)
      modifies this
      ensures Current() == Refilled(old(Current()), now)
      ensures wait == if tokens < 1.0 && rate == 0.0 then None else Some(WaitFor(Current()))
    {
      hide Worth;
      Refill(now);
      if tokens >= 1.0 { return Some(0.0); }
      if rate == 0.0 { return None; }
      return Some((1.0 - tokens) / rate);
    }

    method TryAcquire(now: real) returns (ok: bool)
      modifies this
      ensures ok == Grants(old(Current()), now, 1.0)
      ensures Current() == Taken(old(Current()), now, 1.0)
    {
      hide Worth;
      Refill(now);
      if tokens >= 1.0 {
        tokens := tokens - 1.0;
        return true;
      }
      return false;
    }

    /** The blocking acquire over some passes; between its passes other callers take their turns. A zero
        rate raises when the wait is computed, a negative one when it is slept. */
    method AcquireSync(passes: seq<Pass>) returns (outcome: Outcome)
      modifies this
      ensures (Current(), outcome) == Block(old(Current()), passes, 1.0, rate <= 0.0)
    {
      hide Worth, Refilled;
      ghost var b := Current();
      for i := 0 to |passes|
        invariant Block(b, passes, 1.0, rate <= 0.0) == Block(Current(), passes[i..], 1.0, rate <= 0.0)
      {
        var others := AfterAttempts(Current(), passes[i].rivals);
        AttemptsKeepSettings(Current(), passes[i].rivals);
        assert passes[i..][1..] == passes[i + 1..];
        tokens, lastRefill := others.tokens, others.lastRefill;
        GrantMeans(others, passes[i].at, 1.0);
        var wait := WaitTime(passes[i].at);
        if tokens < 1.0 && rate != 0.0 {
          WaitSign(Current());
        }
        if wait.None? { return Raised; }
        if wait == Some(0.0) {
          tokens := tokens - 1.0;
          return Acquired;
        }
        if wait.value < 0.0 { return Raised; }
      }
      return StillWaiting;
    }
  }

  class TokenBucket {
    const rate: real
    const capacity: real
    var tokens: real
    var lastRefill: real

    function Current(): Bucket
      reads this
    {
      Bucket(rate, capacity, tokens, lastRefill)
    }

    constructor (rate: real, capacity: real, now: real)
      ensures Current() == Bucket(rate, capacity, capacity, now)
    {
      this.rate, this.capacity := rate, capacity;
      tokens, lastRefill := capacity, now;
    }

    /** One pass of the consume loop; all of it when the call does not block. */
    method TryConsume(amount: real, now: real) returns (ok: bool)
      modifies this
      ensures ok == Grants(old(Current()), now, amount)
      ensures Current() == Taken(old(Current()), now, amount)
    {
      var elapsed := now - lastRefill;
      tokens := Min(capacity, tokens + Worth(elapsed, rate));
      lastRefill := now;
      if tokens >= amount {
        tokens := tokens - amount;
        return true;
      }
      return false;
    }

    /** The blocking consume over some passes; between its passes other callers take their turns. A sleep
        that divides by zero or comes out negative raises. */
    method Consume(amount: real, passes: seq<Pass>) returns (outcome: Outcome)
      modifies this
      ensures (Current(), outcome)
           == Block(old(Current()), passes, amount, rate == 0.0 || Nap(amount, rate) < 0.0)
    {
      hide Worth, Refilled, Nap;
      ghost var b := Current();
      ghost var sleepless := rate == 0.0 || Nap(amount, rate) < 0.0;
      for i := 0 to |passes|
        invariant Block(b, passes, amount, sleepless) == Block(Current(), passes[i..], amount, sleepless)
      {
        var others := AfterAttempts(Current(), passes[i].rivals);
        AttemptsKeepSettings(Current(), passes[i].rivals);
        assert passes[i..][1..] == passes[i + 1..];
        tokens, lastRefill := others.tokens, others.lastRefill;
        var ok := TryConsume(amount, passes[i].at);
        if ok { return Acquired; }
        if rate == 0.0 { return Raised; }
        var nap := Nap(amount, rate);
        if nap < 0.0 { return Raised; }
      }
      return StillWaiting;
    }
  }

  // ---------- nothing more is taken, and no longer waited, than needed ----------

  /** The returned wait is the least: before it is over there is no token, where the bucket can hold one. */
  lemma WaitIsLeast(b: Bucket, now: real, earlier: real)
    requires Sound(b) && b.rate > 0.0 && now >= b.lastRefill && now <= earlier < now + WaitFor(Refilled(b, now))
    ensures !Grants(Refilled(b, now), earlier, 1.0)
  {
    hide Worth;
    var r := Refilled(b, now);
    RefillIsSound(b, now);
    if r.tokens < 1.0 {
      var missing := 1.0 - r.tokens;
      var wait := missing / b.rate;
      assert wait * b.rate == missing;
      assert Worth(wait, b.rate) == missing by { WorthIsProduct(wait, b.rate); }
      WorthSum(wait, -(earlier - now), b.rate);
      WorthSum(earlier - now, 0.0, b.rate);
      WorthSign(wait - (earlier - now), b.rate);
    }
  }

  function Burst(at: real, amount: real, n: nat): seq<Attempt> {
    seq(n, i => Attempt(at, amount))
  }

  /** A bucket serves at once every attempt its tokens cover: a grant takes exactly its amount. */
  lemma {:induction false} BurstIsServed(b: Bucket, amount: real, n: nat)
    requires Sound(b) && amount >= 0.0 && n as real * amount <= b.tokens
    ensures Granted(b, Burst(b.lastRefill, amount, n)) == n as real * amount
    ensures AfterAttempts(b, Burst(b.lastRefill, amount, n)) == b.(tokens := b.tokens - n as real * amount)
    decreases n
  {
    hide Grants, Taken;
    if n == 0 {
      assert Burst(b.lastRefill, amount, 0) == [];
    } else {
      var all := Burst(b.lastRefill, amount, n);
      assert all[1..] == Burst(b.lastRefill, amount, n - 1);
      assert n as real * amount == (n - 1) as real * amount + amount;
      ServedAtOnce(b, amount, n);
      BurstIsServed(b.(tokens := b.tokens - amount), amount, n - 1);
    }
  }

  lemma ServedAtOnce(b: Bucket, amount: real, n: nat)
    requires Sound(b) && amount >= 0.0 && n > 0 && n as real * amount <= b.tokens
    ensures Grants(b, b.lastRefill, amount) && Taken(b, b.lastRefill, amount) == b.(tokens := b.tokens - amount)
    ensures amount <= b.tokens && (n - 1) as real * amount <= b.tokens - amount
  {
    NotNegativeProduct((n - 1) as real, amount);
    assert n as real * amount == (n - 1) as real * amount + amount;
    WorthZero(b.rate);
  }

  /** A nap lasts a tenth of the amount's refill time and a millisecond. */
  lemma NapLasts(amount: real, rate: real)
    requires rate != 0.0
    ensures (Nap(amount, rate) - 0.001) * rate * 10.0 == amount
  {
    var share := amount / rate;
    assert share * rate == amount;
  }
}
