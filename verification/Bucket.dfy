/** The token bucket of the say rate limit (src/moot/core/bucket.py). */
module Bucket {
  datatype Tokens = Tokens(level: real, last: real)

  function MinReal(a: real, b: real): real {
    if a <= b then a else b
  }

  function Refill(capacity: real, rate: real, t: Tokens, now: real): Tokens {
    if now > t.last then Tokens(MinReal(capacity, t.level + (now - t.last) * rate), now) else t
  }

  predicate CanTake(capacity: real, rate: real, t: Tokens, now: real) {
    Refill(capacity, rate, t, now).level >= 1.0
  }

  /** The bucket after a `take`, granted or refused. */
  function AfterTake(capacity: real, rate: real, t: Tokens, now: real): Tokens {
    var r := Refill(capacity, rate, t, now);
    if r.level >= 1.0 then r.(level := r.level - 1.0) else r
  }

  /** Seconds until the next token. */
  function Wait(capacity: real, rate: real, t: Tokens, now: real): real
    requires rate > 0.0
  {
    var missing := 1.0 - Refill(capacity, rate, t, now).level;
    if missing <= 0.0 then 0.0 else missing / rate
  }

  class TokenBucket {
    const capacity: real
    const refillPerSecond: real
    var tokens: real
    var last: real

    ghost predicate Valid()
      reads this
    {
      capacity > 0.0 && refillPerSecond > 0.0
    }

    function View(): Tokens
      reads this
    {
      Tokens(tokens, last)
    }

    constructor (capacity: nat, refillPerSecond: real, now: real)
      requires capacity > 0 && refillPerSecond > 0.0
      ensures Valid() && this.capacity == capacity as real && this.refillPerSecond == refillPerSecond
      ensures View() == Tokens(capacity as real, now)
    {
      this.capacity := capacity as real;
      this.refillPerSecond := refillPerSecond;
      this.tokens := capacity as real;
      this.last := now;
    }

    method DoRefill(now: real)
      requires Valid()
      modifies this
      ensures View() == Refill(capacity, refillPerSecond, old(View()), now)
    {
      var elapsed := now - last;
      if elapsed > 0.0 {
        tokens := MinReal(capacity, tokens + elapsed * refillPerSecond);
        last := now;
      }
    }

    method Take(now: real) returns (granted: bool)
      requires Valid()
      modifies this
      ensures granted == CanTake(capacity, refillPerSecond, old(View()), now)
      ensures View() == AfterTake(capacity, refillPerSecond, old(View()), now)
    {
      DoRefill(now);
      if tokens >= 1.0 {
        tokens := tokens - 1.0;
        return true;
      }
      return false;
    }

    method RetryAfter(now: real) returns (wait: real)
      requires Valid()
      modifies this
      ensures wait == Wait(capacity, refillPerSecond, old(View()), now)
      ensures View() == Refill(capacity, refillPerSecond, old(View()), now)
    {
      DoRefill(now);
      var missing := 1.0 - tokens;
      if missing <= 0.0 {
        return 0.0;
      }
      return missing / refillPerSecond;
    }
  }

  // ------------------------------------------------------------------ laws

  /** After a refusal the next take succeeds exactly when the announced wait has passed. */
  lemma RetryIsExact(capacity: real, rate: real, t: Tokens, now: real, later: real)
    requires capacity >= 1.0 && rate > 0.0 && t.last <= now <= later
    requires !CanTake(capacity, rate, t, now)
    ensures CanTake(capacity, rate, AfterTake(capacity, rate, t, now), later)
            <==> later - now >= Wait(capacity, rate, t, now)
  {
    var r := Refill(capacity, rate, t, now);
    assert r.last == now;
    var missing := 1.0 - r.level;
    var gain := (later - now) * rate;
    DivideBy(missing, later - now, rate);
  }

  lemma DivideBy(m: real, d: real, rate: real)
    requires rate > 0.0
    ensures d >= m / rate <==> d * rate >= m
  {
    var q := m / rate;
    assert q * rate == m;
    if d >= q {
      assert (d - q) * rate >= 0.0;
    } else {
      assert (q - d) * rate > 0.0;
    }
  }

  /** What flows into the bucket between two moments. */
  function Inflow(rate: real, from: real, to: real): real {
    rate * (to - from)
  }

  lemma InflowAdds(rate: real, from: real, mid: real, to: real)
    ensures Inflow(rate, from, to) == Inflow(rate, from, mid) + Inflow(rate, mid, to)
    ensures Inflow(rate, from, from) == 0.0
    ensures rate > 0.0 && mid <= to ==> Inflow(rate, mid, to) >= 0.0
  {
  }

  /** The accepted takes of the history never ran ahead of the budget: any stretch of it
      is covered by a full bucket plus what flowed in over its duration. */
  predicate Paced(capacity: real, rate: real, h: seq<real>) {
    forall i, j :: 0 <= i <= j < |h| ==> (j - i + 1) as real <= capacity + Inflow(rate, h[i], h[j])
  }

  predicate Chronological(h: seq<real>, upto: real) {
    && (forall i, j :: 0 <= i <= j < |h| ==> h[i] <= h[j])
    && (forall i :: 0 <= i < |h| ==> h[i] <= upto)
  }

  /** What ties the bucket to the takes it granted. */
  predicate Ledger(capacity: real, rate: real, t: Tokens, h: seq<real>) {
    && 0.0 <= t.level <= capacity
    && Chronological(h, t.last)
    && Paced(capacity, rate, h)
    && (forall i :: 0 <= i < |h| ==> (|h| - i) as real + t.level <= capacity + Inflow(rate, h[i], t.last))
  }

  lemma RefillKeepsLedger(capacity: real, rate: real, t: Tokens, h: seq<real>, now: real)
    requires Ledger(capacity, rate, t, h) && rate > 0.0
    ensures Ledger(capacity, rate, Refill(capacity, rate, t, now), h)
  {
    if now > t.last {
      var r := Refill(capacity, rate, t, now);
      InflowAdds(rate, t.last, t.last, now);
      assert (now - t.last) * rate == Inflow(rate, t.last, now);
      assert r.level <= t.level + Inflow(rate, t.last, now) && 0.0 <= r.level <= capacity && r.last == now;
      hide Inflow, Refill;
      forall i | 0 <= i < |h|
        ensures (|h| - i) as real + r.level <= capacity + Inflow(rate, h[i], r.last)
      {
        InflowAdds(rate, h[i], t.last, now);
      }
    }
  }

  /** A take spends at most a token; a duplicate spends it without entering the history. */
  lemma SpendKeepsLedger(capacity: real, rate: real, t: Tokens, h: seq<real>, now: real)
    requires Ledger(capacity, rate, t, h) && rate > 0.0
    ensures Ledger(capacity, rate, AfterTake(capacity, rate, t, now), h)
  {
    RefillKeepsLedger(capacity, rate, t, h, now);
  }

  /** A granted take that enters the history. */
  lemma TakeKeepsLedger(capacity: real, rate: real, t: Tokens, h: seq<real>, now: real)
    requires Ledger(capacity, rate, t, h) && rate > 0.0
    requires now >= t.last && CanTake(capacity, rate, t, now)
    ensures Ledger(capacity, rate, AfterTake(capacity, rate, t, now), h + [now])
  {
    RefillKeepsLedger(capacity, rate, t, h, now);
    var r := Refill(capacity, rate, t, now);
    hide Refill;
    RecordKeepsLedger(capacity, rate, r, h);
  }

  lemma RecordKeepsLedger(capacity: real, rate: real, r: Tokens, h: seq<real>)
    requires Ledger(capacity, rate, r, h) && r.level >= 1.0
    ensures Ledger(capacity, rate, r.(level := r.level - 1.0), h + [r.last])
  {
    hide Inflow;
    InflowAdds(rate, r.last, r.last, r.last);
    var g := h + [r.last];
    assert |g| == |h| + 1 && g[|h|] == r.last;
    forall i, j | 0 <= i <= j < |g|
      ensures (j - i + 1) as real <= capacity + Inflow(rate, g[i], g[j])
    {
      if j < |h| {
        assert g[i] == h[i] && g[j] == h[j];
      }
    }
  }

  /** In any stretch of time no longer than `span`, at most burst + rate * span takes. */
  lemma RateBound(capacity: real, rate: real, t: Tokens, h: seq<real>, i: nat, j: nat, span: real)
    requires Ledger(capacity, rate, t, h) && rate > 0.0
    requires i <= j < |h| && h[j] - h[i] <= span
    ensures (j - i + 1) as real <= capacity + rate * span
  {
    assert rate * span == Inflow(rate, h[i], h[j]) + rate * (span - (h[j] - h[i]));
    assert rate * (span - (h[j] - h[i])) >= 0.0;
  }
}
