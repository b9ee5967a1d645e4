/** The token bucket and the per-provider limiter of backend/ai/provider_rate_limit.py. Amounts and times are
reals; the clock is passed in. */
module RateLimit {
  import opened Text

  // ---------- The token bucket ----------

  datatype Bucket = Bucket(capacity: real, tokens: real, rate: real, last: real)

  function Least(x: real, y: real): real { if x <= y then x else y }
  function Greatest(x: real, y: real): real { if x <= y then y else x }

  function Times(x: real, y: real): real { x * y }

  lemma TimesRises(m: real, g: real, h: real)
    requires m >= 0.0 && g >= h
    ensures Times(m, g) >= Times(m, h)
  {
  }

  function Refill(b: Bucket, now: real): Bucket {
    b.(tokens := Least(b.capacity, b.tokens + (now - b.last) * b.rate), last := now)
  }

  function Consume(b: Bucket, amount: real, now: real): (Bucket, bool) {
    var r := Refill(b, now);
    if r.tokens >= amount then (r.(tokens := r.tokens - amount), true) else (r, false)
  }

  class TokenBucket {
    const capacity: real
    const refillRate: real
    var tokens: real
    var lastRefill: real

    function View(): Bucket
      reads this
    {
      Bucket(capacity, tokens, refillRate, lastRefill)
    }

    constructor (capacity: real, refillRate: real, now: real)
      ensures View() == Bucket(capacity, capacity, refillRate, now)
    {
      this.capacity, this.refillRate := capacity, refillRate;
      tokens, lastRefill := capacity, now;
    }

    method RefillNow(now: real)
      modifies this
      ensures View() == Refill(old(View()), now)
    {
      var elapsed := now - lastRefill;
      tokens := Least(capacity, tokens + elapsed * refillRate);
      lastRefill := now;
    }

    method TryConsume(amount: real, now: real) returns (ok: bool)
      modifies this
      ensures (View(), ok) == Consume(old(View()), amount, now)
    {
      RefillNow(now);
      if tokens >= amount {
        tokens := tokens - amount;
        return true;
      }
      return false;
    }

    method Available(now: real) returns (amount: real)
      modifies this
      ensures View() == Refill(old(View()), now) && amount == View().tokens
    {
      RefillNow(now);
      return tokens;
    }
  }

  // ---------- Runs of one bucket ----------

  /** `Take` is a call of `consume`, `Peek` one of `available`. */
  datatype Use = Take(amount: real, now: real) | Peek(now: real)

  function After(b: Bucket, u: Use): Bucket {
    match u
    case Take(amount, now) => Consume(b, amount, now).0
    case Peek(now) => Refill(b, now)
  }

  function AfterAll(b: Bucket, uses: seq<Use>): Bucket
    decreases |uses|
  {
    if uses == [] then b else AfterAll(After(b, uses[0]), uses[1..])
  }

  /** The clock starts at `from` and never runs backwards, and no negative amount is asked for. */
  predicate Regular(uses: seq<Use>, from: real) {
    uses == [] ||
    (from <= uses[0].now && (uses[0].Take? ==> uses[0].amount >= 0.0) && Regular(uses[1..], uses[0].now))
  }

  predicate Sound(b: Bucket) { 0.0 <= b.tokens <= b.capacity && b.rate >= 0.0 }

  lemma Gain(rate: real, s: real, t: real, u: real)
    requires rate >= 0.0 && s <= t <= u
    ensures (t - s) * rate >= 0.0 && (u - s) * rate == (t - s) * rate + (u - t) * rate && (u - t) * rate >= 0.0
  {
  }

  /** What flows into a bucket of this rate. */
  function Inflow(rate: real, from: real, to: real): real { (to - from) * rate }

  lemma InflowAdds(rate: real, s: real, t: real, u: real)
    requires rate >= 0.0 && s <= t <= u
    ensures Inflow(rate, s, u) == Inflow(rate, s, t) + Inflow(rate, t, u)
    ensures Inflow(rate, s, t) >= 0.0 && Inflow(rate, t, u) >= 0.0
  {
    Gain(rate, s, t, u);
  }

  lemma RefillTokens(b: Bucket, t: real)
    ensures Refill(b, t).tokens == Least(b.capacity, b.tokens + Inflow(b.rate, b.last, t))
  {
  }

  lemma UseKeepsSound(b: Bucket, u: Use)
    requires Sound(b) && b.last <= u.now && (u.Take? ==> u.amount >= 0.0)
    ensures Sound(After(b, u)) && After(b, u).last == u.now
    ensures After(b, u).capacity == b.capacity && After(b, u).rate == b.rate
  {
    InflowAdds(b.rate, b.last, u.now, u.now);
    RefillTokens(b, u.now);
  }

  /** Between 0 and the capacity, whatever the run. */
  lemma {:induction false} TokensStayInRange(b: Bucket, uses: seq<Use>)
    requires Sound(b) && Regular(uses, b.last)
    ensures var e := AfterAll(b, uses); Sound(e) && e.capacity == b.capacity
    decreases |uses|
  {
    if uses == [] {
    } else {
      UseKeepsSound(b, uses[0]);
      TokensStayInRange(After(b, uses[0]), uses[1..]);
    }
  }

  lemma RefillTwice(b: Bucket, t: real, u: real)
    requires b.rate >= 0.0 && b.last <= t <= u
    ensures Refill(Refill(b, t), u) == Refill(b, u)
  {
    Gain(b.rate, b.last, t, u);
  }

  // ---------- Looking does not change a decision ----------

  function Decisions(b: Bucket, uses: seq<Use>): seq<bool>
    decreases |uses|
  {
    if uses == [] then []
    else
      (if uses[0].Take? then [Consume(b, uses[0].amount, uses[0].now).1] else []) +
      Decisions(After(b, uses[0]), uses[1..])
  }

  function WithoutPeeks(uses: seq<Use>): seq<Use> {
    if uses == [] then []
    else (if uses[0].Take? then [uses[0]] else []) + WithoutPeeks(uses[1..])
  }

  lemma {:induction false} RefillBeforeRun(b: Bucket, t: real, uses: seq<Use>)
    requires b.rate >= 0.0 && b.last <= t && Regular(uses, t)
    ensures Decisions(Refill(b, t), uses) == Decisions(b, uses)
  {
    if uses != [] {
      RefillTwice(b, t, uses[0].now);
    }
  }

  lemma RegularWithoutPeeks(uses: seq<Use>, from: real, t: real)
    requires Regular(uses, t) && from <= t
    ensures Regular(WithoutPeeks(uses), from)
    decreases |uses|
  {
    if uses == [] {
    } else {
      if uses[0].Take? {
        RegularWithoutPeeks(uses[1..], uses[0].now, uses[0].now);
        assert WithoutPeeks(uses)[1..] == WithoutPeeks(uses[1..]);
      } else {
        RegularWithoutPeeks(uses[1..], from, uses[0].now);
        assert WithoutPeeks(uses) == WithoutPeeks(uses[1..]);
      }
    }
  }

  /** Extra calls of `available` never change what `consume` answers. */
  lemma {:induction false} PeeksDoNotMatter(b: Bucket, uses: seq<Use>)
    requires b.rate >= 0.0 && Regular(uses, b.last)
    ensures Decisions(b, uses) == Decisions(b, WithoutPeeks(uses))
    decreases |uses|
  {
    if uses == [] {
    } else {
      var u, rest := uses[0], uses[1..];
      PeeksDoNotMatter(After(b, u), rest);
      if u.Peek? {
        assert WithoutPeeks(uses) == WithoutPeeks(rest);
        RegularWithoutPeeks(rest, u.now, u.now);
        RefillBeforeRun(b, u.now, WithoutPeeks(rest));
      } else {
        assert WithoutPeeks(uses)[1..] == WithoutPeeks(rest);
      }
    }
  }

  // ---------- Consumption in an interval ----------

  /** What one call consumes. */
  function Spent(b: Bucket, u: Use): real {
    if u.Take? && Consume(b, u.amount, u.now).1 then u.amount else 0.0
  }

  /** What the calls from time `s` to time `t`, both included, consume. */
  function Consumed(b: Bucket, uses: seq<Use>, s: real, t: real): real
    decreases |uses|
  {
    if uses == [] then 0.0
    else (if s <= uses[0].now <= t then Spent(b, uses[0]) else 0.0) + Consumed(After(b, uses[0]), uses[1..], s, t)
  }

  /** One call spends what it takes away, out of what was there and what flowed in. */
  lemma UseSpends(b: Bucket, u: Use)
    requires Sound(b) && b.last <= u.now && (u.Take? ==> u.amount >= 0.0)
    ensures Sound(After(b, u)) && After(b, u).last == u.now && Spent(b, u) >= 0.0
    ensures After(b, u).capacity == b.capacity && After(b, u).rate == b.rate
    ensures Spent(b, u) + After(b, u).tokens <= b.tokens + Inflow(b.rate, b.last, u.now)
    ensures Spent(b, u) + After(b, u).tokens <= b.capacity
  {
    UseKeepsSound(b, u);
  }

  /** What is consumed up to `t` comes out of the tokens at hand and what flows in until then. */
  lemma {:induction false} ConsumedSoFar(b: Bucket, uses: seq<Use>, s: real, t: real)
    requires Sound(b) && Regular(uses, b.last) && b.last <= t
    ensures Consumed(b, uses, s, t) <= b.tokens + Inflow(b.rate, b.last, t)
    decreases |uses|
  {
    InflowAdds(b.rate, b.last, t, t);
    if uses == [] {
    } else {
      var u := uses[0];
      var b' := After(b, u);
      UseSpends(b, u);
      if u.now <= t {
        InflowAdds(b.rate, b.last, u.now, t);
        ConsumedSoFar(b', uses[1..], s, t);
      } else {
        ConsumedTooLate(b', uses[1..], s, t);
      }
    }
  }

  lemma {:induction false} ConsumedTooLate(b: Bucket, uses: seq<Use>, s: real, t: real)
    requires Regular(uses, b.last) && t < b.last
    ensures Consumed(b, uses, s, t) == 0.0
    decreases |uses|
  {
    if uses == [] {
    } else {
      ConsumedTooLate(After(b, uses[0]), uses[1..], s, t);
    }
  }

  /** In no interval is more consumed than a full bucket and what flows in meanwhile. */
  lemma {:induction false} ConsumedInInterval(b: Bucket, uses: seq<Use>, s: real, t: real)
    requires Sound(b) && Regular(uses, b.last) && s <= t
    ensures Consumed(b, uses, s, t) <= b.capacity + Inflow(b.rate, s, t)
    decreases |uses|
  {
    InflowAdds(b.rate, s, t, t);
    if uses == [] {
    } else {
      var u := uses[0];
      var b' := After(b, u);
      UseSpends(b, u);
      if u.now < s {
        ConsumedInInterval(b', uses[1..], s, t);
      } else if u.now <= t {
        InflowAdds(b.rate, s, u.now, t);
        ConsumedSoFar(b', uses[1..], s, t);
      } else {
        ConsumedTooLate(b', uses[1..], s, t);
      }
    }
  }

  // ---------- What decides whether a request is granted ----------

  /** A request that was granted. */
  datatype Grant = Grant(at: real, amount: real)

  function Sum(grants: seq<Grant>): real {
    if grants == [] then 0.0 else grants[0].amount + Sum(grants[1..])
  }

  lemma {:induction false} SumOfAppend(grants: seq<Grant>, g: Grant)
    ensures Sum(grants + [g]) == Sum(grants) + g.amount
  {
    if grants == [] {
      assert [g][1..] == [];
    } else {
      SumOfAppend(grants[1..], g);
      assert (grants + [g])[1..] == grants[1..] + [g];
    }
  }

  /** What has flowed into a bucket since the `i`-th grant, if it was full then, and was not granted from then on. */
  function LeftSince(b: Bucket, grants: seq<Grant>, i: nat, t: real): real
    requires i < |grants|
  {
    b.capacity + Inflow(b.rate, grants[i].at, t) - Sum(grants[i..])
  }

  /** At time `t` a bucket that was `b` and has granted `grants` can afford `amount`: it is no more than a full bucket,
  than what was there and has flowed in and was not granted, and than the same since each grant from a full bucket. */
  ghost predicate Affordable(b: Bucket, grants: seq<Grant>, amount: real, t: real) {
    && amount <= b.capacity
    && amount <= b.tokens + Inflow(b.rate, b.last, t) - Sum(grants)
    && forall i :: 0 <= i < |grants| ==> amount <= LeftSince(b, grants, i, t)
  }

  /** The answers of a bucket, told from the times and amounts granted alone. */
  ghost function Answers(b: Bucket, grants: seq<Grant>, uses: seq<Use>): seq<bool>
    decreases |uses|
  {
    if uses == [] then []
    else
      match uses[0]
      case Peek(_) => Answers(b, grants, uses[1..])
      case Take(amount, now) =>
        var ok := Affordable(b, grants, amount, now);
        [ok] + Answers(b, if ok then grants + [Grant(now, amount)] else grants, uses[1..])
  }

  /** `now` is the bucket that `b` has become after `grants`. */
  ghost predicate Tracks(b: Bucket, grants: seq<Grant>, now: Bucket) {
    && now.capacity == b.capacity && now.rate == b.rate && b.last <= now.last
    && (forall i :: 0 <= i < |grants| ==> b.last <= grants[i].at <= now.last)
    && (forall amount, t :: now.last <= t ==>
          (Affordable(b, grants, amount, t) <==> amount <= Refill(now, t).tokens))
  }

  lemma TracksFromStart(b: Bucket)
    requires b.rate >= 0.0
    ensures Tracks(b, [], b)
  {
  }

  /** What can be afforded after one more grant is what could be afforded with it. */
  lemma AffordableAfterGrant(b: Bucket, grants: seq<Grant>, g: Grant, amount: real, t: real)
    requires b.rate >= 0.0 && b.last <= g.at <= t && forall i :: 0 <= i < |grants| ==> grants[i].at <= g.at
    ensures Affordable(b, grants + [g], amount, t) <==>
            amount <= b.capacity && Affordable(b, grants, amount + g.amount - Inflow(b.rate, g.at, t), g.at)
  {
    var more := grants + [g];
    SumOfAppend(grants, g);
    InflowAdds(b.rate, b.last, g.at, t);
    forall i | 0 <= i < |grants|
      ensures LeftSince(b, more, i, t) == LeftSince(b, grants, i, g.at) + Inflow(b.rate, g.at, t) - g.amount
    {
      assert more[i..] == grants[i..] + [g];
      SumOfAppend(grants[i..], g);
      InflowAdds(b.rate, grants[i].at, g.at, t);
    }
    assert more[|grants|..] == [g] && Sum([g]) == g.amount;
    assert LeftSince(b, more, |grants|, t) == b.capacity + Inflow(b.rate, g.at, t) - g.amount;
  }

  lemma RefillTracks(b: Bucket, grants: seq<Grant>, now: Bucket, t: real)
    requires b.rate >= 0.0 && Tracks(b, grants, now) && now.last <= t
    ensures Tracks(b, grants, Refill(now, t))
  {
    forall amount, u | t <= u
      ensures Affordable(b, grants, amount, u) <==> amount <= Refill(Refill(now, t), u).tokens
    {
      RefillTwice(now, t, u);
    }
  }

  lemma GrantTracks(b: Bucket, grants: seq<Grant>, now: Bucket, amount: real, t: real)
    requires b.rate >= 0.0 && Tracks(b, grants, now) && now.last <= t && amount >= 0.0
    requires Consume(now, amount, t).1
    ensures Tracks(b, grants + [Grant(t, amount)], Consume(now, amount, t).0)
  {
    var after := Consume(now, amount, t).0;
    forall x, u | t <= u
      ensures Affordable(b, grants + [Grant(t, amount)], x, u) <==> x <= Refill(after, u).tokens
    {
      var inflow := Inflow(b.rate, t, u);
      AffordableAfterGrant(b, grants, Grant(t, amount), x, u);
      assert Affordable(b, grants, x + amount - inflow, t) <==> x + amount - inflow <= Refill(now, t).tokens;
      assert after.tokens == Refill(now, t).tokens - amount && after.last == t;
      RefillTokens(after, u);
    }
  }

  lemma {:induction false} DecisionsFromGrants(b: Bucket, grants: seq<Grant>, now: Bucket, uses: seq<Use>)
    requires b.rate >= 0.0 && Tracks(b, grants, now) && Regular(uses, now.last)
    ensures Decisions(now, uses) == Answers(b, grants, uses)
    decreases |uses|
  {
    if uses == [] {
    } else {
      match uses[0]
      case Peek(t) =>
        RefillTracks(b, grants, now, t);
        DecisionsFromGrants(b, grants, Refill(now, t), uses[1..]);
      case Take(amount, t) =>
        if Consume(now, amount, t).1 {
          GrantTracks(b, grants, now, amount, t);
          DecisionsFromGrants(b, grants + [Grant(t, amount)], Consume(now, amount, t).0, uses[1..]);
        } else {
          RefillTracks(b, grants, now, t);
          DecisionsFromGrants(b, grants, Refill(now, t), uses[1..]);
        }
    }
  }

  /** Every request is granted or refused as the times and amounts of the requests granted before it say. */
  lemma GrantedIffAffordable(b: Bucket, uses: seq<Use>)
    requires b.rate >= 0.0 && Regular(uses, b.last)
    ensures Decisions(b, uses) == Answers(b, [], uses)
  {
    TracksFromStart(b);
    DecisionsFromGrants(b, [], b, uses);
  }

  // ---------- The limiter ----------

  datatype ProviderType = Onnx | Local | Vector | Custom
  datatype Priority = Critical | High | Normal | Low | Batch

  datatype Quota = Quota(
    rpm: int,
    tpm: int,
    dailyLimit: real,
    requests: int,
    tokens: int,
    units: real)

  datatype Throttle = Throttle(delayMs: real, multiplier: real, successRate: real, dropped: int)

  datatype Provider = Provider(quota: Quota, bucket: Bucket, throttle: Throttle)

  const BACKOFF_BASE: real := 100.0
  const BACKOFF_MAX: real := 5000.0
  const MULTIPLIER_MAX: real := 10.0

  function Registered(rpm: int, tpm: int, dailyLimit: real, now: real): Provider {
    Provider(Quota(rpm, tpm, dailyLimit, 0, 0, 0.0),
             Bucket(rpm as real, rpm as real, rpm as real / 60.0, now),
             Throttle(0.0, 1.0, 1.0, 0))
  }

  function BaseDelay(priority: Priority): real {
    if priority.Low? then 2.0 * BACKOFF_BASE else BACKOFF_BASE
  }

  /** The delay to ask for, and the throttle afterwards. */
  function Backoff(t: Throttle, priority: Priority): (real, Throttle) {
    if priority.Critical? then (0.0, t)
    else (Least(BaseDelay(priority) * t.multiplier, BACKOFF_MAX),
          t.(multiplier := Least(t.multiplier * 1.5, MULTIPLIER_MAX)))
  }

  function Check(p: Provider, priority: Priority, now: real): (Provider, bool, real) {
    var (bucket, ok) := Consume(p.bucket, 1.0, now);
    if ok then
      (Provider(p.quota.(requests := p.quota.requests + 1), bucket,
                p.throttle.(successRate := 1.0, delayMs := 0.0)), true, 0.0)
    else
      var (delay, throttle) := Backoff(p.throttle, priority);
      (Provider(p.quota, bucket, throttle.(delayMs := delay)), false, delay)
  }

  function Succeed(p: Provider, tokens: int, units: real): Provider {
    p.(quota := p.quota.(requests := p.quota.requests + 1, tokens := p.quota.tokens + tokens,
                         units := p.quota.units + units),
       throttle := p.throttle.(successRate := 1.0, multiplier := Greatest(1.0, p.throttle.multiplier * 0.9)))
  }

  function Fail(p: Provider): Provider {
    p.(throttle := p.throttle.(multiplier := p.throttle.multiplier * 1.2, dropped := p.throttle.dropped + 1))
  }

  /** The entries of `get_available_quota`. */
  datatype Available = Available(requests: int, tokens: int, units: real, bucket: real)

  function Remaining(p: Provider): Available {
    Available(p.quota.rpm - p.quota.requests, p.quota.tpm - p.quota.tokens, p.quota.dailyLimit - p.quota.units,
              p.bucket.tokens)
  }

  class RateLimitIntelligence {
    var quotas: map<ProviderType, Quota>
    var buckets: map<ProviderType, TokenBucket>
    var throttles: map<ProviderType, Throttle>

    /** The three dictionaries have the same keys, and no two providers share a bucket. */
    ghost predicate Valid()
      reads this
    {
      && buckets.Keys == quotas.Keys == throttles.Keys
      && forall p, q :: p in buckets && q in buckets && p != q ==> buckets[p] != buckets[q]
    }

    /** The abstract state of one provider. */
    function Of(p: ProviderType): Provider
      requires Valid() && p in quotas
      reads this, buckets.Values
    {
      Provider(quotas[p], buckets[p].View(), throttles[p])
    }

    constructor ()
      ensures Valid() && quotas == map[]
    {
      quotas, buckets, throttles := map[], map[], map[];
    }

    method RegisterProvider(p: ProviderType, rpm: int, tpm: int, dailyLimit: real, now: real)
      requires Valid()
      modifies this
      ensures Valid() && quotas.Keys == old(quotas.Keys) + {p}
      ensures Of(p) == Registered(rpm, tpm, dailyLimit, now)
      ensures forall q :: q in old(quotas) && q != p ==> Of(q) == old(Of(q))
    {
      var bucket := new TokenBucket(rpm as real, rpm as real / 60.0, now);
      quotas := quotas[p := Quota(rpm, tpm, dailyLimit, 0, 0, 0.0)];
      buckets := buckets[p := bucket];
      throttles := throttles[p := Throttle(0.0, 1.0, 1.0, 0)];
    }

    method CalculateBackoff(p: ProviderType, priority: Priority) returns (delay: real)
      requires p in throttles
      modifies this`throttles
      ensures throttles == old(throttles)[p := Backoff(old(throttles)[p], priority).1]
      ensures delay == Backoff(old(throttles)[p], priority).0
    {
      var base := BACKOFF_BASE;
      if priority.Critical? {
        return 0.0;
      } else if priority.Low? {
        base := base * 2.0;
      }
      var state := throttles[p];
      var backoff := base * state.multiplier;
      throttles := throttles[p := state.(multiplier := Least(state.multiplier * 1.5, MULTIPLIER_MAX))];
      return Least(backoff, BACKOFF_MAX);
    }

    method CheckLimit(p: ProviderType, priority: Priority, now: real) returns (allowed: bool, delay: real)
      requires Valid()
      modifies this, buckets.Values
      ensures Valid() && quotas.Keys == old(quotas.Keys)
      ensures p in quotas ==> (Of(p), allowed, delay) == Check(old(Of(p)), priority, now)
      ensures p !in quotas ==> allowed && delay == 0.0
      ensures forall q :: q in quotas && q != p ==> Of(q) == old(Of(q))
    {
      if p !in quotas {
        return true, 0.0;
      }
      var bucket := buckets[p];
      allowed := bucket.TryConsume(1.0, now);
      if allowed {
        delay := 0.0;
        quotas := quotas[p := quotas[p].(requests := quotas[p].requests + 1)];
        throttles := throttles[p := throttles[p].(successRate := 1.0, delayMs := 0.0)];
      } else {
        delay := CalculateBackoff(p, priority);
        throttles := throttles[p := throttles[p].(delayMs := delay)];
      }
      assert buckets == old(buckets) && (bucket.View(), allowed) == Consume(old(bucket.View()), 1.0, now);
    }

    method RecordSuccess(p: ProviderType, tokens: int, units: real)
      requires Valid()
      modifies this
      ensures Valid() && quotas.Keys == old(quotas.Keys)
      ensures p in quotas ==> Of(p) == Succeed(old(Of(p)), tokens, units)
      ensures forall q :: q in quotas && q != p ==> Of(q) == old(Of(q))
    {
      if p in quotas {
        var q, t := quotas[p], throttles[p];
        quotas := quotas[p := q.(requests := q.requests + 1, tokens := q.tokens + tokens, units := q.units + units)];
        throttles := throttles[p := t.(successRate := 1.0, multiplier := Greatest(1.0, t.multiplier * 0.9))];
      }
    }

    method RecordFailure(p: ProviderType)
      requires Valid()
      modifies this
      ensures Valid() && quotas.Keys == old(quotas.Keys)
      ensures p in quotas ==> Of(p) == Fail(old(Of(p)))
      ensures forall q :: q in quotas && q != p ==> Of(q) == old(Of(q))
    {
      if p in throttles {
        var t := throttles[p];
        throttles := throttles[p := t.(multiplier := t.multiplier * 1.2, dropped := t.dropped + 1)];
      }
    }

    /** `get_available_quota`: `None` for an unknown provider; reading the quota refills the bucket. */
    method GetAvailableQuota(p: ProviderType, now: real) returns (available: Option<Available>)
      requires Valid()
      modifies buckets.Values
      ensures Valid()
      ensures p !in quotas ==> available == None
      ensures p in quotas ==> Of(p) == Next(old(Of(p)), Inspected(now)) && available == Some(Remaining(Of(p)))
      ensures forall q :: q in quotas && q != p ==> Of(q) == old(Of(q))
    {
      if p !in quotas {
        return None;
      }
      var q := quotas[p];
      var amount := buckets[p].Available(now);
      return Some(Available(q.rpm - q.requests, q.tpm - q.tokens, q.dailyLimit - q.units, amount));
    }
  }

  // ---------- Runs of one registered provider ----------

  datatype Event =
    | Checked(priority: Priority, now: real)
    | Succeeded(tokens: int, units: real)
    | Failed
    | Inspected(now: real)   // get_available_quota, which refills the bucket

  function Next(p: Provider, e: Event): Provider {
    match e
    case Checked(priority, now) => Check(p, priority, now).0
    case Succeeded(tokens, units) => Succeed(p, tokens, units)
    case Failed => Fail(p)
    case Inspected(now) => p.(bucket := Refill(p.bucket, now))
  }

  function Admits(p: Provider, e: Event): bool {
    e.Checked? && Check(p, e.priority, e.now).1
  }

  predicate Timed(e: Event) { e.Checked? || e.Inspected? }

  predicate Clocked(events: seq<Event>, from: real) {
    events == [] ||
    if Timed(events[0]) then
      from <= events[0].now && Clocked(events[1..], events[0].now)
    else Clocked(events[1..], from)
  }

  /** How many requests from time `s` to time `t`, both included, are admitted. */
  function Admitted(p: Provider, events: seq<Event>, s: real, t: real): nat
    decreases |events|
  {
    if events == [] then 0
    else
      (if Admits(p, events[0]) && s <= events[0].now <= t then 1 else 0) +
      Admitted(Next(p, events[0]), events[1..], s, t)
  }

  /** What a run does to the bucket. */
  function Uses(events: seq<Event>): seq<Use> {
    if events == [] then []
    else
      (match events[0]
       case Checked(_, now) => [Take(1.0, now)]
       case Inspected(now) => [Peek(now)]
       case _ => []) + Uses(events[1..])
  }

  lemma {:induction false} UsesAreRegular(events: seq<Event>, from: real)
    requires Clocked(events, from)
    ensures Regular(Uses(events), from)
    decreases |events|
  {
    if events == [] {
    } else {
      var rest := Uses(events[1..]);
      if Timed(events[0]) {
        UsesAreRegular(events[1..], events[0].now);
        assert Uses(events)[1..] == rest;
      } else {
        UsesAreRegular(events[1..], from);
        assert Uses(events) == rest;
      }
    }
  }

  lemma {:induction false} AdmittedIsConsumed(p: Provider, events: seq<Event>, s: real, t: real)
    ensures Admitted(p, events, s, t) as real == Consumed(p.bucket, Uses(events), s, t)
    decreases |events|
  {
    if events == [] {
    } else {
      AdmittedIsConsumed(Next(p, events[0]), events[1..], s, t);
      var rest := Uses(events[1..]);
      if Timed(events[0]) {
        assert Uses(events)[1..] == rest;
      } else {
        assert Uses(events) == rest;
      }
    }
  }

  /** The answers of `check_limit` over a run. */
  function CheckAnswers(p: Provider, events: seq<Event>): seq<bool>
    decreases |events|
  {
    if events == [] then []
    else (if events[0].Checked? then [Admits(p, events[0])] else []) + CheckAnswers(Next(p, events[0]), events[1..])
  }

  lemma {:induction false} CheckAnswersAreDecisions(p: Provider, events: seq<Event>)
    ensures CheckAnswers(p, events) == Decisions(p.bucket, Uses(events))
    decreases |events|
  {
    if events == [] {
    } else {
      CheckAnswersAreDecisions(Next(p, events[0]), events[1..]);
      if Timed(events[0]) {
        assert Uses(events)[1..] == Uses(events[1..]);
      } else {
        assert Uses(events) == Uses(events[1..]);
      }
    }
  }

  /** Every check of a registered provider is answered as the checks admitted before it say: out of its rate per
  minute at once, and a sixtieth of it more for every second. */
  lemma AdmittedIffAffordable(rpm: nat, tpm: int, dailyLimit: real, start: real, events: seq<Event>)
    requires Clocked(events, start)
    ensures CheckAnswers(Registered(rpm, tpm, dailyLimit, start), events) ==
            Answers(Bucket(rpm as real, rpm as real, rpm as real / 60.0, start), [], Uses(events))
  {
    var p := Registered(rpm, tpm, dailyLimit, start);
    UsesAreRegular(events, start);
    CheckAnswersAreDecisions(p, events);
    GrantedIffAffordable(p.bucket, Uses(events));
  }

  /** In any interval a provider admits at most its rate per minute plus what flows in meanwhile. */
  lemma AdmittedInInterval(rpm: nat, tpm: int, dailyLimit: real, start: real, events: seq<Event>, s: real, t: real)
    requires Clocked(events, start) && s <= t
    ensures Admitted(Registered(rpm, tpm, dailyLimit, start), events, s, t) as real
         <= rpm as real + Inflow(rpm as real / 60.0, s, t)
  {
    var p := Registered(rpm, tpm, dailyLimit, start);
    UsesAreRegular(events, start);
    AdmittedIsConsumed(p, events, s, t);
    ConsumedInInterval(p.bucket, Uses(events), s, t);
  }

  /** Any 60 seconds admit at most twice the rate per minute, as long as the provider is not registered anew. */
  lemma MinuteAdmitsTwiceTheRate(rpm: nat, tpm: int, dailyLimit: real, start: real, events: seq<Event>, s: real)
    requires Clocked(events, start)
    ensures Admitted(Registered(rpm, tpm, dailyLimit, start), events, s, s + 60.0) <= 2 * rpm
  {
    AdmittedInInterval(rpm, tpm, dailyLimit, start, events, s, s + 60.0);
    assert Inflow(rpm as real / 60.0, s, s + 60.0) == 60.0 * (rpm as real / 60.0) == rpm as real;
  }

  // ---------- Registering a provider again ----------

  /** One registration with the calls up to the next one. */
  datatype Term = Term(rpm: nat, tpm: int, dailyLimit: real, start: real, events: seq<Event>)

  function Begun(term: Term): Provider { Registered(term.rpm, term.tpm, term.dailyLimit, term.start) }

  predicate OverBy(events: seq<Event>, end: real) {
    forall e :: e in events && Timed(e) ==> e.now <= end
  }

  predicate InOrder(terms: seq<Term>) {
    terms == [] ||
    (Clocked(terms[0].events, terms[0].start) && InOrder(terms[1..]) &&
     (|terms| > 1 ==> terms[0].start <= terms[1].start && OverBy(terms[0].events, terms[1].start)))
  }

  function AdmittedInAll(terms: seq<Term>, s: real, t: real): nat {
    if terms == [] then 0
    else Admitted(Begun(terms[0]), terms[0].events, s, t) + AdmittedInAll(terms[1..], s, t)
  }

  /** The rates of all registrations that are in force at some moment from `s` to `t`. */
  function RatesInForce(terms: seq<Term>, s: real, t: real): nat {
    if terms == [] then 0
    else
      (if terms[0].start <= t && (|terms| == 1 || s <= terms[1].start) then terms[0].rpm else 0) +
      RatesInForce(terms[1..], s, t)
  }

  lemma {:induction false} NoneAdmittedLater(p: Provider, events: seq<Event>, end: real, s: real, t: real)
    requires OverBy(events, end) && end <= t
    ensures Admitted(p, events, s, t) == Admitted(p, events, s, end)
    ensures end < s ==> Admitted(p, events, s, t) == 0
    decreases |events|
  {
    if events == [] {
    } else {
      assert events[0] in events;
      NoneAdmittedLater(Next(p, events[0]), events[1..], end, s, t);
    }
  }

  lemma {:induction false} NoneAdmittedEarlier(p: Provider, events: seq<Event>, from: real, s: real, t: real)
    requires Clocked(events, from) && s <= from
    ensures Admitted(p, events, s, t) == Admitted(p, events, from, t)
    ensures t < from ==> Admitted(p, events, s, t) == 0
    decreases |events|
  {
    if events == [] {
    } else {
      var next := if Timed(events[0]) then events[0].now else from;
      NoneAdmittedEarlier(Next(p, events[0]), events[1..], next, s, t);
      NoneAdmittedEarlier(Next(p, events[0]), events[1..], next, from, t);
    }
  }

  /** What one registration admits from `s` to `t`, if all its calls are over by `t`. */
  lemma AdmittedInTerm(term: Term, s: real, t: real, rate: nat)
    requires Clocked(term.events, term.start) && term.rpm <= rate && s <= t && term.start <= t
    ensures Admitted(Begun(term), term.events, s, t) as real
         <= term.rpm as real + Inflow(rate as real / 60.0, Greatest(s, term.start), t)
  {
    var from := Greatest(s, term.start);
    if s < term.start {
      NoneAdmittedEarlier(Begun(term), term.events, term.start, s, t);
    }
    AdmittedInInterval(term.rpm, term.tpm, term.dailyLimit, term.start, term.events, from, t);
    InflowRises(term.rpm as real / 60.0, rate as real / 60.0, from, t);
  }

  lemma InflowRises(slow: real, fast: real, from: real, to: real)
    requires slow <= fast && from <= to
    ensures Inflow(slow, from, to) <= Inflow(fast, from, to)
  {
    TimesRises(to - from, fast, slow);
  }

  predicate RatesUpTo(terms: seq<Term>, rate: nat) {
    forall term :: term in terms ==> term.rpm <= rate
  }

  lemma {:induction false} NothingBeforeTerms(terms: seq<Term>, s: real, t: real)
    requires InOrder(terms) && terms != [] && t < terms[0].start && s <= t
    ensures AdmittedInAll(terms, s, t) == 0
  {
    NoneAdmittedEarlier(Begun(terms[0]), terms[0].events, terms[0].start, s, t);
    if |terms| == 1 {
    } else {
      NothingBeforeTerms(terms[1..], s, t);
    }
  }

  lemma {:induction false} AdmittedSince(terms: seq<Term>, s: real, t: real, rate: nat)
    requires InOrder(terms) && RatesUpTo(terms, rate) && terms != [] && s <= t && terms[0].start <= t
    ensures AdmittedInAll(terms, s, t) as real
         <= RatesInForce(terms, s, t) as real + Inflow(rate as real / 60.0, Greatest(s, terms[0].start), t)
  {
    var first, rest, r := terms[0], terms[1..], rate as real / 60.0;
    if rest == [] {
      AdmittedInTerm(first, s, t, rate);
    } else if terms[1].start > t {
      AdmittedInTerm(first, s, t, rate);
      NothingBeforeTerms(rest, s, t);
    } else {
      var next := terms[1].start;
      NoneAdmittedLater(Begun(first), first.events, next, s, t);
      AdmittedSince(rest, s, t, rate);
      if s <= next {
        AdmittedInTerm(first, s, next, rate);
        InflowAdds(r, Greatest(s, first.start), next, t);
      }
    }
  }

  /** However often a provider is registered anew, in any interval it admits at most the rates of the
  registrations in force in it, plus what flows in at the highest rate. */
  lemma AdmittedOverRegistrations(terms: seq<Term>, s: real, t: real, rate: nat)
    requires InOrder(terms) && RatesUpTo(terms, rate) && s <= t
    ensures AdmittedInAll(terms, s, t) as real
         <= RatesInForce(terms, s, t) as real + Inflow(rate as real / 60.0, s, t)
  {
    var r := rate as real / 60.0;
    InflowAdds(r, s, t, t);
    if terms == [] {
    } else if t < terms[0].start {
      NothingBeforeTerms(terms, s, t);
    } else {
      AdmittedSince(terms, s, t, rate);
      InflowAdds(r, s, Greatest(s, terms[0].start), t);
    }
  }

  // ---------- Counters and delays over runs ----------

  function AfterEvents(p: Provider, events: seq<Event>): Provider
    decreases |events|
  {
    if events == [] then p else AfterEvents(Next(p, events[0]), events[1..])
  }

  function AdmissionCount(p: Provider, events: seq<Event>): nat
    decreases |events|
  {
    if events == [] then 0
    else (if Admits(p, events[0]) then 1 else 0) + AdmissionCount(Next(p, events[0]), events[1..])
  }

  function SuccessCount(events: seq<Event>): nat {
    if events == [] then 0 else (if events[0].Succeeded? then 1 else 0) + SuccessCount(events[1..])
  }

  function FailureCount(events: seq<Event>): nat {
    if events == [] then 0 else (if events[0].Failed? then 1 else 0) + FailureCount(events[1..])
  }

  function TokenCount(events: seq<Event>): int {
    if events == [] then 0 else (if events[0].Succeeded? then events[0].tokens else 0) + TokenCount(events[1..])
  }

  function UnitCount(events: seq<Event>): real {
    if events == [] then 0.0 else (if events[0].Succeeded? then events[0].units else 0.0) + UnitCount(events[1..])
  }

  /** The delay that the latest check was answered with; `before` if there is none. */
  function LatestDelay(p: Provider, events: seq<Event>, before: real): real
    decreases |events|
  {
    if events == [] then before
    else
      LatestDelay(Next(p, events[0]), events[1..],
                  if events[0].Checked? then Check(p, events[0].priority, events[0].now).2 else before)
  }

  /** The request counter counts a request when it is admitted and once more when it succeeds; the others count what
  successes and failures report, and the delay on record is the one last answered. */
  lemma {:induction false} RequestsAreCountedTwice(p: Provider, events: seq<Event>)
    ensures var after := AfterEvents(p, events);
            && after.quota.requests == p.quota.requests + AdmissionCount(p, events) + SuccessCount(events)
            && after.quota.tokens == p.quota.tokens + TokenCount(events)
            && after.quota.units == p.quota.units + UnitCount(events)
            && after.throttle.dropped == p.throttle.dropped + FailureCount(events)
            && after.throttle.delayMs == LatestDelay(p, events, p.throttle.delayMs)
    decreases |events|
  {
    if events == [] {
    } else {
      RequestsAreCountedTwice(Next(p, events[0]), events[1..]);
    }
  }

  lemma {:induction false} LimitsStay(p: Provider, events: seq<Event>)
    ensures var q := AfterEvents(p, events);
            && (q.quota.rpm, q.quota.tpm, q.quota.dailyLimit) == (p.quota.rpm, p.quota.tpm, p.quota.dailyLimit)
            && (p.throttle.successRate == 1.0 ==> q.throttle.successRate == 1.0)
    decreases |events|
  {
    if events == [] {
    } else {
      LimitsStay(Next(p, events[0]), events[1..]);
    }
  }

  /** Over every run from a registration: what remains is what was registered without what was admitted and reported,
  and the success rate is 1, whatever failed. */
  lemma RemainingIsAccounted(rpm: int, tpm: int, dailyLimit: real, start: real, events: seq<Event>)
    ensures var p := Registered(rpm, tpm, dailyLimit, start);
            var q := AfterEvents(p, events);
            && Remaining(q) == Available(rpm - AdmissionCount(p, events) - SuccessCount(events),
                                         tpm - TokenCount(events), dailyLimit - UnitCount(events), q.bucket.tokens)
            && q.throttle.dropped == FailureCount(events)
            && q.throttle.delayMs == LatestDelay(p, events, 0.0)
            && q.throttle.successRate == 1.0
    ensures Registered(rpm, tpm, dailyLimit, start).throttle.multiplier == 1.0
  {
    var p := Registered(rpm, tpm, dailyLimit, start);
    LimitsStay(p, events);
    RequestsAreCountedTwice(p, events);
  }

  predicate Calm(t: Throttle) { t.multiplier >= 1.0 && 0.0 <= t.delayMs <= BACKOFF_MAX }

  /** The growth by `n` failures: 1.2 to the power of `n`. */
  function Growth(n: nat): (g: real)
    ensures g >= 1.0
  {
    if n == 0 then 1.0 else 1.2 * Growth(n - 1)
  }

  /** What `failures` failures may make of a multiplier. */
  function Bound(failures: nat, multiplier: real): real {
    Times(Growth(failures), Greatest(MULTIPLIER_MAX, multiplier))
  }

  lemma BoundOfOneMore(n: nat, multiplier: real)
    ensures Bound(n + 1, multiplier) == Times(Growth(n), 1.2 * Greatest(MULTIPLIER_MAX, multiplier))
  {
    var g, b := Growth(n), Greatest(MULTIPLIER_MAX, multiplier);
    assert (1.2 * g) * b == g * (1.2 * b);
  }

  lemma MultiplierAfter(p: Provider, e: Event)
    requires Calm(p.throttle)
    ensures Calm(Next(p, e).throttle)
    ensures var bound := Greatest(MULTIPLIER_MAX, p.throttle.multiplier);
            Greatest(MULTIPLIER_MAX, Next(p, e).throttle.multiplier) <= if e.Failed? then 1.2 * bound else bound
  {
  }

  lemma BoundAfter(p: Provider, e: Event, n: nat)
    requires Calm(p.throttle)
    ensures var m, m' := p.throttle.multiplier, Next(p, e).throttle.multiplier;
            Bound(n, m') <= Bound(if e.Failed? then n + 1 else n, m)
  {
    var bound := Greatest(MULTIPLIER_MAX, p.throttle.multiplier);
    var bound' := Greatest(MULTIPLIER_MAX, Next(p, e).throttle.multiplier);
    MultiplierAfter(p, e);
    if e.Failed? {
      BoundOfOneMore(n, p.throttle.multiplier);
      TimesRises(Growth(n), 1.2 * bound, bound');
    } else {
      TimesRises(Growth(n), bound, bound');
    }
  }

  /** The multiplier never drops below 1, only recorded failures drive it beyond its cap, each by the factor 1.2
  at most, and no delay exceeds five seconds. */
  lemma {:induction false} DelaysStayInRange(p: Provider, events: seq<Event>)
    requires Calm(p.throttle)
    ensures Calm(AfterEvents(p, events).throttle)
    ensures AfterEvents(p, events).throttle.multiplier <= Bound(FailureCount(events), p.throttle.multiplier)
    decreases |events|
  {
    if events == [] {
    } else {
      MultiplierAfter(p, events[0]);
      BoundAfter(p, events[0], FailureCount(events[1..]));
      DelaysStayInRange(Next(p, events[0]), events[1..]);
    }
  }

  /** A refused request waits at least the base delay of its priority, unless it is critical. */
  lemma RefusalDelay(p: Provider, priority: Priority, now: real)
    requires Calm(p.throttle) && !Check(p, priority, now).1
    ensures var (q, _, delay) := Check(p, priority, now);
            if priority.Critical? then delay == 0.0 && q.throttle.multiplier == p.throttle.multiplier
            else BaseDelay(priority) <= delay <= BACKOFF_MAX && q.throttle.multiplier <= MULTIPLIER_MAX &&
                 delay == Least((if priority.Low? then 200.0 else 100.0) * p.throttle.multiplier, 5000.0)
  {
    var m := p.throttle.multiplier;
    assert BaseDelay(priority) * m >= BaseDelay(priority) * 1.0;
  }

  /** Refused again at the same priority, with no success in between, it waits shorter exactly when
  recorded failures had driven the multiplier beyond its cap: the first refusal brings it back down to 10. */
  lemma RefusalsEscalate(p: Provider, priority: Priority, now: real, later: real)
    requires Calm(p.throttle) && !Check(p, priority, now).1
    requires var q := Check(p, priority, now).0; !Check(q, priority, later).1
    ensures var (q, _, first) := Check(p, priority, now);
            var second := Check(q, priority, later).2;
            first <= second <==> priority.Critical? || p.throttle.multiplier <= MULTIPLIER_MAX
  {
    var m := p.throttle.multiplier;
    if m <= MULTIPLIER_MAX {
      assert BaseDelay(priority) * m <= BaseDelay(priority) * Least(m * 1.5, MULTIPLIER_MAX);
    }
  }

  // ---------- Refusals and successes in a row ----------

  function Power(x: real, n: nat): real { if n == 0 then 1.0 else x * Power(x, n - 1) }

  /** Checks that are all refused, none of them critical. */
  predicate AllRefused(p: Provider, events: seq<Event>)
    decreases |events|
  {
    events == [] ||
    (events[0].Checked? && !events[0].priority.Critical? && !Admits(p, events[0]) &&
     AllRefused(Next(p, events[0]), events[1..]))
  }

  lemma CappedGrowth(m: real, x: real)
    requires 1.0 <= m && x >= 1.0
    ensures Least(Times(Least(m * 1.5, 10.0), x), 10.0) == Least(Times(m, 1.5 * x), 10.0)
  {
    assert Times(m, 1.5 * x) == Times(m * 1.5, x);
    if m * 1.5 > 10.0 {
      TimesRises(x, m * 1.5, 10.0);
      TimesRises(10.0, x, 1.0);
      assert Times(m * 1.5, x) == Times(x, m * 1.5) && Times(10.0, x) == Times(x, 10.0);
    }
  }

  lemma {:induction false} PowerAtLeastOne(x: real, n: nat)
    requires x >= 1.0
    ensures Power(x, n) >= 1.0
  {
    if n == 0 {
    } else {
      PowerAtLeastOne(x, n - 1);
      TimesRises(x, Power(x, n - 1), 1.0);
      assert x * Power(x, n - 1) == Times(x, Power(x, n - 1));
    }
  }

  /** Each refusal in a row makes the next one wait half as long again, up to ten times the base delay of its
  priority, 200 ms for a low one and 100 ms otherwise. */
  lemma {:induction false} RefusalsInARow(p: Provider, events: seq<Event>, priority: Priority, now: real)
    requires WithinCap(p) && AllRefused(p, events)
    ensures var q := AfterEvents(p, events);
            && q.throttle.multiplier == Least(Times(p.throttle.multiplier, Power(1.5, |events|)), 10.0)
            && (!Check(q, priority, now).1 && !priority.Critical? ==>
                  Check(q, priority, now).2 ==
                  (if priority.Low? then 200.0 else 100.0) *
                  Least(Times(p.throttle.multiplier, Power(1.5, |events|)), 10.0))
    decreases |events|
  {
    var m := p.throttle.multiplier;
    if events == [] {
    } else {
      var q, n := Next(p, events[0]), |events| - 1;
      PowerAtLeastOne(1.5, n);
      CappedGrowth(m, Power(1.5, n));
      RefusalsInARow(q, events[1..], priority, now);
    }
  }

  /** Each success in a row takes a tenth off the multiplier, down to 1. */
  lemma {:induction false} SuccessesInARow(p: Provider, events: seq<Event>)
    requires p.throttle.multiplier >= 1.0 && forall e :: e in events ==> e.Succeeded?
    ensures AfterEvents(p, events).throttle.multiplier ==
            Greatest(1.0, Times(p.throttle.multiplier, Power(0.9, |events|)))
    decreases |events|
  {
    if events == [] {
    } else {
      assert events[0] in events;
      SuccessesInARow(Next(p, events[0]), events[1..]);
      FlooredDecay(p.throttle.multiplier, |events| - 1);
    }
  }

  lemma {:induction false} DecayBelowOne(n: nat)
    ensures 0.0 <= Power(0.9, n) <= 1.0
  {
    if n == 0 {
    } else {
      DecayBelowOne(n - 1);
    }
  }

  lemma FlooredDecay(m: real, n: nat)
    requires m >= 1.0
    ensures Greatest(1.0, Times(Greatest(1.0, m * 0.9), Power(0.9, n))) == Greatest(1.0, Times(m, Power(0.9, n + 1)))
  {
    var x := Power(0.9, n);
    DecayBelowOne(n);
    assert Times(m, 0.9 * x) == Times(m * 0.9, x);
    if m * 0.9 < 1.0 {
      TimesRises(x, 1.0, m * 0.9);
      assert Times(x, m * 0.9) == Times(m * 0.9, x);
    }
  }

  // ---------- The cap on the multiplier ----------

  predicate WithinCap(p: Provider) { 1.0 <= p.throttle.multiplier <= MULTIPLIER_MAX }

  /** A failure recorded while the multiplier is above 25/3. */
  predicate LateFailure(p: Provider, e: Event) { e.Failed? && p.throttle.multiplier * 6.0 > 50.0 }

  predicate AlwaysWithinCap(p: Provider, events: seq<Event>)
    decreases |events|
  {
    WithinCap(p) && (events == [] || AlwaysWithinCap(Next(p, events[0]), events[1..]))
  }

  predicate NoLateFailure(p: Provider, events: seq<Event>)
    decreases |events|
  {
    events == [] || (!LateFailure(p, events[0]) && NoLateFailure(Next(p, events[0]), events[1..]))
  }

  /** Recorded failures ignore the cap: one step leaves it exactly by a failure above 25/3. */
  lemma CapLeftIff(p: Provider, e: Event)
    requires WithinCap(p)
    ensures WithinCap(Next(p, e)) <==> !LateFailure(p, e)
  {
  }

  /** The multiplier stays within its cap throughout a run exactly when no failure is recorded above 25/3. */
  lemma {:induction false} CapHoldsIff(p: Provider, events: seq<Event>)
    requires WithinCap(p)
    ensures AlwaysWithinCap(p, events) <==> NoLateFailure(p, events)
    decreases |events|
  {
    if events == [] {
    } else {
      CapLeftIff(p, events[0]);
      if !LateFailure(p, events[0]) {
        CapHoldsIff(Next(p, events[0]), events[1..]);
      }
    }
  }

  lemma {:induction false} GrowthIsUnbounded(n: nat)
    ensures Growth(n) >= 1.0 + 0.2 * n as real
  {
    if n == 0 {
    } else {
      GrowthIsUnbounded(n - 1);
    }
  }

  lemma GrowthByFour(n: nat)
    ensures Growth(n + 4) == 2.0736 * Growth(n)
  {
    assert Growth(n + 2) == 1.44 * Growth(n);
    assert Growth(n + 4) == 1.44 * Growth(n + 2);
  }

  lemma {:induction false} GrowthRises(m: nat, n: nat)
    requires m <= n
    ensures Growth(m) <= Growth(n)
    decreases n
  {
    if m == n {
    } else {
      GrowthRises(m, n - 1);
    }
  }

  /** Twelve failures are within a factor of ten, thirteen are not. */
  lemma GrowthBeyondTen(n: nat)
    ensures Growth(n) > 10.0 <==> n >= 13
  {
    var m: nat := 0;
    GrowthByFour(m);
    GrowthByFour(m + 4);
    GrowthByFour(m + 8);
    assert Growth(m + 13) == 1.2 * Growth(m + 12);
    if n >= 13 {
      GrowthRises(m + 13, n);
    } else {
      GrowthRises(n, m + 12);
    }
  }

  /** `n` failures in a row multiply the multiplier by exactly 1.2 to the power of `n`, without any bound. */
  lemma {:induction false} FailuresCompound(p: Provider, n: nat)
    ensures var m := AfterEvents(p, seq(n, _ => Failed)).throttle.multiplier;
            m == p.throttle.multiplier * Growth(n) &&
            (Calm(p.throttle) ==> m >= p.throttle.multiplier * (1.0 + 0.2 * n as real))
    decreases n
  {
    GrowthIsUnbounded(n);
    if n == 0 {
    } else {
      var events := seq(n, _ => Failed);
      assert events[1..] == seq(n - 1, _ => Failed);
      FailuresCompound(Next(p, Failed), n - 1);
      assert AfterEvents(p, events) == AfterEvents(Next(p, Failed), seq(n - 1, _ => Failed));
    }
    if Calm(p.throttle) {
      TimesRises(p.throttle.multiplier, Growth(n), 1.0 + 0.2 * n as real);
    }
  }

  /** A newly registered provider is beyond its cap after thirteen failures in a row, and not before. */
  lemma CapLeftAfterThirteen(rpm: nat, tpm: int, dailyLimit: real, start: real, n: nat)
    ensures var after := AfterEvents(Registered(rpm, tpm, dailyLimit, start), seq(n, _ => Failed));
            after.throttle.multiplier > MULTIPLIER_MAX <==> n >= 13
  {
    FailuresCompound(Registered(rpm, tpm, dailyLimit, start), n);
    GrowthBeyondTen(n);
  }
}
