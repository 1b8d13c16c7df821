/** Per-tenant quotas (src/turboserve/gateway/limits.py): token buckets that refill lazily and
    may be overdrawn, and the limiter that charges two of them per request. */
module Limits {
  import opened Prelude

  // ---- a bucket as a value ------------------------------------------------------------------

  datatype RawBucket = Bucket(capacity: real, rate: real, level: real, updated: real)

  type Bucket = b: RawBucket | b.capacity > 0.0 && b.rate > 0.0 witness Bucket(1.0, 1.0, 1.0, 0.0)

  /** Allowance earned in `elapsed` seconds. */
  function Flow(rate: real, elapsed: real): real { elapsed * rate }

  function Refill(b: Bucket, now: real): (r: Bucket)
    ensures r.capacity == b.capacity && r.rate == b.rate
  {
    if now > b.updated
    then b.(level := Min(b.capacity, b.level + Flow(b.rate, now - b.updated)), updated := now)
    else b
  }

  function LevelAt(b: Bucket, now: real): real { Refill(b, now).level }

  function Charge(b: Bucket, amount: real, now: real): (r: Bucket)
    ensures r.capacity == b.capacity && r.rate == b.rate
  {
    var f := Refill(b, now); f.(level := f.level - amount)
  }

  /** How long until the bucket can pay `amount`, if nobody else draws on it. */
  function RetryAfter(b: Bucket, amount: real, now: real): (w: real)
    ensures w >= 0.0
  {
    var deficit := amount - LevelAt(b, now);
    if deficit <= 0.0 then 0.0 else deficit / b.rate
  }

  /** The slot count after taking one; `None` where the limit is reached. */
  function TakeSlot(limit: Option<nat>, inFlight: nat): Option<nat> {
    if limit.Some? && inFlight >= limit.value then None else Some(inFlight + 1)
  }

  /** The slot count after giving one back; it stays at zero when there is none. */
  function GiveSlot(inFlight: nat): nat { if inFlight > 0 then inFlight - 1 else 0 }

  /** A slot taken can be given back, and leaves the count as it was. */
  lemma SlotRoundTrip(limit: Option<nat>, inFlight: nat)
    requires TakeSlot(limit, inFlight).Some?
    ensures GiveSlot(TakeSlot(limit, inFlight).value) == inFlight
    ensures limit.Some? ==> TakeSlot(limit, inFlight).value <= limit.value
  {
  }

  /** A `Retry-After` value: whole seconds, rounded up, at least one. */
  function RetryAfterHeader(seconds: real): (n: int)
    ensures n >= 1 && n as real >= seconds
    ensures n > 1 ==> (n - 1) as real < seconds
  {
    if Ceil(seconds) < 1 then 1 else Ceil(seconds)
  }

  // ---- a bucket as an object -------------------------------------------------------------------

  class TokenBucket {
    const capacity: real
    const rate: real
    var level: real
    var updated: real

    ghost predicate Valid() { capacity > 0.0 && rate > 0.0 }

    ghost function Value(): Bucket
      requires Valid()
      reads this
    {
      Bucket(capacity, rate, level, updated)
    }

    constructor (capacity: real, rate: real, level: Option<real>, now: real)
      requires capacity > 0.0 && rate > 0.0
      ensures Valid() && Value() == Bucket(capacity, rate, if level.Some? then level.value else capacity, now)
    {
      this.capacity, this.rate, this.updated := capacity, rate, now;
      this.level := if level.Some? then level.value else capacity;
    }

    method RefillTo(now: real)
      requires Valid()
      modifies this
      ensures Valid() && Value() == Refill(old(Value()), now)
    {
      var elapsed := now - updated;
      if elapsed > 0.0 {
        level := Min(capacity, level + elapsed * rate);
        updated := now;
      }
    }

    /** Charges only what the refilled level covers; a refusal charges nothing. */
    method TryAcquire(amount: real, now: real) returns (ok: bool)
      requires Valid() && amount >= 0.0
      modifies this
      ensures Valid() && ok == (LevelAt(old(Value()), now) >= amount)
      ensures Value() == if ok then Charge(old(Value()), amount, now) else Refill(old(Value()), now)
    {
      RefillTo(now);
      if level < amount {
        return false;
      }
      level := level - amount;
      return true;
    }

    /** An unconditional charge, below zero if need be. */
    method Debit(amount: real, now: real)
      requires Valid() && amount >= 0.0
      modifies this
      ensures Valid() && Value() == Charge(old(Value()), amount, now)
    {
      RefillTo(now);
      level := level - amount;
    }

    /** Undoes a charge, up to a full bucket. */
    method Refund(amount: real, now: real)
      requires Valid() && amount >= 0.0
      modifies this
      ensures Valid() && level == Min(capacity, LevelAt(old(Value()), now) + amount)
      ensures Value() == Refill(old(Value()), now).(level := level)
    {
      RefillTo(now);
      level := Min(capacity, level + amount);
    }

    method Wait(amount: real, now: real) returns (seconds: real)
      requires Valid()
      modifies this
      ensures Valid() && Value() == Refill(old(Value()), now)
      ensures seconds == RetryAfter(old(Value()), amount, now)
    {
      RefillTo(now);
      var deficit := amount - level;
      if deficit <= 0.0 {
        return 0.0;
      }
      return deficit / rate;
    }
  }

  // ---- refill laws -----------------------------------------------------------------------------

  lemma FlowAdds(rate: real, a: real, b: real)
    requires rate > 0.0
    ensures Flow(rate, a + b) == Flow(rate, a) + Flow(rate, b)
    ensures b >= 0.0 ==> Flow(rate, b) >= 0.0
  {
  }

  /** Looking at a bucket earlier changes nothing about what it holds later. */
  lemma RefillTwice(b: Bucket, s: real, t: real)
    requires s <= t
    ensures Refill(Refill(b, s), t) == Refill(b, t)
  {
    if b.updated < s < t {
      FlowAdds(b.rate, s - b.updated, t - s);
      assert s - b.updated + (t - s) == t - b.updated;
    }
  }

  /** Between two looks the level grows, by no more than the sustained rate. */
  lemma LevelGrows(b: Bucket, s: real, t: real)
    requires b.updated <= s <= t && b.level <= b.capacity
    ensures LevelAt(b, s) <= LevelAt(b, t) <= LevelAt(b, s) + Flow(b.rate, t - s)
    ensures LevelAt(b, t) <= b.capacity
  {
    FlowAdds(b.rate, s - b.updated, t - s);
    FlowAdds(b.rate, 0.0, s - b.updated);
    assert s - b.updated + (t - s) == t - b.updated;
    assert Flow(b.rate, 0.0) == 0.0;
  }

  lemma FlowReaches(rate: real, deficit: real, elapsed: real)
    requires rate > 0.0 && deficit > 0.0
    ensures Flow(rate, elapsed) >= deficit <==> elapsed >= deficit / rate
  {
    var w := deficit / rate;
    assert w * rate == deficit;
    if elapsed >= w {
      assert (elapsed - w) * rate >= 0.0;
    } else {
      assert (w - elapsed) * rate > 0.0;
    }
  }

  /** A refusing bucket refuses at every time before the stated wait and passes from then on --
      provided the amount fits the bucket at all; otherwise it refuses for ever. */
  lemma RetryAfterExact(b: Bucket, amount: real, now: real, t: real)
    requires b.updated <= now <= t && LevelAt(b, now) < amount
    ensures amount <= b.capacity ==> (LevelAt(b, t) >= amount <==> t >= now + RetryAfter(b, amount, now))
    ensures amount > b.capacity ==> LevelAt(b, t) < amount
  {
    RefillTwice(b, now, t);
    var f := Refill(b, now);
    if t > now {
      FlowReaches(b.rate, amount - f.level, t - now);
    } else {
      assert RetryAfter(b, amount, now) > 0.0 by { FlowReaches(b.rate, amount - f.level, 0.0); }
    }
  }

  /** The header's whole seconds are enough whenever the wait itself is. */
  lemma HeaderSuffices(b: Bucket, amount: real, now: real)
    requires b.updated <= now && LevelAt(b, now) < amount <= b.capacity
    ensures LevelAt(b, now + RetryAfterHeader(RetryAfter(b, amount, now)) as real) >= amount
  {
    RetryAfterExact(b, amount, now, now + RetryAfterHeader(RetryAfter(b, amount, now)) as real);
  }

  // ---- the limiter as a value ----------------------------------------------------------------------

  datatype Limiter = Limiter(rpm: Option<Bucket>, tpm: Option<Bucket>, admitted: nat, rejected: nat, tokensCharged: int)

  datatype LimitName = Rpm | Tpm

  datatype Refusal = Refusal(limit: LimitName, retryAfter: real)

  function Touch(b: Option<Bucket>, now: real): Option<Bucket> {
    if b.Some? then Some(Refill(b.value, now)) else None
  }

  /** Whether the request quota refuses at `now`. */
  predicate RpmRefuses(l: Limiter, now: real) { l.rpm.Some? && LevelAt(l.rpm.value, now) < 1.0 }

  /** Whether the token quota refuses a prompt of this size at `now`. */
  predicate TpmRefuses(l: Limiter, prompt: int, now: real) {
    l.tpm.Some? && prompt > 0 && LevelAt(l.tpm.value, now) < prompt as real
  }

  /** Admit one request or refuse it, debiting only when both quotas pass. */
  function Check(l: Limiter, prompt: int, now: real): (Limiter, Option<Refusal>) {
    if RpmRefuses(l, now) then
      (l.(rpm := Touch(l.rpm, now), rejected := l.rejected + 1),
       Some(Refusal(Rpm, RetryAfter(l.rpm.value, 1.0, now))))
    else if TpmRefuses(l, prompt, now) then
      (l.(rpm := Touch(l.rpm, now), tpm := Touch(l.tpm, now), rejected := l.rejected + 1),
       Some(Refusal(Tpm, RetryAfter(l.tpm.value, prompt as real, now))))
    else
      var tokens := l.tpm.Some? && prompt > 0;
      (l.(rpm := if l.rpm.Some? then Some(Charge(l.rpm.value, 1.0, now)) else None,
          tpm := if tokens then Some(Charge(l.tpm.value, prompt as real, now)) else l.tpm,
          tokensCharged := if tokens then l.tokensCharged + prompt else l.tokensCharged,
          admitted := l.admitted + 1),
       None)
  }

  /** Charge tokens produced after admission, unconditionally. */
  function Complete(l: Limiter, tokens: int, now: real): Limiter {
    if tokens <= 0 || l.tpm.None? then l
    else l.(tpm := Some(Charge(l.tpm.value, tokens as real, now)), tokensCharged := l.tokensCharged + tokens)
  }

  /** A new tenant's limiter; the burst is the whole minute's budget. */
  function NewLimiter(rpm: Option<nat>, tpm: Option<nat>, now: real): Limiter
    requires (rpm.Some? ==> rpm.value >= 1) && (tpm.Some? ==> tpm.value >= 1)
  {
    Limiter(PerMinute(rpm, now), PerMinute(tpm, now), 0, 0, 0)
  }

  function PerMinute(limit: Option<nat>, now: real): Option<Bucket>
    requires limit.Some? ==> limit.value >= 1
  {
    if limit.None? then None
    else Some(Bucket(limit.value as real, limit.value as real / 60.0, limit.value as real, now))
  }

  // ---- the limiter as an object ---------------------------------------------------------------------

  class TenantLimiter {
    const rpm: TokenBucket?
    const tpm: TokenBucket?
    const maxConcurrency: Option<nat>
    var inFlight: nat
    var admitted: nat
    var rejected: nat
    var tokensCharged: int

    ghost predicate Valid() {
      && (rpm != null ==> rpm.Valid() && rpm != tpm)
      && (tpm != null ==> tpm.Valid())
    }

    ghost function Value(): Limiter
      requires Valid()
      reads this, rpm, tpm
    {
      Limiter(if rpm == null then None else Some(rpm.Value()),
              if tpm == null then None else Some(tpm.Value()), admitted, rejected, tokensCharged)
    }

    constructor (rpmLimit: Option<nat>, tpmLimit: Option<nat>, maxConcurrency: Option<nat>, now: real)
      requires (rpmLimit.Some? ==> rpmLimit.value >= 1) && (tpmLimit.Some? ==> tpmLimit.value >= 1)
      ensures Valid() && Value() == NewLimiter(rpmLimit, tpmLimit, now)
      ensures this.maxConcurrency == maxConcurrency && inFlight == 0
    {
      var r: TokenBucket? := null;
      var t: TokenBucket? := null;
      if rpmLimit.Some? { r := new TokenBucket(rpmLimit.value as real, rpmLimit.value as real / 60.0, None, now); }
      if tpmLimit.Some? { t := new TokenBucket(tpmLimit.value as real, tpmLimit.value as real / 60.0, None, now); }
      this.rpm, this.tpm, this.maxConcurrency := r, t, maxConcurrency;
      inFlight, admitted, rejected, tokensCharged := 0, 0, 0, 0;
    }

    method CheckRequest(prompt: int, now: real) returns (refusal: Option<Refusal>)
      requires Valid()
      modifies this`admitted, this`rejected, this`tokensCharged, rpm, tpm
      ensures Valid() && Value() == Check(old(Value()), prompt, now).0
      ensures refusal == Check(old(Value()), prompt, now).1
    {
      hide Flow;
      if rpm != null {
        RefillTwice(old(rpm.Value()), now, now);
        rpm.RefillTo(now);
        if rpm.level < 1.0 {
          rejected := rejected + 1;
          var seconds := rpm.Wait(1.0, now);
          return Some(Refusal(Rpm, seconds));
        }
      }
      if tpm != null && prompt > 0 {
        RefillTwice(old(tpm.Value()), now, now);
        tpm.RefillTo(now);
        if tpm.level < prompt as real {
          rejected := rejected + 1;
          var seconds := tpm.Wait(prompt as real, now);
          return Some(Refusal(Tpm, seconds));
        }
      }
      if rpm != null {
        rpm.Debit(1.0, now);
      }
      if tpm != null && prompt > 0 {
        tpm.Debit(prompt as real, now);
        tokensCharged := tokensCharged + prompt;
      }
      admitted := admitted + 1;
      return None;
    }

    method ChargeTokens(tokens: int, now: real)
      requires Valid()
      modifies this`tokensCharged, tpm
      ensures Valid() && Value() == Complete(old(Value()), tokens, now)
    {
      if tokens <= 0 || tpm == null {
        return;
      }
      tpm.Debit(tokens as real, now);
      tokensCharged := tokensCharged + tokens;
    }

    /** Counts one more request in, below the limit. */
    method TryAcquireSlot() returns (ok: bool)
      modifies this`inFlight
      ensures ok <==> TakeSlot(maxConcurrency, old(inFlight)).Some?
      ensures inFlight == if ok then TakeSlot(maxConcurrency, old(inFlight)).value else old(inFlight)
    {
      if maxConcurrency.Some? && inFlight >= maxConcurrency.value {
        return false;
      }
      inFlight := inFlight + 1;
      return true;
    }

    /** Counts one request out. */
    method ReleaseSlot()
      modifies this`inFlight
      ensures inFlight == GiveSlot(old(inFlight))
    {
      if inFlight > 0 {
        inFlight := inFlight - 1;
      }
    }
  }

  // ---- runs --------------------------------------------------------------------------------------------

  datatype Op = Request(prompt: int, now: real) | Completion(tokens: int, now: real)

  function Apply(l: Limiter, op: Op): Limiter {
    match op
    case Request(prompt, now) => Check(l, prompt, now).0
    case Completion(tokens, now) => Complete(l, tokens, now)
  }

  function Run(l: Limiter, ops: seq<Op>): Limiter {
    if ops == [] then l else Apply(Run(l, ops[..|ops| - 1]), ops[|ops| - 1])
  }

  /** Stamps never go back, and none precedes `start`. */
  ghost predicate InOrder(start: real, ops: seq<Op>) {
    ops == [] || (InOrder(start, ops[..|ops| - 1]) && Clock(start, ops[..|ops| - 1]) <= ops[|ops| - 1].now)
  }

  /** The time of the last operation. */
  function Clock(start: real, ops: seq<Op>): real { if ops == [] then start else ops[|ops| - 1].now }

  /** A request bucket that is never overdrawn and never ahead of the clock. */
  ghost predicate RpmSound(b: Bucket, now: real) { 0.0 <= b.level <= b.capacity && b.updated <= now }

  ghost predicate TpmSound(b: Bucket, now: real) { b.level <= b.capacity && b.updated <= now }

  ghost predicate Sound(l: Limiter, now: real) {
    && (l.rpm.Some? ==> RpmSound(l.rpm.value, now))
    && (l.tpm.Some? ==> TpmSound(l.tpm.value, now))
  }

  lemma RefillSound(b: Bucket, s: real, t: real)
    requires s <= t && TpmSound(b, s)
    ensures TpmSound(Refill(b, t), t)
    ensures b.level >= 0.0 ==> RpmSound(Refill(b, t), t)
  {
    LevelGrows(b, b.updated, if b.updated <= t then t else b.updated);
  }

  lemma ApplySound(l: Limiter, s: real, op: Op)
    requires Sound(l, s) && s <= op.now
    ensures Sound(Apply(l, op), op.now)
  {
    hide Flow, Refill;
    if l.rpm.Some? { RefillSound(l.rpm.value, s, op.now); }
    if l.tpm.Some? { RefillSound(l.tpm.value, s, op.now); }
  }

  /** Quotas never change. */
  ghost predicate SameQuotas(a: Limiter, b: Limiter) {
    && a.rpm.Some? == b.rpm.Some? && a.tpm.Some? == b.tpm.Some?
    && (a.rpm.Some? ==> a.rpm.value.capacity == b.rpm.value.capacity && a.rpm.value.rate == b.rpm.value.rate)
    && (a.tpm.Some? ==> a.tpm.value.capacity == b.tpm.value.capacity && a.tpm.value.rate == b.tpm.value.rate)
  }

  lemma {:induction false} RunSound(l: Limiter, start: real, ops: seq<Op>)
    requires Sound(l, start) && InOrder(start, ops)
    ensures Sound(Run(l, ops), Clock(start, ops)) && SameQuotas(l, Run(l, ops))
  {
    hide Refill, Flow;
    if ops != [] {
      RunSound(l, start, ops[..|ops| - 1]);
      ApplySound(Run(l, ops[..|ops| - 1]), Clock(start, ops[..|ops| - 1]), ops[|ops| - 1]);
    }
  }

  // ---- request rate --------------------------------------------------------------------------------------

  /** What is left in the request bucket plus what was admitted never exceeds the burst plus
      what flowed in. */
  lemma {:induction false} RequestBudget(l: Limiter, start: real, ops: seq<Op>)
    requires l.rpm.Some? && Sound(l, start) && InOrder(start, ops)
    ensures var l' := Run(l, ops);
            var b := l.rpm.value;
            && l'.rpm.Some?
            && LevelAt(l'.rpm.value, Clock(start, ops)) + (l'.admitted - l.admitted) as real
               <= b.capacity + Flow(b.rate, Clock(start, ops) - start)
  {
    hide Flow;
    var b := l.rpm.value;
    RunSound(l, start, ops);
    if ops == [] {
      LevelGrows(b, start, start);
      assert Flow(b.rate, 0.0) == 0.0 by { FlowAdds(b.rate, 0.0, 0.0); }
    } else {
      var before, op := ops[..|ops| - 1], ops[|ops| - 1];
      var s, m := Clock(start, before), Run(l, before);
      RequestBudget(l, start, before);
      RunSound(l, start, before);
      RequestBudgetStep(m, s, op);
      FlowAdds(b.rate, s - start, op.now - s);
      assert s - start + (op.now - s) == op.now - start;
    }
  }

  lemma RequestBudgetStep(m: Limiter, s: real, op: Op)
    requires m.rpm.Some? && Sound(m, s) && s <= op.now
    ensures var m' := Apply(m, op);
            && m'.rpm.Some? && m'.admitted >= m.admitted
            && LevelAt(m'.rpm.value, op.now) + (m'.admitted - m.admitted) as real
               <= LevelAt(m.rpm.value, s) + Flow(m.rpm.value.rate, op.now - s)
  {
    hide Flow;
    LevelGrows(m.rpm.value, s, op.now);
    RefillTwice(m.rpm.value, op.now, op.now);
  }

  /** Admissions over any stretch of any run, from operation `i` to operation `j`, are at most
      the burst plus the sustained rate times its duration: rpm + rpm/60 * d. */
  lemma RequestRateConforms(rpm: nat, tpm: Option<nat>, start: real, ops: seq<Op>, i: nat, j: nat)
    requires rpm >= 1 && (tpm.Some? ==> tpm.value >= 1) && InOrder(start, ops) && i < j <= |ops|
    ensures var l := NewLimiter(Some(rpm), tpm, start);
            var d := ops[j - 1].now - ops[i].now;
            (Run(l, ops[..j]).admitted - Run(l, ops[..i]).admitted) as real
            <= rpm as real + Flow(rpm as real / 60.0, d)
  {
    hide Flow, Refill, Apply;
    var l := NewLimiter(Some(rpm), tpm, start);
    var first, last := ops[i].now, ops[j - 1].now;
    var m, stretch := Run(l, ops[..i]), ops[i..j];
    assert Sound(m, first) && SameQuotas(l, m) by {
      InOrderPrefix(start, ops, i);
      RunSound(l, start, ops[..i]);
      SoundLater(m, Clock(start, ops[..i]), first);
    }
    assert InOrder(first, stretch) by { InOrderSuffix(start, ops, i, j); }
    assert Run(l, ops[..j]) == Run(m, stretch) by {
      RunSplits(l, ops[..j], i);
      assert ops[..j][..i] == ops[..i] && ops[..j][i..] == stretch;
    }
    assert Clock(first, stretch) == last;
    StretchConforms(m, first, stretch);
  }

  /** The same for any sound limiter and any run from it. */
  lemma StretchConforms(m: Limiter, start: real, ops: seq<Op>)
    requires m.rpm.Some? && Sound(m, start) && InOrder(start, ops)
    ensures (Run(m, ops).admitted - m.admitted) as real
         <= m.rpm.value.capacity + Flow(m.rpm.value.rate, Clock(start, ops) - start)
  {
    hide Flow, Refill, Apply;
    RequestBudget(m, start, ops);
    RunSound(m, start, ops);
    NonNegativeLevel(Run(m, ops).rpm.value, Clock(start, ops));
  }

  lemma NonNegativeLevel(b: Bucket, now: real)
    requires RpmSound(b, now)
    ensures LevelAt(b, now) >= 0.0
  {
    LevelGrows(b, b.updated, now);
  }

  lemma SoundLater(l: Limiter, s: real, t: real)
    requires Sound(l, s) && s <= t
    ensures Sound(l, t)
  {
  }

  lemma {:induction false} RunSplits(l: Limiter, ops: seq<Op>, i: nat)
    requires i <= |ops|
    ensures Run(l, ops) == Run(Run(l, ops[..i]), ops[i..])
    decreases |ops|
  {
    hide Apply;
    if i == |ops| {
      assert ops[..i] == ops && ops[i..] == [];
    } else {
      var before := ops[..|ops| - 1];
      RunSplits(l, before, i);
      assert before[..i] == ops[..i] && before[i..] == ops[i..][..|ops| - i - 1];
    }
  }

  lemma {:induction false} InOrderPrefix(start: real, ops: seq<Op>, i: nat)
    requires InOrder(start, ops) && i <= |ops|
    ensures InOrder(start, ops[..i])
    ensures i < |ops| ==> Clock(start, ops[..i]) <= ops[i].now
    decreases |ops|
  {
    if i == |ops| {
      assert ops[..i] == ops;
    } else if i < |ops| - 1 {
      InOrderPrefix(start, ops[..|ops| - 1], i);
      assert ops[..|ops| - 1][..i] == ops[..i];
    }
  }

  lemma {:induction false} InOrderSuffix(start: real, ops: seq<Op>, i: nat, j: nat)
    requires InOrder(start, ops) && i < j <= |ops|
    ensures InOrder(ops[i].now, ops[i..j])
    decreases j
  {
    InOrderPrefix(start, ops, j - 1);
    var s := ops[i..j];
    assert s[..|s| - 1] == ops[i..j - 1];
    if i == j - 1 {
      assert s[..|s| - 1] == [];
      assert InOrder(ops[i].now, []);
    } else {
      InOrderSuffix(start, ops, i, j - 1);
      assert Clock(ops[i].now, ops[i..j - 1]) == ops[j - 2].now == Clock(start, ops[..j - 1]);
    }
  }

  // ---- token rate ------------------------------------------------------------------------------------------

  lemma {:induction false} TokenBudget(l: Limiter, start: real, ops: seq<Op>)
    requires l.tpm.Some? && Sound(l, start) && InOrder(start, ops)
    ensures var l' := Run(l, ops);
            var b := l.tpm.value;
            && l'.tpm.Some?
            && LevelAt(l'.tpm.value, Clock(start, ops)) + (l'.tokensCharged - l.tokensCharged) as real
               <= b.capacity + Flow(b.rate, Clock(start, ops) - start)
  {
    hide Flow;
    var b := l.tpm.value;
    RunSound(l, start, ops);
    if ops == [] {
      LevelGrows(b, start, start);
      assert Flow(b.rate, 0.0) == 0.0 by { FlowAdds(b.rate, 0.0, 0.0); }
    } else {
      var before, op := ops[..|ops| - 1], ops[|ops| - 1];
      var s, m := Clock(start, before), Run(l, before);
      TokenBudget(l, start, before);
      RunSound(l, start, before);
      TokenBudgetStep(m, s, op);
      FlowAdds(b.rate, s - start, op.now - s);
      assert s - start + (op.now - s) == op.now - start;
    }
  }

  lemma TokenBudgetStep(m: Limiter, s: real, op: Op)
    requires m.tpm.Some? && Sound(m, s) && s <= op.now
    ensures var m' := Apply(m, op);
            && m'.tpm.Some?
            && LevelAt(m'.tpm.value, op.now) + (m'.tokensCharged - m.tokensCharged) as real
               <= LevelAt(m.tpm.value, s) + Flow(m.tpm.value.rate, op.now - s)
  {
    hide Flow;
    LevelGrows(m.tpm.value, s, op.now);
    RefillTwice(m.tpm.value, op.now, op.now);
  }

  /** Whenever a request with a prompt is admitted, all tokens ever charged -- completions that
      overdrew the bucket included -- are at most tpm + tpm/60 * elapsed. */
  lemma TokenRateConforms(rpm: Option<nat>, tpm: nat, start: real, ops: seq<Op>)
    requires (rpm.Some? ==> rpm.value >= 1) && tpm >= 1 && InOrder(start, ops) && ops != []
    requires var last := ops[|ops| - 1];
             && last.Request? && last.prompt > 0
             && Check(Run(NewLimiter(rpm, Some(tpm), start), ops[..|ops| - 1]), last.prompt, last.now).1.None?
    ensures var now := ops[|ops| - 1].now;
            Run(NewLimiter(rpm, Some(tpm), start), ops).tokensCharged as real
            <= tpm as real + Flow(tpm as real / 60.0, now - start)
  {
    hide Flow, Refill;
    var l := NewLimiter(rpm, Some(tpm), start);
    var last := ops[|ops| - 1];
    TokenBudget(l, start, ops);
    AdmissionLeavesTokens(Run(l, ops[..|ops| - 1]), last.prompt, last.now);
    assert Run(l, ops) == Check(Run(l, ops[..|ops| - 1]), last.prompt, last.now).0;
  }

  lemma AdmissionLeavesTokens(l: Limiter, prompt: int, now: real)
    requires l.tpm.Some? && prompt > 0 && Check(l, prompt, now).1.None?
    ensures LevelAt(Check(l, prompt, now).0.tpm.value, now) >= 0.0
  {
    RefillTwice(l.tpm.value, now, now);
  }

  // ---- conforming traffic is admitted -------------------------------------------------------------------------

  /** From operation `i` on, `now` included, one more request is too many: rpm + rpm/60 * d. */
  ghost predicate TooManyRequests(l: Limiter, ops: seq<Op>, i: nat, rpm: nat, now: real) {
    i < |ops| && (Run(l, ops).admitted - Run(l, ops[..i]).admitted + 1) as real
                 > rpm as real + (now - ops[i].now) * (rpm as real / 60.0)
  }

  /** From operation `i` on, `now` included, `prompt` more tokens are too many: tpm + tpm/60 * d. */
  ghost predicate TooManyTokens(l: Limiter, ops: seq<Op>, i: nat, tpm: nat, prompt: int, now: real) {
    i < |ops| && (Run(l, ops).tokensCharged - Run(l, ops[..i]).tokensCharged + prompt) as real
                 > tpm as real + (now - ops[i].now) * (tpm as real / 60.0)
  }

  /** How the request bucket and the admissions move over one operation. */
  lemma RequestStep(m: Limiter, s: real, op: Op, t: real)
    requires m.rpm.Some? && Sound(m, s) && s <= op.now <= t
    ensures var b, m' := m.rpm.value, Apply(m, op);
            && m'.rpm.Some? && m'.rpm.value.capacity == b.capacity && m'.rpm.value.rate == b.rate
            && m'.admitted >= m.admitted
            && LevelAt(m'.rpm.value, t)
               == (if m'.admitted == m.admitted then LevelAt(b, t)
                   else Min(b.capacity, LevelAt(b, op.now) - 1.0 + Flow(b.rate, t - op.now)))
            && m'.admitted <= m.admitted + 1
  {
    hide Flow;
    var b := m.rpm.value;
    RefillTwice(b, op.now, t);
    FlowAdds(b.rate, 0.0, t - op.now);
    assert Flow(b.rate, 0.0) == 0.0 by { FlowAdds(b.rate, 0.0, 0.0); }
    LevelGrows(b, if b.updated <= op.now then op.now else b.updated, t);
  }

  /** A request bucket that started full is full, or short by what one stretch took over its inflow. */
  lemma {:induction false} RequestLevel(l: Limiter, start: real, ops: seq<Op>, t: real) returns (i: Option<nat>)
    requires l.rpm.Some? && l.rpm.value.level == l.rpm.value.capacity && Sound(l, start)
    requires InOrder(start, ops) && Clock(start, ops) <= t
    ensures Run(l, ops).rpm.Some?
    ensures var b, l' := l.rpm.value, Run(l, ops);
            if i.None? then LevelAt(l'.rpm.value, t) == b.capacity
            else
              i.value < |ops|
              && LevelAt(l'.rpm.value, t) == b.capacity + Flow(b.rate, t - ops[i.value].now)
                                             - (l'.admitted - Run(l, ops[..i.value]).admitted) as real
  {
    hide Flow, Refill, Apply;
    var b := l.rpm.value;
    RunSound(l, start, ops);
    if ops == [] {
      i := None;
      LevelGrows(b, start, t);
      LevelGrows(b, b.updated, t);
      NotPast(b);
    } else {
      var n := |ops| - 1;
      var before, op := ops[..n], ops[n];
      var m := Run(l, before);
      RunSound(l, start, before);
      RequestStep(m, Clock(start, before), op, t);
      if Run(l, ops).admitted == m.admitted {
        i := RequestLevel(l, start, before, t);
        if i.Some? { assert before[..i.value] == ops[..i.value]; }
      } else {
        i := RequestLevel(l, start, before, op.now);
        if i.Some? {
          FlowAdds(b.rate, op.now - ops[i.value].now, t - op.now);
          assert op.now - ops[i.value].now + (t - op.now) == t - ops[i.value].now;
          assert before[..i.value] == ops[..i.value];
        } else {
          i := Some(n);
        }
        if LevelAt(Run(l, ops).rpm.value, t) == b.capacity { i := None; }
      }
    }
  }

  lemma NotPast(b: Bucket)
    ensures LevelAt(b, b.updated) == b.level
  {}

  lemma TokenStep(m: Limiter, s: real, op: Op, t: real)
    requires m.tpm.Some? && Sound(m, s) && s <= op.now <= t
    ensures var b, m' := m.tpm.value, Apply(m, op);
            && m'.tpm.Some? && m'.tpm.value.capacity == b.capacity && m'.tpm.value.rate == b.rate
            && m'.tokensCharged >= m.tokensCharged
            && LevelAt(m'.tpm.value, t)
               == (if m'.tokensCharged == m.tokensCharged then LevelAt(b, t)
                   else Min(b.capacity, LevelAt(b, op.now) - (m'.tokensCharged - m.tokensCharged) as real
                                        + Flow(b.rate, t - op.now)))
  {
    hide Flow;
    var b := m.tpm.value;
    RefillTwice(b, op.now, t);
    assert Flow(b.rate, 0.0) == 0.0 by { FlowAdds(b.rate, 0.0, 0.0); }
    FlowAdds(b.rate, 0.0, t - op.now);
    LevelGrows(b, if b.updated <= op.now then op.now else b.updated, t);
  }

  lemma {:induction false} TokenLevel(l: Limiter, start: real, ops: seq<Op>, t: real) returns (i: Option<nat>)
    requires l.tpm.Some? && l.tpm.value.level == l.tpm.value.capacity && Sound(l, start)
    requires InOrder(start, ops) && Clock(start, ops) <= t
    ensures Run(l, ops).tpm.Some?
    ensures var b, l' := l.tpm.value, Run(l, ops);
            if i.None? then LevelAt(l'.tpm.value, t) == b.capacity
            else
              i.value < |ops|
              && LevelAt(l'.tpm.value, t) == b.capacity + Flow(b.rate, t - ops[i.value].now)
                                             - (l'.tokensCharged - Run(l, ops[..i.value]).tokensCharged) as real
  {
    hide Flow, Refill, Apply;
    var b := l.tpm.value;
    RunSound(l, start, ops);
    if ops == [] {
      i := None;
      LevelGrows(b, start, t);
      LevelGrows(b, b.updated, t);
      NotPast(b);
    } else {
      var n := |ops| - 1;
      var before, op := ops[..n], ops[n];
      var m := Run(l, before);
      RunSound(l, start, before);
      TokenStep(m, Clock(start, before), op, t);
      if Run(l, ops).tokensCharged == m.tokensCharged {
        i := TokenLevel(l, start, before, t);
        if i.Some? { assert before[..i.value] == ops[..i.value]; }
      } else {
        i := TokenLevel(l, start, before, op.now);
        if i.Some? {
          FlowAdds(b.rate, op.now - ops[i.value].now, t - op.now);
          assert op.now - ops[i.value].now + (t - op.now) == t - ops[i.value].now;
          assert before[..i.value] == ops[..i.value];
        } else {
          i := Some(n);
        }
        if LevelAt(Run(l, ops).tpm.value, t) == b.capacity { i := None; }
      }
    }
  }

  /** A run from operation `i` on. */
  lemma Stretch(l: Limiter, start: real, ops: seq<Op>, i: nat)
    requires Sound(l, start) && InOrder(start, ops) && i < |ops|
    ensures var m, rest := Run(l, ops[..i]), ops[i..];
            && Sound(m, ops[i].now) && SameQuotas(l, m) && InOrder(ops[i].now, rest)
            && Run(l, ops) == Run(m, rest) && Clock(ops[i].now, rest) == Clock(start, ops)
            && Sound(Run(l, ops), Clock(start, ops)) && SameQuotas(l, Run(l, ops))
  {
    hide Flow, Refill, Apply;
    RunSound(l, start, ops);
    InOrderPrefix(start, ops, i);
    RunSound(l, start, ops[..i]);
    SoundLater(Run(l, ops[..i]), Clock(start, ops[..i]), ops[i].now);
    InOrderSuffix(start, ops, i, |ops|);
    assert ops[i..|ops|] == ops[i..];
    RunSplits(l, ops, i);
  }

  /** No stretch leaves more in the request bucket than the burst plus its inflow, less what it took. */
  lemma RequestBound(l: Limiter, start: real, ops: seq<Op>, i: nat, t: real)
    requires Sound(l, start) && InOrder(start, ops) && i < |ops| && Clock(start, ops) <= t && l.rpm.Some?
    ensures var l', m := Run(l, ops), Run(l, ops[..i]);
            && l'.rpm.Some?
            && LevelAt(l'.rpm.value, t) + (l'.admitted - m.admitted) as real
               <= l.rpm.value.capacity + Flow(l.rpm.value.rate, t - ops[i].now)
  {
    hide Flow, Refill, Run, InOrder, Clock;
    var first, s := ops[i].now, Clock(start, ops);
    Stretch(l, start, ops, i);
    RequestBudget(Run(l, ops[..i]), first, ops[i..]);
    LevelGrows(Run(l, ops).rpm.value, s, t);
    FlowAdds(l.rpm.value.rate, s - first, t - s);
    assert s - first + (t - s) == t - first;
  }

  lemma TokenBound(l: Limiter, start: real, ops: seq<Op>, i: nat, t: real)
    requires Sound(l, start) && InOrder(start, ops) && i < |ops| && Clock(start, ops) <= t && l.tpm.Some?
    ensures var l', m := Run(l, ops), Run(l, ops[..i]);
            && l'.tpm.Some?
            && LevelAt(l'.tpm.value, t) + (l'.tokensCharged - m.tokensCharged) as real
               <= l.tpm.value.capacity + Flow(l.tpm.value.rate, t - ops[i].now)
  {
    hide Flow, Refill, Run, InOrder, Clock;
    var first, s := ops[i].now, Clock(start, ops);
    Stretch(l, start, ops, i);
    TokenBudget(Run(l, ops[..i]), first, ops[i..]);
    LevelGrows(Run(l, ops).tpm.value, s, t);
    FlowAdds(l.tpm.value.rate, s - first, t - s);
    assert s - first + (t - s) == t - first;
  }

  lemma FreshLimiter(rpm: Option<nat>, tpm: Option<nat>, start: real)
    requires (rpm.Some? ==> rpm.value >= 1) && (tpm.Some? ==> tpm.value >= 1)
    ensures var l := NewLimiter(rpm, tpm, start);
            && Sound(l, start) && l.rpm.Some? == rpm.Some? && l.tpm.Some? == tpm.Some?
            && (rpm.Some? ==> l.rpm.value.level == l.rpm.value.capacity == rpm.value as real
                              && l.rpm.value.rate == rpm.value as real / 60.0)
            && (tpm.Some? ==> l.tpm.value.level == l.tpm.value.capacity == tpm.value as real
                              && l.tpm.value.rate == tpm.value as real / 60.0)
  {}

  lemma RequestsExactly(rpm: Option<nat>, tpm: Option<nat>, start: real, ops: seq<Op>, now: real)
    requires (rpm.Some? ==> rpm.value >= 1) && (tpm.Some? ==> tpm.value >= 1)
    requires InOrder(start, ops) && Clock(start, ops) <= now
    ensures var l := NewLimiter(rpm, tpm, start);
            RpmRefuses(Run(l, ops), now)
            <==> rpm.Some? && exists i: nat :: TooManyRequests(l, ops, i, rpm.value, now)
  {
    hide Refill, Apply, InOrder, Sound, Run;
    var l := NewLimiter(rpm, tpm, start);
    FreshLimiter(rpm, tpm, start);
    RunSound(l, start, ops);
    if rpm.Some? {
      var k := RequestLevel(l, start, ops, now);
      forall i: nat | TooManyRequests(l, ops, i, rpm.value, now) ensures RpmRefuses(Run(l, ops), now) {
        RequestBound(l, start, ops, i, now);
      }
      if RpmRefuses(Run(l, ops), now) { assert TooManyRequests(l, ops, k.value, rpm.value, now); }
    }
  }

  lemma TokensExactly(rpm: Option<nat>, tpm: Option<nat>, start: real, ops: seq<Op>, prompt: int, now: real)
    requires (rpm.Some? ==> rpm.value >= 1) && (tpm.Some? ==> tpm.value >= 1)
    requires InOrder(start, ops) && Clock(start, ops) <= now
    ensures var l := NewLimiter(rpm, tpm, start);
            TpmRefuses(Run(l, ops), prompt, now)
            <==> tpm.Some? && prompt > 0
                 && (prompt > tpm.value || exists i: nat :: TooManyTokens(l, ops, i, tpm.value, prompt, now))
  {
    hide Refill, Apply, InOrder, Sound, Run;
    var l := NewLimiter(rpm, tpm, start);
    FreshLimiter(rpm, tpm, start);
    RunSound(l, start, ops);
    if tpm.Some? && prompt > 0 {
      var k := TokenLevel(l, start, ops, now);
      assert prompt > tpm.value ==> TpmRefuses(Run(l, ops), prompt, now) by { FullAtMost(l, start, ops, now); }
      forall i: nat | TooManyTokens(l, ops, i, tpm.value, prompt, now) ensures TpmRefuses(Run(l, ops), prompt, now) {
        TokenBound(l, start, ops, i, now);
      }
      if TpmRefuses(Run(l, ops), prompt, now) && prompt <= tpm.value {
        assert TooManyTokens(l, ops, k.value, tpm.value, prompt, now);
      }
    }
  }

  lemma FullAtMost(l: Limiter, start: real, ops: seq<Op>, now: real)
    requires l.tpm.Some? && Sound(l, start) && InOrder(start, ops) && Clock(start, ops) <= now
    ensures Run(l, ops).tpm.Some? && LevelAt(Run(l, ops).tpm.value, now) <= l.tpm.value.capacity
  {
    hide Flow, Refill, Apply, Run, InOrder;
    RunSound(l, start, ops);
    LevelGrows(Run(l, ops).tpm.value, Clock(start, ops), now);
  }

  /** After any traffic, a request is refused if and only if it would make the admissions of some stretch up
      to now exceed rpm + rpm/60 * d, or, with a prompt, the tokens charged in some stretch or in itself
      exceed tpm + tpm/60 * d. Traffic that keeps to both is always admitted. */
  lemma RefusedExactly(rpm: Option<nat>, tpm: Option<nat>, start: real, ops: seq<Op>, prompt: int, now: real)
    requires (rpm.Some? ==> rpm.value >= 1) && (tpm.Some? ==> tpm.value >= 1)
    requires InOrder(start, ops) && Clock(start, ops) <= now
    ensures var l := NewLimiter(rpm, tpm, start);
            var requests := rpm.Some? && exists i: nat :: TooManyRequests(l, ops, i, rpm.value, now);
            var tokens := tpm.Some? && prompt > 0
                          && (prompt > tpm.value || exists i: nat :: TooManyTokens(l, ops, i, tpm.value, prompt, now));
            var refusal := Check(Run(l, ops), prompt, now).1;
            && (refusal.Some? <==> requests || tokens)
            && (refusal.Some? ==> refusal.value.limit == if requests then Rpm else Tpm)
  {
    hide RpmRefuses, TpmRefuses, Run, RetryAfter, Refill;
    RequestsExactly(rpm, tpm, start, ops, now);
    TokensExactly(rpm, tpm, start, ops, prompt, now);
  }

  /** What is counted: each request as admitted or rejected, and with a token quota the tokens of admitted
      prompts and of every completion, no others. */
  lemma CountedExactly(l: Limiter, ops: seq<Op>, op: Op)
    ensures var m, r := Run(l, ops), Run(l, ops + [op]);
            var refused := op.Request? && Check(m, op.prompt, op.now).1.Some?;
            var tokens := if op.Request? then op.prompt else op.tokens;
            && r.admitted == m.admitted + (if op.Request? && !refused then 1 else 0)
            && r.rejected == m.rejected + (if refused then 1 else 0)
            && r.tokensCharged == m.tokensCharged + (if m.tpm.Some? && tokens > 0 && !refused then tokens else 0)
  {
    hide Charge, Touch, RetryAfter, RpmRefuses, TpmRefuses;
    assert (ops + [op])[..|ops|] == ops;
  }

  // ---- refusals -------------------------------------------------------------------------------------------------

  /** A refused request is as if it had never been sent: from then on both buckets hold what
      they would have held, nothing was charged and only the rejection is counted. */
  lemma RefusalDebitsNothing(l: Limiter, prompt: int, now: real, t: real)
    requires Check(l, prompt, now).1.Some? && now <= t
    ensures var l' := Check(l, prompt, now).0;
            && Touch(l'.rpm, t) == Touch(l.rpm, t) && Touch(l'.tpm, t) == Touch(l.tpm, t)
            && l'.admitted == l.admitted && l'.tokensCharged == l.tokensCharged && l'.rejected == l.rejected + 1
  {
    hide Flow;
    if l.rpm.Some? { RefillTwice(l.rpm.value, now, t); }
    if l.tpm.Some? { RefillTwice(l.tpm.value, now, t); }
  }

  /** A quota that passes keeps passing while nothing else is charged. */
  lemma PassingLasts(l: Limiter, prompt: int, s: real, t: real)
    requires Sound(l, s) && s <= t
    ensures !RpmRefuses(l, s) ==> !RpmRefuses(l, t)
    ensures !TpmRefuses(l, prompt, s) ==> !TpmRefuses(l, prompt, t)
  {
    hide Flow;
    if l.rpm.Some? { LevelGrows(l.rpm.value, s, t); }
    if l.tpm.Some? { LevelGrows(l.tpm.value, s, t); }
  }

  /** Refusing or not depends only on what the buckets would hold. */
  lemma RefusalsDependOnTouch(a: Limiter, b: Limiter, prompt: int, t: real)
    requires Touch(a.rpm, t) == Touch(b.rpm, t) && Touch(a.tpm, t) == Touch(b.tpm, t)
    ensures RpmRefuses(a, t) == RpmRefuses(b, t) && TpmRefuses(a, prompt, t) == TpmRefuses(b, prompt, t)
  {
  }

  /** A limiter whose quotas could ever admit this prompt: one request and `prompt` tokens fit. */
  predicate Fits(l: Limiter, prompt: int) {
    && (l.rpm.Some? ==> l.rpm.value.capacity >= 1.0)
    && (l.tpm.Some? && prompt > 0 ==> prompt as real <= l.tpm.value.capacity)
  }

  /** Waiting out a refusal clears the quota that refused. */
  lemma WaitClears(l: Limiter, prompt: int, now: real, t: real)
    requires Sound(l, now) && Fits(l, prompt) && Check(l, prompt, now).1.Some?
    requires t >= now + Check(l, prompt, now).1.value.retryAfter
    ensures now <= t
    ensures match Check(l, prompt, now).1.value.limit
            case Rpm => !RpmRefuses(l, t)
            case Tpm => !RpmRefuses(l, t) && !TpmRefuses(l, prompt, t)
  {
    hide Flow, Refill;
    if RpmRefuses(l, now) {
      RetryAfterExact(l.rpm.value, 1.0, now, t);
    } else {
      RetryAfterExact(l.tpm.value, prompt as real, now, t);
      PassingLasts(l, prompt, now, t);
    }
  }

  /** With no other traffic, a client that waits out each refusal is refused at most twice,
      first by the request quota and then by the token quota. */
  lemma AdmittedByTheThirdTry(l: Limiter, prompt: int, t1: real, t2: real, t3: real)
    requires Sound(l, t1) && Fits(l, prompt)
    requires Check(l, prompt, t1).1.Some? && t2 >= t1 + Check(l, prompt, t1).1.value.retryAfter
    ensures var l1 := Check(l, prompt, t1).0;
            Check(l1, prompt, t2).1.Some? ==>
              && Check(l, prompt, t1).1.value.limit == Rpm && Check(l1, prompt, t2).1.value.limit == Tpm
              && (t3 >= t2 + Check(l1, prompt, t2).1.value.retryAfter ==>
                    Check(Check(l1, prompt, t2).0, prompt, t3).1.None?)
  {
    hide Flow, Refill, RetryAfter, Touch;
    var l1 := Check(l, prompt, t1).0;
    WaitClears(l, prompt, t1, t2);
    RefusalDebitsNothing(l, prompt, t1, t2);
    RefusalsDependOnTouch(l, l1, prompt, t2);
    var again := Check(l1, prompt, t2).1;
    if again.Some? && t3 >= t2 + again.value.retryAfter {
      ApplySound(l, t1, Request(prompt, t1));
      SoundLater(l1, t1, t2);
      FitsKept(l, prompt, t1);
      WaitClears(l1, prompt, t2, t3);
      RefusalDebitsNothing(l1, prompt, t2, t3);
      RefusalsDependOnTouch(l1, Check(l1, prompt, t2).0, prompt, t3);
    }
  }

  lemma FitsKept(l: Limiter, prompt: int, now: real)
    requires Fits(l, prompt)
    ensures Fits(Check(l, prompt, now).0, prompt)
  {
    hide Flow;
  }

  /** A prompt larger than the whole token budget is refused at every time. */
  lemma OversizedPromptNeverAdmitted(l: Limiter, prompt: int, now: real)
    requires l.tpm.Some? && TpmSound(l.tpm.value, now) && prompt as real > l.tpm.value.capacity
    ensures Check(l, prompt, now).1.Some?
  {
    hide Flow;
    LevelGrows(l.tpm.value, now, now);
  }
}
