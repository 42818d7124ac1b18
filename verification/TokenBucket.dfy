/**
  The token bucket and the dual limiter of internal/ratelimit/ratelimit.go.

  `Level` is the bucket as a value and the functions on it are its operations; the classes are
  the bucket and the limiter as the source writes them, proved equal to those functions. Times are
  seconds and amounts are reals: rounding of float64 is not modelled. No theorem assumes that the
  clock is monotone.
 */
module TokenBuckets {

  datatype Level = Level(tokens: real, max: real, rate: real, lastFill: real)

  function Min(a: real, b: real): real { if a <= b then a else b }

  function Max(a: real, b: real): real { if a >= b then a else b }

  /** What every bucket keeps. */
  ghost predicate Sound(b: Level) {
    0.0 <= b.tokens <= b.max && 0.0 <= b.rate
  }

  function New(limit: int, now: real): (b: Level)
    ensures limit > 0 ==> Sound(b) && b.rate > 0.0
  {
    Level(limit as real, limit as real, limit as real / 60.0, now)
  }

  /** Tokens that accrue over a span. */
  function Accrued(rate: real, span: real): real { rate * span }

  function Refill(b: Level, now: real): Level {
    var elapsed := now - b.lastFill;
    if elapsed <= 0.0 then b
    else b.(tokens := Min(b.max, b.tokens + Accrued(b.rate, elapsed)), lastFill := now)
  }

  predicate Grants(b: Level, n: real, now: real) {
    Refill(b, now).tokens >= n
  }

  function Consume(b: Level, n: real, now: real): Level {
    var f := Refill(b, now);
    if f.tokens >= n then f.(tokens := f.tokens - n) else f
  }

  function RetryAfter(b: Level, n: real): real
    requires b.rate != 0.0
  {
    if b.tokens >= n then 0.0 else (n - b.tokens) / b.rate
  }

  function Adjust(b: Level, delta: real): Level {
    b.(tokens := Min(b.max, Max(0.0, b.tokens + delta)))
  }

  /** int64 of a non-negative float64. */
  function Truncate(x: real): int { x.Floor }

  // ------------------------------------------------------------ the classes

  class Bucket {
    var tokens: real
    const max: real
    const rate: real
    var lastFill: real

    ghost function Value(): Level
      reads this
    {
      Level(tokens, max, rate, lastFill)
    }

    constructor (limit: int, now: real)
      ensures Value() == New(limit, now)
    {
      tokens, max, rate, lastFill := limit as real, limit as real, limit as real / 60.0, now;
    }

    method DoRefill(now: real)
      modifies this
      ensures Value() == Refill(old(Value()), now)
    {
      var elapsed := now - lastFill;
      if elapsed <= 0.0 {
        return;
      }
      tokens := Min(max, tokens + Accrued(rate, elapsed));
      lastFill := now;
    }

    method TryConsume(n: real, now: real) returns (remaining: int, allowed: bool)
      modifies this
      ensures Value() == Consume(old(Value()), n, now)
      ensures allowed == Grants(old(Value()), n, now)
      ensures remaining == if allowed then Truncate(tokens) else 0
    {
      DoRefill(now);
      if tokens >= n {
        tokens := tokens - n;
        return Truncate(tokens), true;
      }
      return 0, false;
    }

    method DoAdjust(delta: real)
      modifies this
      ensures Value() == Adjust(old(Value()), delta)
    {
      tokens := Min(max, Max(0.0, tokens + delta));
    }
  }

  datatype Limits = Limits(rpm: int, tpm: int)

  datatype Result = Result(allowed: bool, limit: int, remaining: int, retryAfterSeconds: real)

  const UNLIMITED := Result(true, 0, 0, 0.0)

  /** What a caller is told after asking a bucket for `n` tokens. */
  ghost function Verdict(b: Level, limit: int, n: real, now: real): Result
    requires b.rate != 0.0
  {
    if Grants(b, n, now) then Result(true, limit, Truncate(Consume(b, n, now).tokens), 0.0)
    else Result(false, limit, 0, RetryAfter(Consume(b, n, now), n))
  }

  class Limiter {
    const rpm: Bucket?
    const tpm: Bucket?
    const limits: Limits
    var lastUsed: real

    ghost predicate Valid() {
      && (rpm != null <==> limits.rpm > 0)
      && (tpm != null <==> limits.tpm > 0)
      && (rpm != null ==> rpm.rate == limits.rpm as real / 60.0 && rpm.max == limits.rpm as real)
      && (tpm != null ==> tpm.rate == limits.tpm as real / 60.0 && tpm.max == limits.tpm as real)
      && (rpm != null && tpm != null ==> rpm != tpm)
    }

    constructor (l: Limits, now: real)
      ensures Valid() && limits == l && lastUsed == now
      ensures rpm != null ==> fresh(rpm) && rpm.Value() == New(l.rpm, now)
      ensures tpm != null ==> fresh(tpm) && tpm.Value() == New(l.tpm, now)
    {
      limits, lastUsed := l, now;
      if l.rpm > 0 {
        rpm := new Bucket(l.rpm, now);
      } else {
        rpm := null;
      }
      if l.tpm > 0 {
        tpm := new Bucket(l.tpm, now);
      } else {
        tpm := null;
      }
    }

    /** Takes one request; the token budget is untouched. */
    method AllowRPM(now: real) returns (r: Result)
      requires Valid()
      modifies this, rpm
      ensures lastUsed == now
      ensures rpm == null ==> r == UNLIMITED
      ensures rpm != null ==>
        r == Verdict(old(rpm.Value()), limits.rpm, 1.0, now) && rpm.Value() == Consume(old(rpm.Value()), 1.0, now)
      ensures tpm != null ==> tpm.Value() == old(tpm.Value())
    {
      lastUsed := now;
      if rpm == null {
        return UNLIMITED;
      }
      var remaining, ok := rpm.TryConsume(1.0, now);
      if ok {
        return Result(true, limits.rpm, remaining, 0.0);
      }
      return Result(false, limits.rpm, 0, RetryAfter(Level(rpm.tokens, rpm.max, rpm.rate, rpm.lastFill), 1.0));
    }

    /** Takes the estimated tokens; the request budget is untouched. */
    method ConsumeTPM(estimated: int, now: real) returns (r: Result)
      requires Valid()
      modifies this, tpm
      ensures lastUsed == now
      ensures tpm == null ==> r == UNLIMITED
      ensures tpm != null ==>
        && r == Verdict(old(tpm.Value()), limits.tpm, estimated as real, now)
        && tpm.Value() == Consume(old(tpm.Value()), estimated as real, now)
      ensures rpm != null ==> rpm.Value() == old(rpm.Value())
    {
      lastUsed := now;
      if tpm == null {
        return UNLIMITED;
      }
      var remaining, ok := tpm.TryConsume(estimated as real, now);
      if ok {
        return Result(true, limits.tpm, remaining, 0.0);
      }
      var level := Level(tpm.tokens, tpm.max, tpm.rate, tpm.lastFill);
      return Result(false, limits.tpm, 0, RetryAfter(level, estimated as real));
    }

    method AdjustTPM(delta: int)
      requires Valid()
      modifies tpm
      ensures tpm != null ==> tpm.Value() == Adjust(old(tpm.Value()), delta as real)
      ensures rpm != null ==> rpm.Value() == old(rpm.Value())
    {
      if tpm != null {
        tpm.DoAdjust(delta as real);
      }
    }

    method RPMResult(now: real) returns (r: Result)
      requires Valid()
      modifies rpm
      ensures rpm == null ==> r == UNLIMITED
      ensures rpm != null ==>
        && rpm.Value() == Refill(old(rpm.Value()), now)
        && r == Result(true, limits.rpm, Truncate(rpm.Value().tokens), 0.0)
      ensures tpm != null ==> tpm.Value() == old(tpm.Value())
    {
      if rpm == null {
        return UNLIMITED;
      }
      rpm.DoRefill(now);
      return Result(true, limits.rpm, Truncate(rpm.tokens), 0.0);
    }
  }

  // ---------------------------------------------------------- one operation

  lemma Accrual(rate: real, span: real)
    requires 0.0 <= rate && 0.0 <= span
    ensures 0.0 <= Accrued(rate, span)
    ensures 0.0 < rate && 0.0 < span ==> 0.0 < Accrued(rate, span)
  {
  }

  lemma AccruedAdds(rate: real, a: real, b: real)
    ensures Accrued(rate, a + b) == Accrued(rate, a) + Accrued(rate, b)
  {
  }

  lemma AccruedOver(rate: real, x: real)
    requires 0.0 < rate
    ensures Accrued(rate, x / rate) == x
  {
  }

  lemma AccrualMonotone(rate: real, a: real, b: real)
    requires 0.0 <= rate && a <= b
    ensures Accrued(rate, a) <= Accrued(rate, b)
    ensures 0.0 < rate && a < b ==> Accrued(rate, a) < Accrued(rate, b)
  {
    AccruedAdds(rate, a, b - a);
    Accrual(rate, b - a);
    assert a + (b - a) == b;
  }

  lemma RefillSound(b: Level, now: real)
    requires Sound(b)
    ensures Refill(b, now).max == b.max && Refill(b, now).rate == b.rate
    ensures Sound(Refill(b, now)) && Refill(b, now).tokens >= b.tokens
    ensures Refill(b, now).lastFill == Max(b.lastFill, now)
  {
    if now > b.lastFill {
      Accrual(b.rate, now - b.lastFill);
    }
  }

  /** Lazy refill is the continuous one: an intermediate refill is never noticed. */
  lemma RefillPathIndependent(b: Level, t1: real, t2: real)
    requires Sound(b) && t1 <= t2
    ensures Refill(Refill(b, t1), t2) == Refill(b, t2)
  {
    if b.lastFill < t1 < t2 {
      Accrual(b.rate, t2 - t1);
      AccruedAdds(b.rate, t1 - b.lastFill, t2 - t1);
      assert (t1 - b.lastFill) + (t2 - t1) == t2 - b.lastFill;
    }
  }

  /** The wait told after a denial is exact: with no other traffic the same request is granted
      after `w` seconds if and only if `w` is at least that wait. */
  lemma RetryAfterExact(b: Level, n: real, now: real, w: real)
    requires Sound(b) && 0.0 < b.rate && n <= b.max && 0.0 <= w
    requires !Grants(b, n, now)
    ensures var denied := Consume(b, n, now);
      Grants(denied, n, denied.lastFill + w) <==> w >= RetryAfter(denied, n)
  {
    DeniedWait(Consume(b, n, now), n, w);
  }

  lemma DeniedWait(d: Level, n: real, w: real)
    requires 0.0 < d.rate && d.tokens < n <= d.max && 0.0 <= w
    ensures RetryAfter(d, n) > 0.0
    ensures Grants(d, n, d.lastFill + w) <==> w >= RetryAfter(d, n)
  {
    var wait := RetryAfter(d, n);
    AccruedOver(d.rate, n - d.tokens);
    assert d.lastFill + w - d.lastFill == w;
    assert Accrued(d.rate, wait) > 0.0;
    WaitPositive(d.rate, wait);
    if w >= wait {
      AccrualMonotone(d.rate, wait, w);
    } else {
      AccrualMonotone(d.rate, w, wait);
    }
  }

  lemma WaitPositive(rate: real, wait: real)
    requires 0.0 < rate && Accrued(rate, wait) > 0.0
    ensures wait > 0.0
  {
    if wait <= 0.0 {
      AccrualMonotone(rate, wait, 0.0);
    }
  }

  /** The Retry-After header, whole seconds truncated plus one, always suffices. */
  lemma RetryHeaderSuffices(b: Level, n: real, now: real)
    requires Sound(b) && 0.0 < b.rate && n <= b.max && !Grants(b, n, now)
    ensures var denied := Consume(b, n, now);
      var header := Truncate(RetryAfter(denied, n)) + 1;
      header >= 1 && Grants(denied, n, denied.lastFill + header as real)
  {
    var denied := Consume(b, n, now);
    DeniedWait(denied, n, 0.0);
    DeniedWait(denied, n, (Truncate(RetryAfter(denied, n)) + 1) as real);
  }

  /** Reserving an estimate and settling it once the real usage is known charges the real usage,
      down to an empty bucket: the estimate itself leaves no trace. */
  lemma ReservationSettles(b: Level, estimated: int, actual: int, now: real)
    requires Sound(b) && 0 <= estimated && 0 <= actual && Grants(b, estimated as real, now)
    ensures Adjust(Consume(b, estimated as real, now), (estimated - actual) as real) ==
            Refill(b, now).(tokens := Max(0.0, Refill(b, now).tokens - actual as real))
  {
    RefillSound(b, now);
  }

  // -------------------------------------------------------------- whole runs

  datatype Op = Take(n: real, at: real) | Look(at: real) | Correct(delta: real)

  function Apply(b: Level, op: Op): (b': Level)
  {
    match op
    case Take(n, at) => Consume(b, n, at)
    case Look(at) => Refill(b, at)
    case Correct(delta) => Adjust(b, delta)
  }

  function After(b: Level, ops: seq<Op>): (b': Level)
  {
    if ops == [] then b else Apply(After(b, ops[..|ops| - 1]), ops[|ops| - 1])
  }

  /** Tokens handed out by a run. */
  function Granted(b: Level, ops: seq<Op>): (total: real)
  {
    if ops == [] then 0.0
    else
      var op, m := ops[|ops| - 1], After(b, ops[..|ops| - 1]);
      Granted(b, ops[..|ops| - 1]) + Grant(m, op)
  }

  function Refunded(ops: seq<Op>): (total: real)
  {
    if ops == [] then 0.0
    else
      Refunded(ops[..|ops| - 1]) + Refund(ops[|ops| - 1])
  }

  ghost predicate NoNegativeTake(ops: seq<Op>) {
    forall i :: 0 <= i < |ops| && ops[i].Take? ==> ops[i].n >= 0.0
  }

  /** Tokens in hand less the tokens accrued since time 0: accrual leaves it alone. */
  ghost function Credit(b: Level): real {
    b.tokens - Accrued(b.rate, b.lastFill)
  }

  function Grant(b: Level, op: Op): real {
    if op.Take? && Grants(b, op.n, op.at) then op.n else 0.0
  }

  function Refund(op: Op): real {
    if op.Correct? && op.delta > 0.0 then op.delta else 0.0
  }

  lemma ApplyBound(b: Level, op: Op)
    requires Sound(b) && (op.Take? ==> op.n >= 0.0)
    ensures var b' := Apply(b, op);
      && Sound(b') && b'.max == b.max && b'.rate == b.rate && b'.lastFill >= b.lastFill
      && Grant(b, op) + Credit(b') <= Credit(b) + Refund(op)
  {
    if !op.Correct? {
      RefillSound(b, op.at);
      AccruedAdds(b.rate, b.lastFill, op.at - b.lastFill);
      assert b.lastFill + (op.at - b.lastFill) == op.at;
    }
  }

  lemma {:induction false} CreditBound(b: Level, ops: seq<Op>)
    requires Sound(b) && NoNegativeTake(ops)
    ensures Sound(After(b, ops)) && After(b, ops).max == b.max && After(b, ops).rate == b.rate
    ensures After(b, ops).lastFill >= b.lastFill
    ensures Granted(b, ops) + Credit(After(b, ops)) <= Credit(b) + Refunded(ops)
  {
    if ops != [] {
      var n := |ops| - 1;
      CreditBound(b, ops[..n]);
      ApplyBound(After(b, ops[..n]), ops[n]);
    }
  }

  lemma CreditMeans(b: Level, m: Level, granted: real, refunded: real)
    requires m.rate == b.rate && granted + Credit(m) <= Credit(b) + refunded
    ensures granted + m.tokens <= b.tokens + Accrued(b.rate, m.lastFill - b.lastFill) + refunded
  {
    AccruedAdds(b.rate, b.lastFill, m.lastFill - b.lastFill);
    assert b.lastFill + (m.lastFill - b.lastFill) == m.lastFill;
  }

  /** Over any run from any sound bucket, what is handed out and what is left is at most what was there,
      what accrued and what was refunded; the bucket stays sound. A contiguous part of a run is
      itself a run from the bucket it starts with. */
  lemma GrantBound(b: Level, ops: seq<Op>)
    requires Sound(b) && NoNegativeTake(ops)
    ensures Sound(After(b, ops)) && After(b, ops).max == b.max && After(b, ops).rate == b.rate
    ensures After(b, ops).lastFill >= b.lastFill
    ensures Granted(b, ops) + After(b, ops).tokens <=
            b.tokens + Accrued(b.rate, After(b, ops).lastFill - b.lastFill) + Refunded(ops)
  {
    CreditBound(b, ops);
    CreditMeans(b, After(b, ops), Granted(b, ops), Refunded(ops));
  }

  // -------------------------------------------------- the exact balance

  /** Tokens that do not fit: what an operation would leave above the maximum. */
  function Spilled(b: Level, op: Op): real {
    match op
    case Correct(delta) => Max(0.0, b.tokens + delta - b.max)
    case _ =>
      if op.at <= b.lastFill then 0.0 else Max(0.0, b.tokens + Accrued(b.rate, op.at - b.lastFill) - b.max)
  }

  /** Tokens that are owed and never collected: what a correction would leave below 0. */
  function Forgiven(b: Level, op: Op): real {
    if op.Correct? then Max(0.0, -(b.tokens + op.delta)) else 0.0
  }

  function Delta(op: Op): real {
    if op.Correct? then op.delta else 0.0
  }

  /** The sums of the corrections, of what spills and of what is forgiven in a run. */
  function Corrected(ops: seq<Op>): (total: real)
  {
    if ops == [] then 0.0 else Corrected(ops[..|ops| - 1]) + Delta(ops[|ops| - 1])
  }

  function SpilledIn(b: Level, ops: seq<Op>): (total: real)
  {
    if ops == [] then 0.0
    else SpilledIn(b, ops[..|ops| - 1]) + Spilled(After(b, ops[..|ops| - 1]), ops[|ops| - 1])
  }

  function ForgivenIn(b: Level, ops: seq<Op>): (total: real)
  {
    if ops == [] then 0.0
    else ForgivenIn(b, ops[..|ops| - 1]) + Forgiven(After(b, ops[..|ops| - 1]), ops[|ops| - 1])
  }

  lemma ApplyExact(b: Level, op: Op)
    requires Sound(b)
    ensures Grant(b, op) + Credit(Apply(b, op)) == Credit(b) + Delta(op) - Spilled(b, op) + Forgiven(b, op)
  {
    if !op.Correct? {
      AccruedAdds(b.rate, b.lastFill, op.at - b.lastFill);
      assert b.lastFill + (op.at - b.lastFill) == op.at;
    }
  }

  lemma {:induction false} CreditExact(b: Level, ops: seq<Op>)
    requires Sound(b) && NoNegativeTake(ops)
    ensures Granted(b, ops) + Credit(After(b, ops)) ==
            Credit(b) + Corrected(ops) - SpilledIn(b, ops) + ForgivenIn(b, ops)
  {
    if ops != [] {
      var n := |ops| - 1;
      CreditExact(b, ops[..n]);
      CreditBound(b, ops[..n]);
      ApplyExact(After(b, ops[..n]), ops[n]);
    }
  }

  lemma CreditAsTokens(b: Level, m: Level, change: real)
    requires m.rate == b.rate && Credit(m) == Credit(b) + change
    ensures m.tokens == b.tokens + Accrued(b.rate, m.lastFill - b.lastFill) + change
  {
    AccruedAdds(b.rate, b.lastFill, m.lastFill - b.lastFill);
    assert b.lastFill + (m.lastFill - b.lastFill) == m.lastFill;
  }

  lemma BalanceAsTokens(b: Level, m: Level, granted: real, corrected: real, spilled: real, forgiven: real)
    requires m.rate == b.rate && granted + Credit(m) == Credit(b) + corrected - spilled + forgiven
    ensures m.tokens ==
      b.tokens + Accrued(b.rate, m.lastFill - b.lastFill) + (corrected - granted - spilled + forgiven)
  {
    CreditAsTokens(b, m, corrected - granted - spilled + forgiven);
  }

  /** Over any run, what is left is what was there and what accrued, less what was handed out, plus the corrections,
      less what spilled and plus what was forgiven. */
  lemma ExactBalance(b: Level, ops: seq<Op>, m: Level)
    requires Sound(b) && NoNegativeTake(ops) && m == After(b, ops)
    ensures m.tokens ==
      b.tokens + Accrued(b.rate, m.lastFill - b.lastFill) +
      (Corrected(ops) - Granted(b, ops) - SpilledIn(b, ops) + ForgivenIn(b, ops))
  {
    CreditExact(b, ops);
    assert m.rate == b.rate by {
      CreditBound(b, ops);
    }
    BalanceAsTokens(b, m, Granted(b, ops), Corrected(ops), SpilledIn(b, ops), ForgivenIn(b, ops));
  }

  /** An estimate taken, any operations, and then the correction by the real usage: the request has cost exactly the
      real usage, and the estimate leaves no trace but in what spilled or was forgiven on the way. */
  lemma ReservationSettlesLater(b: Level, estimated: int, actual: int, now: real, ops: seq<Op>)
    requires Sound(b) && 0 <= estimated && NoNegativeTake(ops) && Grants(b, estimated as real, now)
    ensures var take, correct := Take(estimated as real, now), Correct((estimated - actual) as real);
      var reserved := Apply(b, take);
      var before := After(reserved, ops);
      var settled := Apply(before, correct);
      settled.tokens ==
        b.tokens + Accrued(b.rate, settled.lastFill - b.lastFill) - actual as real +
        (Corrected(ops) - Granted(reserved, ops)) -
        (Spilled(b, take) + SpilledIn(reserved, ops) + Spilled(before, correct)) +
        (ForgivenIn(reserved, ops) + Forgiven(before, correct))
  {
    var take, correct := Take(estimated as real, now), Correct((estimated - actual) as real);
    var reserved := Apply(b, take);
    ApplyBound(b, take);
    ApplyExact(b, take);
    CreditBound(reserved, ops);
    CreditExact(reserved, ops);
    var before := After(reserved, ops);
    ApplyExact(before, correct);
    CreditAsTokens(b, Apply(before, correct), Credit(Apply(before, correct)) - Credit(b));
  }

  // --------------------------------------------------------------- bounds

  /** A request for more than the bucket can hold is never granted, whatever happens before it. */
  lemma OversizedNeverGranted(b: Level, ops: seq<Op>, n: real, at: real)
    requires Sound(b) && NoNegativeTake(ops) && n > b.max
    ensures !Grants(After(b, ops), n, at)
  {
    GrantBound(b, ops);
    RefillSound(After(b, ops), at);
  }

  // ------------------------------------------------------ request admission

  /** One unit request per arrival, as the request limiter takes them. */
  function Arrivals(times: seq<real>): (ops: seq<Op>)
    ensures |ops| == |times|
    ensures forall i :: 0 <= i < |times| ==> ops[i] == Take(1.0, times[i])
  {
    seq(|times|, i requires 0 <= i < |times| => Take(1.0, times[i]))
  }

  /** How many of the arrivals are let through. */
  function Admitted(b: Level, times: seq<real>): (n: nat)
  {
    if times == [] then 0
    else
      var k := |times| - 1;
      Admitted(b, times[..k]) + if Grants(After(b, Arrivals(times[..k])), 1.0, times[k]) then 1 else 0
  }

  lemma {:induction false} AdmittedIsGranted(b: Level, times: seq<real>)
    ensures Granted(b, Arrivals(times)) == Admitted(b, times) as real
    ensures Refunded(Arrivals(times)) == 0.0
  {
    if times != [] {
      var k := |times| - 1;
      AdmittedIsGranted(b, times[..k]);
      assert Arrivals(times)[..k] == Arrivals(times[..k]);
    }
  }

  /** Looks at times no later than the next timed operation are invisible to it and to all that follows. */
  lemma {:induction false} LooksUnseen(b: Level, looks: seq<Op>, next: Op)
    requires Sound(b) && !next.Correct?
    requires forall i :: 0 <= i < |looks| ==> looks[i].Look? && looks[i].at <= next.at
    ensures Apply(After(b, looks), next) == Apply(b, next)
    ensures next.Take? ==> Grants(After(b, looks), next.n, next.at) == Grants(b, next.n, next.at)
    ensures Sound(After(b, looks)) && Refill(After(b, looks), next.at) == Refill(b, next.at)
  {
    if looks != [] {
      var k := |looks| - 1;
      LooksUnseen(b, looks[..k], next);
      RefillSound(After(b, looks[..k]), looks[k].at);
      RefillPathIndependent(After(b, looks[..k]), looks[k].at, next.at);
    }
  }

  lemma {:induction false} AfterConcat(b: Level, a: seq<Op>, c: seq<Op>)
    ensures After(b, a + c) == After(After(b, a), c)
    ensures Granted(b, a + c) == Granted(b, a) + Granted(After(b, a), c)
  {
    if c == [] {
      assert a + c == a;
    } else {
      var k := |c| - 1;
      AfterConcat(b, a, c[..k]);
      assert (a + c)[..|a| + k] == a + c[..k];
    }
  }

  /** Inserting looks anywhere in a run, before a timed operation that is no earlier than they are,
      leaves the bucket, and with it every later answer, as it would have been. */
  lemma InsertedLooksUnseen(b: Level, before: seq<Op>, looks: seq<Op>, next: Op, rest: seq<Op>)
    requires Sound(b) && NoNegativeTake(before) && !next.Correct?
    requires forall i :: 0 <= i < |looks| ==> looks[i].Look? && looks[i].at <= next.at
    ensures After(b, before + looks + [next] + rest) == After(b, before + [next] + rest)
    ensures Granted(b, before + looks + [next] + rest) == Granted(b, before + [next] + rest)
  {
    GrantBound(b, before);
    var m := After(b, before);
    LooksUnseen(m, looks, next);
    LooksGrantNothing(m, looks);
    AfterConcat(b, before, looks);
    AfterConcat(b, before + looks, [next]);
    AfterConcat(b, before, [next]);
    AfterConcat(b, before + looks + [next], rest);
    AfterConcat(b, before + [next], rest);
    AfterOne(m, next);
    AfterOne(After(m, looks), next);
  }

  lemma AfterOne(b: Level, op: Op)
    ensures After(b, [op]) == Apply(b, op)
    ensures Granted(b, [op]) == Grant(b, op)
  {
    assert [op][..0] == [];
  }

  lemma {:induction false} LooksGrantNothing(b: Level, looks: seq<Op>)
    requires forall i :: 0 <= i < |looks| ==> looks[i].Look?
    ensures Granted(b, looks) == 0.0
  {
    if looks != [] {
      LooksGrantNothing(b, looks[..|looks| - 1]);
    }
  }

  ghost predicate Within(ops: seq<Op>, from: real, span: real) {
    forall i :: 0 <= i < |ops| && !ops[i].Correct? ==> from <= ops[i].at <= from + span
  }

  /** The clock readings of a span carry a bucket forward by the span at most. */
  lemma {:induction false} LastFillInSpan(b: Level, ops: seq<Op>, from: real, span: real)
    requires b.lastFill >= from && 0.0 <= span && Within(ops, from, span)
    ensures After(b, ops).lastFill <= Max(b.lastFill, from + span)
  {
    if ops != [] {
      LastFillInSpan(b, ops[..|ops| - 1], from, span);
    }
  }

  lemma FirstLookUnseen(b: Level, look: real, ops: seq<Op>)
    requires Sound(b) && ops != [] && !ops[0].Correct? && look <= ops[0].at
    ensures Granted(Refill(b, look), ops) == Granted(b, ops)
  {
    var looks := [Look(look)];
    InsertedLooksUnseen(b, [], looks, ops[0], ops[1..]);
    assert [] + [ops[0]] + ops[1..] == ops && [] + looks + [ops[0]] + ops[1..] == looks + ops;
    AfterOne(b, looks[0]);
    AfterConcat(b, looks, ops);
  }

  lemma SpanFromTimed(b: Level, ops: seq<Op>, from: real, span: real)
    requires Sound(b) && 0.0 <= span && NoNegativeTake(ops) && Within(ops, from, span)
    requires ops != [] && !ops[0].Correct?
    ensures Granted(b, ops) <= b.max + Accrued(b.rate, span) + Refunded(ops)
  {
    RefillSound(b, from);
    SpanFromFilled(Refill(b, from), ops, from, span);
    FirstLookUnseen(b, from, ops);
  }

  lemma SpanFromFilled(b: Level, ops: seq<Op>, from: real, span: real)
    requires Sound(b) && 0.0 <= span && NoNegativeTake(ops) && Within(ops, from, span)
    requires b.lastFill >= from
    ensures Granted(b, ops) <= b.max + Accrued(b.rate, span) + Refunded(ops)
  {
    CreditBound(b, ops);
    LastFillInSpan(b, ops, from, span);
    CreditOverSpan(b, After(b, ops), Granted(b, ops), Refunded(ops), from, span);
  }

  lemma CreditOverSpan(b: Level, m: Level, granted: real, refunded: real, from: real, span: real)
    requires Sound(b) && Sound(m) && m.rate == b.rate && from <= b.lastFill && 0.0 <= span
    requires m.lastFill <= Max(b.lastFill, from + span)
    requires granted + Credit(m) <= Credit(b) + refunded
    ensures granted <= b.max + Accrued(b.rate, span) + refunded
  {
    CreditMeans(b, m, granted, refunded);
    AccrualMonotone(b.rate, m.lastFill - b.lastFill, span);
  }

  /** However long a bucket was idle, however its clock moves within a span, and wherever in a run the
      span lies, what is handed out in it is at most a full bucket, the accrual of the span and the refunds. */
  lemma {:induction false} GrantsInSpan(b: Level, ops: seq<Op>, from: real, span: real)
    requires Sound(b) && 0.0 <= span && NoNegativeTake(ops) && Within(ops, from, span)
    ensures Granted(b, ops) <= b.max + Accrued(b.rate, span) + Refunded(ops)
    decreases |ops|
  {
    if ops == [] {
      Accrual(b.rate, span);
    } else if !ops[0].Correct? {
      SpanFromTimed(b, ops, from, span);
    } else {
      var b1 := Apply(b, ops[0]);
      assert ops == [ops[0]] + ops[1..];
      AfterOne(b, ops[0]);
      AfterConcat(b, [ops[0]], ops[1..]);
      RefundedConcat([ops[0]], ops[1..]);
      GrantsInSpan(b1, ops[1..], from, span);
    }
  }

  lemma {:induction false} RefundedConcat(a: seq<Op>, c: seq<Op>)
    ensures Refunded(a + c) == Refunded(a) + Refunded(c)
    ensures 0.0 <= Refunded(a)
  {
    if c == [] {
      assert a + c == a;
      if a != [] {
        RefundedConcat(a[..|a| - 1], []);
      }
    } else {
      RefundedConcat(a, c[..|c| - 1]);
      assert (a + c)[..|a| + |c| - 1] == a + c[..|c| - 1];
    }
  }

  /** A request limiter lets through at most limit + limit * span / 60 requests in any span. */
  lemma AdmissionsInSpan(limit: int, b: Level, times: seq<real>, from: real, span: real)
    requires limit > 0 && 0.0 <= span
    requires Sound(b) && b.max == limit as real && b.rate == limit as real / 60.0
    requires forall i :: 0 <= i < |times| ==> from <= times[i] <= from + span
    ensures Admitted(b, times) as real <= limit as real + limit as real * span / 60.0
  {
    AdmittedIsGranted(b, times);
    PerMinute(limit as real, span);
    GrantsInSpan(b, Arrivals(times), from, span);
  }

  lemma PerMinute(limit: real, span: real)
    ensures Accrued(limit / 60.0, span) == limit * span / 60.0
  {
  }

  // ---------------------------------------------------------------- optimality

  /** Any other way to choose which arrivals to let through, under the same rules: the bucket refills
      as the code's does, and a request may only be let through when a token is there. */
  function Chosen(b: Level, times: seq<real>, choice: seq<bool>): (b': Level)
    requires |choice| == |times|
  {
    if times == [] then b
    else
      var k := |times| - 1;
      var m := Refill(Chosen(b, times[..k], choice[..k]), times[k]);
      if choice[k] then m.(tokens := m.tokens - 1.0) else m
  }

  ghost predicate Feasible(b: Level, times: seq<real>, choice: seq<bool>)
    requires |choice| == |times|
  {
    forall i: nat :: i < |times| && choice[i] ==> Refill(Chosen(b, times[..i], choice[..i]), times[i]).tokens >= 1.0
  }

  function Count(choice: seq<bool>): (n: nat)
  {
    if choice == [] then 0 else Count(choice[..|choice| - 1]) + if choice[|choice| - 1] then 1 else 0
  }

  /** The limiter lets through as many requests as any feasible choice that starts with no more tokens. */
  lemma AdmissionIsOptimal(b: Level, other: Level, times: seq<real>, choice: seq<bool>)
    requires Sound(b) && Sound(other) && other.tokens <= b.tokens
    requires other.max == b.max && other.rate == b.rate && other.lastFill == b.lastFill
    requires |choice| == |times| && Feasible(other, times, choice)
    ensures Count(choice) <= Admitted(b, times)
  {
    GreedyStaysAhead(b, other, times, choice);
  }

  lemma FeasibleBefore(b: Level, times: seq<real>, choice: seq<bool>, k: nat)
    requires |choice| == |times| && k <= |times| && Feasible(b, times, choice)
    ensures Feasible(b, times[..k], choice[..k])
  {
    forall i: nat | i < k && choice[i]
      ensures Refill(Chosen(b, times[..k][..i], choice[..k][..i]), times[..k][i]).tokens >= 1.0
    {
      assert times[..k][..i] == times[..i] && choice[..k][..i] == choice[..i];
    }
  }

  /** One arrival: the limiter's lead in requests, `lead`, still covers what it has less in tokens. */
  lemma StaysAhead(g: Level, c: Level, lead: nat, chosen: bool, at: real)
    requires Sound(g) && Sound(c) && c.max == g.max && c.rate == g.rate && c.lastFill == g.lastFill
    requires c.tokens <= g.tokens + lead as real
    requires chosen ==> Refill(c, at).tokens >= 1.0
    ensures var g' := Consume(g, 1.0, at);
      var c' := if chosen then Refill(c, at).(tokens := Refill(c, at).tokens - 1.0) else Refill(c, at);
      var lead' := lead + (if Grants(g, 1.0, at) then 1 else 0) - if chosen then 1 else 0;
      && Sound(g') && Sound(c') && c'.lastFill == g'.lastFill
      && 0 <= lead' && c'.tokens <= g'.tokens + lead' as real
  {
    RefillSound(g, at);
    RefillSound(c, at);
    assert Refill(c, at).tokens <= Refill(g, at).tokens + lead as real;
  }

  /** What the other choice has more in tokens, the limiter has already let through in requests. */
  lemma {:induction false} GreedyStaysAhead(b: Level, other: Level, times: seq<real>, choice: seq<bool>)
    requires Sound(b) && Sound(other) && other.tokens <= b.tokens
    requires other.max == b.max && other.rate == b.rate && other.lastFill == b.lastFill
    requires |choice| == |times| && Feasible(other, times, choice)
    ensures var g, c := After(b, Arrivals(times)), Chosen(other, times, choice);
      && Sound(g) && Sound(c)
      && c.max == g.max == b.max && c.rate == g.rate == b.rate && c.lastFill == g.lastFill
      && Count(choice) <= Admitted(b, times)
      && c.tokens <= g.tokens + (Admitted(b, times) - Count(choice)) as real
  {
    if times != [] {
      var k := |times| - 1;
      FeasibleBefore(other, times, choice, k);
      GreedyStaysAhead(b, other, times[..k], choice[..k]);
      assert Arrivals(times)[..k] == Arrivals(times[..k]);
      StaysAhead(After(b, Arrivals(times[..k])), Chosen(other, times[..k], choice[..k]),
                 Admitted(b, times[..k]) - Count(choice[..k]), choice[k], times[k]);
    }
  }

  // ------------------------------------------------- what callers are told

  lemma ConsumedIsFilled(b: Level, n: real, now: real)
    ensures var after := Consume(b, n, now); Refill(after, now) == after && after.lastFill >= now
  {
  }

  /** A caller who is let through is told the largest whole number that would be granted next at the same instant. One
      who is not is told the least wait after which the same request, made when nothing else has been, is. */
  lemma VerdictMeans(b: Level, limit: int, n: real, now: real, m: int, w: real)
    requires Sound(b) && 0.0 < b.rate && n <= b.max && 0.0 <= w
    ensures var r, after := Verdict(b, limit, n, now), Consume(b, n, now);
      && r.limit == limit
      && (r.allowed <==> Grants(b, n, now))
      && (r.allowed ==> r.retryAfterSeconds == 0.0 && (Grants(after, m as real, now) <==> m <= r.remaining))
      && (!r.allowed ==>
          r.remaining == 0 && (Grants(after, n, after.lastFill + w) <==> w >= r.retryAfterSeconds))
  {
    ConsumedIsFilled(b, n, now);
    if Grants(b, n, now) {
      FloorMeans(Consume(b, n, now).tokens, m);
    } else {
      RetryAfterExact(b, n, now, w);
    }
  }

  lemma FloorMeans(x: real, m: int)
    ensures m as real <= x <==> m <= Truncate(x)
  {
    if m <= x.Floor {
      assert m as real <= x.Floor as real;
    } else {
      assert m as real >= x.Floor as real + 1.0;
    }
  }

  /** Asks at the given times, in that order, and counts how often it is let through: exactly as often as the bucket
      admits, and within any span of time at most the limit and a sixtieth of it per second. */
  method AskAll(l: Limiter, times: seq<real>, ghost from: real, ghost span: real) returns (allowed: nat)
    requires l.Valid() && l.rpm != null && Sound(l.rpm.Value()) && 0.0 <= span
    requires forall i :: 0 <= i < |times| ==> from <= times[i] <= from + span
    modifies l, l.rpm
    ensures allowed == Admitted(old(l.rpm.Value()), times)
    ensures allowed as real <= l.limits.rpm as real + l.limits.rpm as real * span / 60.0
    ensures l.rpm.Value() == After(old(l.rpm.Value()), Arrivals(times))
  {
    ghost var b := l.rpm.Value();
    allowed := 0;
    for i := 0 to |times|
      invariant allowed == Admitted(b, times[..i]) && l.rpm.Value() == After(b, Arrivals(times[..i]))
    {
      var r := l.AllowRPM(times[i]);
      ArrivesNext(b, times, i);
      if r.allowed {
        allowed := allowed + 1;
      }
    }
    assert times[..|times|] == times;
    AdmissionsInSpan(l.limits.rpm, b, times, from, span);
  }

  lemma ArrivesNext(b: Level, times: seq<real>, i: nat)
    requires i < |times|
    ensures var m := After(b, Arrivals(times[..i]));
      && After(b, Arrivals(times[..i + 1])) == Consume(m, 1.0, times[i])
      && Admitted(b, times[..i + 1]) == Admitted(b, times[..i]) + if Grants(m, 1.0, times[i]) then 1 else 0
  {
    assert times[..i + 1][..i] == times[..i];
    assert Arrivals(times[..i + 1])[..i] == Arrivals(times[..i]);
  }

  /** Asks, and if it is turned away asks again after `w` seconds in which nobody else has: it is let through if and
      only if it waited as long as it was told. */
  method AskAgain(l: Limiter, now: real, w: real) returns (first: Result, second: Result)
    requires l.Valid() && l.rpm != null && Sound(l.rpm.Value()) && 0.0 <= w
    modifies l, l.rpm
    ensures first.allowed <==> Grants(old(l.rpm.Value()), 1.0, now)
    ensures !first.allowed ==> (second.allowed <==> w >= first.retryAfterSeconds)
  {
    ghost var b := l.rpm.Value();
    VerdictMeans(b, l.limits.rpm, 1.0, now, 0, w);
    first := l.AllowRPM(now);
    second := l.AllowRPM(l.rpm.lastFill + w);
  }

  /** The same for tokens, as long as what is asked for fits the bucket. */
  method ReserveAgain(l: Limiter, estimated: int, now: real, w: real) returns (first: Result, second: Result)
    requires l.Valid() && l.tpm != null && Sound(l.tpm.Value()) && 0.0 <= w && estimated <= l.limits.tpm
    modifies l, l.tpm
    ensures first.allowed <==> Grants(old(l.tpm.Value()), estimated as real, now)
    ensures !first.allowed ==> (second.allowed <==> w >= first.retryAfterSeconds)
  {
    ghost var b := l.tpm.Value();
    VerdictMeans(b, l.limits.tpm, estimated as real, now, 0, w);
    first := l.ConsumeTPM(estimated, now);
    second := l.ConsumeTPM(estimated, l.tpm.lastFill + w);
  }

  /** Asks, and then `k` times more at the same instant: it is let through as often as it was told remain, if it asks so
      often. */
  method AskOnAndOn(l: Limiter, now: real, k: nat) returns (first: Result, more: nat)
    requires l.Valid() && l.rpm != null && Sound(l.rpm.Value())
    modifies l, l.rpm
    ensures first.allowed ==> more == if k <= first.remaining then k else first.remaining
  {
    ghost var b := l.rpm.Value();
    RefillSound(b, now);
    first := l.AllowRPM(now);
    more := 0;
    ghost var had := l.rpm.Value();
    for i := 0 to k
      invariant first.allowed ==> l.rpm.Value() == had.(tokens := had.tokens - more as real)
      invariant first.allowed ==> more == if i <= first.remaining then i else first.remaining
    {
      FloorMeans(had.tokens, more + 1);
      var r := l.AllowRPM(now);
      if r.allowed {
        more := more + 1;
      }
    }
  }

  // ---------------------------------------------------- a forgotten bucket

  /** A bucket that nothing was taken from or looked at for a minute is full. */
  lemma IdleIsFull(b: Level, limit: int, at: real)
    requires Sound(b) && limit > 0 && b.max == limit as real && b.rate == limit as real / 60.0
    requires at >= b.lastFill + 60.0
    ensures Refill(b, at) == Level(limit as real, limit as real, limit as real / 60.0, at)
  {
    AccrualMonotone(b.rate, 60.0, at - b.lastFill);
    PerMinute(limit as real, 60.0);
  }

  lemma NewStaysFull(limit: int, made: real, at: real)
    requires limit > 0 && made <= at
    ensures Refill(New(limit, made), at) == Level(limit as real, limit as real, limit as real / 60.0, at)
  {
    if made < at {
      Accrual(limit as real / 60.0, at - made);
    }
  }

  /** A bucket that was idle for a minute may be thrown away and made anew: no run that begins with a request or a
      look shows the difference, neither in what is granted nor in what is left. */
  lemma EvictionUnseen(b: Level, limit: int, made: real, ops: seq<Op>)
    requires Sound(b) && limit > 0 && b.max == limit as real && b.rate == limit as real / 60.0
    requires ops != [] && !ops[0].Correct? && b.lastFill + 60.0 <= ops[0].at && made <= ops[0].at
    ensures After(New(limit, made), ops) == After(b, ops) && Granted(New(limit, made), ops) == Granted(b, ops)
  {
    var op, rest, anew := ops[0], ops[1..], New(limit, made);
    IdleIsFull(b, limit, op.at);
    NewStaysFull(limit, made, op.at);
    assert Apply(b, op) == Apply(anew, op) && Grant(b, op) == Grant(anew, op);
    assert ops == [op] + rest;
    AfterOne(b, op);
    AfterOne(anew, op);
    AfterConcat(b, [op], rest);
    AfterConcat(anew, [op], rest);
  }

  /** A correction that comes first is another matter, because it does not refill: the old bucket would have swallowed
      it. A later look shows the difference until the new bucket has regained what the correction took. */
  lemma EvictionSeenByCorrection(b: Level, limit: int, made: real, delta: real, at: real)
    requires Sound(b) && limit > 0 && b.max == limit as real && b.rate == limit as real / 60.0
    requires b.lastFill + 60.0 <= at && made <= at
    ensures Refill(Adjust(New(limit, made), delta), at) == Refill(Adjust(b, delta), at) <==>
      delta >= 0.0 || Accrued(b.rate, at - made) >= Min(b.max, -delta)
  {
    IdleIsFull(Adjust(b, delta), limit, at);
    if made < at {
      Accrual(b.rate, at - made);
    } else {
      assert Accrued(b.rate, at - made) == 0.0;
    }
  }
}
