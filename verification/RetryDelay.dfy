/** The worker's backoff: exponential with a cap and jitter, never below half the
    base nor below what the server asked for. Durations are whole nanoseconds,
    computed in real arithmetic. */
module RetryDelay {
  import opened Results
  import opened Domain

  datatype Policy = Policy(base: int, max: int, maxAttempts: int, jitter: real)

  /** What the job's validate() demands of a policy. */
  predicate ValidPolicy(p: Policy) {
    0 < p.base <= p.max && p.maxAttempts > 0 && 0.0 <= p.jitter <= 1.0
  }

  const EXPONENT_LIMIT := 30

  function Power2(e: nat): (p: int)
    ensures p >= 1
  {
    if e == 0 then 1 else 2 * Power2(e - 1)
  }

  function Exponent(attempt: int): nat {
    if attempt < 1 then 0 else if attempt - 1 > EXPONENT_LIMIT then EXPONENT_LIMIT else attempt - 1
  }

  /** Before jitter. */
  function Capped(p: Policy, attempt: int): int {
    var delay := p.base * Power2(Exponent(attempt));
    if delay > p.max then p.max else delay
  }

  /** The factor a random draw in [0, 1) gives. */
  function Factor(p: Policy, draw: real): real {
    1.0 + (draw * 2.0 - 1.0) * p.jitter
  }

  function Jittered(capped: int, factor: real, half: real): real {
    var delay := capped as real * factor;
    if delay < half then half else delay
  }

  function AtLeast(delay: int, retryAfter: int): int {
    if retryAfter > delay then retryAfter else delay
  }

  /** time.Duration truncates; the value is never negative. */
  function Delay(p: Policy, attempt: int, retryAfter: int, draw: real): int {
    AtLeast(Jittered(Capped(p, attempt), Factor(p, draw), p.base as real / 2.0).Floor, retryAfter)
  }

  /** DeliveryRetryDelay, as the worker computes it: one local at a time. */
  method DeliveryRetryDelay(p: Policy, attempt: int, retryAfter: int, draw: real) returns (result: int)
    ensures result == Delay(p, attempt, retryAfter, draw)
  {
    var number := attempt;
    if number < 1 {
      number := 1;
    }
    var exponent := number - 1;
    if exponent > EXPONENT_LIMIT {
      exponent := EXPONENT_LIMIT;
    }
    var delay := p.base * Power2(exponent);
    if delay > p.max {
      delay := p.max;
    }
    result := Jitter(delay, Factor(p, draw), p.base as real / 2.0);
    if retryAfter > result {
      result := retryAfter;
    }
  }

  method Jitter(capped: int, factor: real, half: real) returns (result: int)
    ensures result == Jittered(capped, factor, half).Floor
  {
    var delay := capped as real;
    delay := delay * factor;
    if delay < half {
      delay := half;
    }
    result := delay.Floor;
  }

  /** The floor of the backoff: half the base, or the server's request. */
  lemma HalfBase(p: Policy, attempt: int, retryAfter: int, draw: real)
    ensures Delay(p, attempt, retryAfter, draw) >= retryAfter
    ensures Delay(p, attempt, retryAfter, draw) >= p.base / 2
  {
    assert (p.base / 2) as real <= p.base as real / 2.0;
    FloorAtLeast(Jittered(Capped(p, attempt), Factor(p, draw), p.base as real / 2.0), p.base / 2);
  }

  lemma FloorAtLeast(x: real, n: int)
    requires x >= n as real
    ensures x.Floor >= n
  {
  }

  lemma FactorBounds(p: Policy, draw: real)
    requires ValidPolicy(p) && 0.0 <= draw <= 1.0
    ensures 0.0 <= 1.0 - p.jitter <= Factor(p, draw) <= 1.0 + p.jitter
  {
    var x := draw * 2.0 - 1.0;
    NonNegative(1.0 - x, p.jitter);
    NonNegative(1.0 + x, p.jitter);
    assert (1.0 - x) * p.jitter == p.jitter - x * p.jitter;
    assert (1.0 + x) * p.jitter == p.jitter + x * p.jitter;
  }

  lemma NonNegative(a: real, b: real)
    requires a >= 0.0 && b >= 0.0
    ensures a * b >= 0.0
  {
  }

  /** The ceiling: the server's request, or the cap with the largest jitter. */
  lemma NeverAbove(p: Policy, attempt: int, retryAfter: int, draw: real)
    requires ValidPolicy(p) && 0.0 <= draw <= 1.0
    ensures Delay(p, attempt, retryAfter, draw) <= retryAfter
            || Delay(p, attempt, retryAfter, draw) as real <= p.max as real * (1.0 + p.jitter)
  {
    FactorBounds(p, draw);
    assert Capped(p, attempt) as real * Factor(p, draw) <= p.max as real * (1.0 + p.jitter) by {
      CapIsPositive(p, attempt);
      Scale(Capped(p, attempt) as real, p.max as real, Factor(p, draw), 1.0 + p.jitter);
    }
    assert p.base as real / 2.0 <= p.max as real * (1.0 + p.jitter) by {
      Scale(p.max as real, p.max as real, 1.0, 1.0 + p.jitter);
    }
  }

  lemma CapIsPositive(p: Policy, attempt: int)
    requires ValidPolicy(p)
    ensures 0 < Capped(p, attempt) <= p.max
  {
    Product(p.base, 1, Power2(Exponent(attempt)));
  }

  lemma Scale(a: real, b: real, x: real, y: real)
    requires 0.0 <= a <= b && x <= y && 0.0 <= y
    ensures a * x <= b * y
  {
    NonNegative(a, y - x);
    NonNegative(b - a, y);
    assert a * (y - x) == a * y - a * x;
    assert (b - a) * y == b * y - a * y;
  }

  lemma {:induction false} PowerGrows(d: nat, e: nat)
    requires d <= e
    ensures Power2(d) <= Power2(e)
  {
    if d == e {
    } else {
      PowerGrows(d, e - 1);
    }
  }

  /** For a fixed random draw the delay never shrinks from one attempt to a later one. */
  lemma MonotoneInAttempt(p: Policy, a: int, b: int, retryAfter: int, draw: real)
    requires ValidPolicy(p) && 0.0 <= draw <= 1.0
    requires a <= b
    ensures Delay(p, a, retryAfter, draw) <= Delay(p, b, retryAfter, draw)
  {
    CappedMonotone(p, a, b);
    CapIsPositive(p, a);
    FactorBounds(p, draw);
    JitterGrows(Capped(p, a), Capped(p, b), Factor(p, draw), p.base as real / 2.0, retryAfter);
  }

  lemma JitterGrows(x: int, y: int, factor: real, half: real, retryAfter: int)
    requires 0 <= x <= y && 0.0 <= factor
    ensures AtLeast(Jittered(x, factor, half).Floor, retryAfter) <= AtLeast(Jittered(y, factor, half).Floor, retryAfter)
  {
    Scale(x as real, y as real, factor, factor);
    FloorMonotone(Jittered(x, factor, half), Jittered(y, factor, half));
  }

  lemma CappedMonotone(p: Policy, a: int, b: int)
    requires ValidPolicy(p) && a <= b
    ensures Capped(p, a) <= Capped(p, b)
  {
    PowerGrows(Exponent(a), Exponent(b));
    Product(p.base, Power2(Exponent(a)), Power2(Exponent(b)));
  }

  lemma Product(m: int, x: int, y: int)
    requires m >= 0 && x <= y
    ensures m * x <= m * y
  {
  }

  lemma FloorMonotone(x: real, y: real)
    requires x <= y
    ensures x.Floor <= y.Floor
  {
  }

  // ---------- growth ----------

  /** Without jitter and without a request of the server, the first attempt waits the
      base, each later one twice as long as the one before it but never longer than
      the maximum, and from the 31st on the wait stays as it is. */
  lemma GrowthIsExact(p: Policy, attempt: int, draw: real)
    requires ValidPolicy(p) && (draw == 0.5 || p.jitter == 0.0)
    ensures attempt <= 1 ==> Delay(p, attempt, 0, draw) == p.base
    ensures 1 <= attempt <= 30 ==>
              var twice := 2 * Delay(p, attempt, 0, draw);
              Delay(p, attempt + 1, 0, draw) == if twice < p.max then twice else p.max
    ensures attempt >= 31 ==> Delay(p, attempt, 0, draw) == Delay(p, 31, 0, draw)
  {
    NoJitter(p, attempt, draw);
    NoJitter(p, attempt + 1, draw);
    NoJitter(p, 31, draw);
    if attempt <= 1 {
      assert Exponent(attempt) == 0 && Power2(0) == 1;
    } else if attempt <= 30 {
      DoubledProduct(p.base, Power2(attempt - 1));
    }
    if attempt == 1 {
      assert Power2(1) == 2;
    }
  }

  lemma DoubledProduct(base: int, power: int)
    ensures base * (2 * power) == 2 * (base * power)
  {
  }

  /** With the neutral draw, or without jitter, the wait is the capped power. */
  lemma NoJitter(p: Policy, attempt: int, draw: real)
    requires ValidPolicy(p) && (draw == 0.5 || p.jitter == 0.0)
    ensures Delay(p, attempt, 0, draw) == Capped(p, attempt) >= p.base
  {
    assert Factor(p, draw) == 1.0;
    CapIsLarge(p, attempt);
    assert Jittered(Capped(p, attempt), 1.0, p.base as real / 2.0) == Capped(p, attempt) as real;
  }

  lemma CapIsLarge(p: Policy, attempt: int)
    requires ValidPolicy(p)
    ensures Capped(p, attempt) >= p.base
  {
    Product(p.base, 1, Power2(Exponent(attempt)));
  }

  /** The factor is 1 + (2 draw - 1) jitter. */
  lemma FactorIsExact(p: Policy, draw: real)
    ensures Factor(p, draw) == 1.0 + (2.0 * draw - 1.0) * p.jitter
  {
    assert draw * 2.0 == 2.0 * draw;
  }

  /** For any draw the wait is the neutral one times the factor, at least half the
      base, rounded down, and at least what the server asks for. */
  lemma JitterIsExact(p: Policy, attempt: int, retryAfter: int, draw: real)
    requires ValidPolicy(p)
    ensures Delay(p, attempt, retryAfter, draw) ==
            Waited(Delay(p, attempt, 0, 0.5), Factor(p, draw), p.base as real / 2.0, retryAfter)
  {
    NoJitter(p, attempt, 0.5);
    JitterOf(Capped(p, attempt), Factor(p, draw), p.base as real / 2.0, retryAfter);
  }

  function Waited(neutral: int, factor: real, least: real, retryAfter: int): int {
    var own := (if neutral as real * factor < least then least else neutral as real * factor).Floor;
    if own < retryAfter then retryAfter else own
  }

  lemma JitterOf(capped: int, factor: real, half: real, retryAfter: int)
    ensures AtLeast(Jittered(capped, factor, half).Floor, retryAfter) == Waited(capped, factor, half, retryAfter)
  {
  }

  // ---------- classification of send errors ----------

  /** What the sender reports when it does not confirm a delivery; None stands for
      an error it could not classify. */
  datatype SendError = SendError(result: ResultClass, code: string, retryAfter: int)

  datatype Verdict = Verdict(result: ResultClass, code: string, nextAttemptAt: int)

  /** classifyDeliveryFailure. The code is already trimmed; the zero time stands
      for a failure that schedules nothing. */
  function Classify(error: Option<SendError>, attempt: int, p: Policy, now: int, draw: real): Verdict {
    match error
    case None => Verdict(Ambiguous, "unclassified_transport_error", 0)
    case Some(e) =>
      var code := if e.code == "" then "delivery_send_failed" else e.code;
      if e.result != Retryable then Verdict(e.result, code, 0)
      else if attempt >= p.maxAttempts then Verdict(Permanent, "attempts_exhausted", 0)
      else Verdict(Retryable, code, now + Delay(p, attempt, e.retryAfter, draw))
  }

  /** What becomes of an error: one nobody could classify is ambiguous, one without
      attempts left is permanent, any other is what the sender called it, with the
      sender's code if it gave one. Only a retryable one is scheduled. */
  lemma VerdictIsExact(error: Option<SendError>, attempt: int, p: Policy, now: int, draw: real)
    ensures var v := Classify(error, attempt, p, now, draw);
            && (error.None? ==> v.result == Ambiguous && v.code == "unclassified_transport_error")
            && (error.Some? ==>
                  var exhausted := error.value.result == Retryable && attempt >= p.maxAttempts;
                  && v.result == (if exhausted then Permanent else error.value.result)
                  && v.code == (if exhausted then "attempts_exhausted"
                                else if error.value.code == "" then "delivery_send_failed" else error.value.code))
            && v.nextAttemptAt ==
               (if v.result == Retryable then now + Delay(p, attempt, error.value.retryAfter, draw) else 0)
  {
  }

  /** Only an error the sender itself called retryable is finalised as retryable,
      only while attempts are left, and never for an earlier time than allowed. */
  lemma RetryableOnlyOnEvidence(error: Option<SendError>, attempt: int, p: Policy, now: int, draw: real)
    ensures Classify(error, attempt, p, now, draw).result == Retryable <==>
              error.Some? && error.value.result == Retryable && attempt < p.maxAttempts
    ensures Classify(error, attempt, p, now, draw).result == Retryable ==>
              && Classify(error, attempt, p, now, draw).nextAttemptAt >= now + error.value.retryAfter
              && Classify(error, attempt, p, now, draw).nextAttemptAt >= now + p.base / 2
  {
    if error.Some? {
      HalfBase(p, attempt, error.value.retryAfter, draw);
    }
  }
}
