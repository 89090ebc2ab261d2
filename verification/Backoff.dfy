/** Retry delays and the retry budget, in exact arithmetic. */
module Backoff {
  import opened Prelude

  datatype Strategy = Fixed | Exponential

  datatype BackoffPolicy = BackoffPolicy(strategy: Strategy, baseDelay: int, maxDelay: int, multiplier: real) {

    /** The ranges the submission request admits. */
    predicate Valid() {
      0 <= baseDelay && 1 <= maxDelay && 1.0 <= multiplier
    }

    /** The delay after `growths` multiplications, before the cap. */
    function Uncapped(growths: nat): int {
      Truncate(baseDelay as real * Pow(multiplier, growths))
    }

    function DelayForAttempt(attempt: int): int {
      if strategy == Exponential then
        Min(Uncapped(Max(attempt - 1, 0)), maxDelay)
      else
        baseDelay
    }
  }

  const DEFAULT_POLICY := BackoffPolicy(Fixed, 5, 300, 2.0)

  function Pow(x: real, n: nat): real {
    if n == 0 then 1.0 else x * Pow(x, n - 1)
  }

  /** Conversion to an integer drops the fraction, towards zero. */
  function Truncate(x: real): int {
    if x >= 0.0 then x.Floor else -(-x).Floor
  }

  /** The number of executions a task gets before it is dead-lettered. */
  function Budget(maxRetries: nat): nat {
    Max(1, maxRetries)
  }

  /** Sum of the delays before retries 1 to `retries`. */
  function TotalDelay(p: BackoffPolicy, retries: nat): int {
    if retries == 0 then 0 else TotalDelay(p, retries - 1) + p.DelayForAttempt(retries)
  }

  lemma {:induction false} PowGrows(x: real, m: nat, n: nat)
    requires 1.0 <= x && m <= n
    ensures 1.0 <= Pow(x, m) <= Pow(x, n)
    decreases n
  {
    if n > 0 {
      PowGrows(x, if m == n then m - 1 else m, n - 1);
      if m == n {
        PowGrows(x, m - 1, m - 1);
        ProductAtLeast(x, Pow(x, m - 1));
      } else {
        ProductAtLeast(x, Pow(x, n - 1));
      }
    }
  }

  lemma ProductAtLeast(x: real, y: real)
    requires 1.0 <= x && 1.0 <= y
    ensures x * y >= y >= 1.0
  {}

  lemma ScaledOrder(base: real, x: real, y: real)
    requires 0.0 <= base && 0.0 <= x <= y
    ensures 0.0 <= base * x <= base * y
  {}

  lemma TruncateOrder(x: real, y: real)
    requires 0.0 <= x <= y
    ensures 0 <= Truncate(x) <= Truncate(y)
  {}

  lemma UncappedGrows(p: BackoffPolicy, m: nat, n: nat)
    requires p.Valid() && m <= n
    ensures 0 <= p.Uncapped(m) <= p.Uncapped(n)
  {
    PowGrows(p.multiplier, m, n);
    ScaledOrder(p.baseDelay as real, Pow(p.multiplier, m), Pow(p.multiplier, n));
    TruncateOrder(p.baseDelay as real * Pow(p.multiplier, m), p.baseDelay as real * Pow(p.multiplier, n));
  }

  /**
   * The delay an exponential policy gives before the retry of attempt `attempt`, an attempt below 1 counting as the
   * first: the base times the multiplier for each attempt after the first, its fraction dropped, or the cap if it
   * gets there.
   */
  lemma DelayIsCappedPower(p: BackoffPolicy, attempt: int)
    requires p.Valid()
    ensures p.strategy == Exponential ==>
      var x := p.baseDelay as real * Pow(p.multiplier, if attempt < 1 then 0 else attempt - 1);
      var d := p.DelayForAttempt(attempt);
      if x >= p.maxDelay as real then d == p.maxDelay else d as real <= x < (d + 1) as real
    ensures p.strategy == Fixed ==> p.DelayForAttempt(attempt) == p.baseDelay
  {
    UncappedGrows(p, Max(attempt - 1, 0), Max(attempt - 1, 0));
    var x := p.baseDelay as real * Pow(p.multiplier, Max(attempt - 1, 0));
    PowGrows(p.multiplier, Max(attempt - 1, 0), Max(attempt - 1, 0));
    ScaledOrder(p.baseDelay as real, 1.0, Pow(p.multiplier, Max(attempt - 1, 0)));
    assert x.Floor as real <= x < (x.Floor + 1) as real;
  }

  /** A later attempt never waits less. */
  lemma DelayNonDecreasing(p: BackoffPolicy, early: int, late: int)
    requires p.Valid() && early <= late
    ensures 0 <= p.DelayForAttempt(early) <= p.DelayForAttempt(late)
  {
    UncappedGrows(p, Max(early - 1, 0), Max(late - 1, 0));
  }

  /** Exponential delays are capped, and stay at the cap once they reach it. */
  lemma CapIsAbsorbing(p: BackoffPolicy, early: int, late: int)
    requires p.Valid() && p.strategy == Exponential && early <= late
    ensures p.DelayForAttempt(late) <= p.maxDelay
    ensures p.DelayForAttempt(early) == p.maxDelay ==> p.DelayForAttempt(late) == p.maxDelay
  {
    DelayNonDecreasing(p, early, late);
  }

  /** Time spent waiting over a whole retry budget of max(1, maxRetries) executions. */
  lemma TotalDelayOverBudget(p: BackoffPolicy, maxRetries: nat)
    requires p.Valid()
    ensures p.strategy == Fixed ==> TotalDelay(p, Budget(maxRetries) - 1) == (Budget(maxRetries) - 1) * p.baseDelay
    ensures p.strategy == Exponential ==>
      0 <= TotalDelay(p, Budget(maxRetries) - 1) <= (Budget(maxRetries) - 1) * p.maxDelay
  {
    TotalDelayBounds(p, Budget(maxRetries) - 1);
  }

  lemma {:induction false} TotalDelayBounds(p: BackoffPolicy, n: nat)
    requires p.Valid()
    ensures p.strategy == Fixed ==> TotalDelay(p, n) == n * p.baseDelay
    ensures p.strategy == Exponential ==> 0 <= TotalDelay(p, n) <= n * p.maxDelay
  {
    if n > 0 {
      TotalDelayBounds(p, n - 1);
      DelayNonDecreasing(p, n, n);
      assert n * p.baseDelay == (n - 1) * p.baseDelay + p.baseDelay;
      assert n * p.maxDelay == (n - 1) * p.maxDelay + p.maxDelay;
    }
  }

  function IntPow(k: nat, n: nat): nat {
    if n == 0 then 1 else k * IntPow(k, n - 1)
  }

  lemma {:induction false} PowOfInt(k: nat, n: nat)
    ensures Pow(k as real, n) == IntPow(k, n) as real
  {
    if n > 0 {
      PowOfInt(k, n - 1);
      ProductAsReal(k, IntPow(k, n - 1));
    }
  }

  lemma ProductAsReal(a: int, b: int)
    ensures (a * b) as real == a as real * b as real
  {}

  lemma {:induction false} IntPowGrows(k: nat, m: nat, n: nat)
    requires 1 <= k && m <= n
    ensures 1 <= IntPow(k, m) <= IntPow(k, n)
    decreases n
  {
    if m < n {
      IntPowGrows(k, m, n - 1);
      assert (k - 1) * IntPow(k, n - 1) >= 0;
    } else if n > 0 {
      IntPowGrows(k, m - 1, n - 1);
      assert (k - 1) * IntPow(k, n - 1) >= 0;
    }
  }

  lemma DelayBelowCap(p: BackoffPolicy, k: nat, a: nat)
    requires p.Valid() && p.strategy == Exponential && p.multiplier == k as real && 1 <= a
    requires p.baseDelay * IntPow(k, a - 1) <= p.maxDelay
    ensures p.DelayForAttempt(a) == p.baseDelay * IntPow(k, a - 1)
  {
    PowOfInt(k, a - 1);
    ProductAsReal(p.baseDelay, IntPow(k, a - 1));
    var x := p.baseDelay * IntPow(k, a - 1);
    assert x >= 0;
    assert (x as real).Floor == x;
  }

  /** Below saturation an integer multiplier gives the geometric sum. */
  lemma {:induction false} GeometricTotal(p: BackoffPolicy, k: nat, n: nat)
    requires p.Valid() && p.strategy == Exponential && p.multiplier == k as real && 2 <= k
    requires n > 0 ==> p.baseDelay * IntPow(k, n - 1) <= p.maxDelay
    ensures (k - 1) * TotalDelay(p, n) == p.baseDelay * (IntPow(k, n) - 1)
  {
    if n > 0 {
      var b, q, t := p.baseDelay, IntPow(k, n - 1), TotalDelay(p, n - 1);
      if n > 1 {
        IntPowGrows(k, n - 2, n - 1);
        ScaledIntOrder(b, IntPow(k, n - 2), q);
      }
      GeometricTotal(p, k, n - 1);
      DelayBelowCap(p, k, n);
      assert TotalDelay(p, n) == t + b * q;
      GeometricStep(k, b, q, t);
    }
  }

  lemma ScaledIntOrder(b: int, x: int, y: int)
    requires 0 <= b && x <= y
    ensures b * x <= b * y
  {}

  lemma GeometricStep(k: int, b: int, q: int, t: int)
    requires (k - 1) * t == b * (q - 1)
    ensures (k - 1) * (t + b * q) == b * (k * q - 1)
  {}
}
