/**
 What the worker does with a failed attempt: retry or give up, and how long to wait.
 Jitter is a real number in [0, 1]; the rounding of a floating-point jitter is not modelled.
 */
module RetryPolicy {
  import opened Common
  import opened Jobs

  datatype Settings = Settings(maxAttempts: nat, visibilityTimeout: nat, baseBackoff: nat, maxBackoff: nat)

  /** The error taxonomy of the scoring provider. */
  datatype LlmError =
    | Transient(errorType: ErrorType, message: string)
    | Permanent(message: string)
    | InvalidResponse(message: string)
  {
    function Type(): ErrorType {
      match this
      case Transient(t, _) => t
      case Permanent(_) => ClientError
      case InvalidResponse(_) => InvalidLlmResponse
    }
  }

  datatype RetryDecision = RetryDecision(retry: bool, errorType: ErrorType, backoff: nat)

  function Pow2(n: nat): (p: nat)
    ensures p >= 1
  {
    if n == 0 then 1 else 2 * Pow2(n - 1)
  }

  /** The window before jitter. */
  function Cap(attempt: int, base: nat, maximum: nat): nat {
    Min(maximum, base * Pow2(Max(0, attempt - 1)))
  }

  predicate Jitter(j: real) {
    0.0 <= j <= 1.0
  }

  /** A window scaled by a factor between one half and one, truncated to whole seconds. */
  function Scaled(window: nat, jitter: real): int {
    ((window as real) * (0.5 + 0.5 * jitter)).Floor
  }

  function Backoff(attempt: int, base: nat, maximum: nat, jitter: real): nat
    requires Jitter(jitter)
  {
    Max(1, Scaled(Cap(attempt, base, maximum), jitter))
  }

  function DecideRetry(error: LlmError, attempt: nat, c: Settings, jitter: real): RetryDecision
    requires Jitter(jitter)
  {
    var delay := Backoff(attempt, c.baseBackoff, c.maxBackoff, jitter);
    match error
    case Permanent(_) => RetryDecision(false, error.Type(), delay)
    case InvalidResponse(_) => RetryDecision(attempt < Min(2, c.maxAttempts), error.Type(), delay)
    case Transient(_, _) =>
      if attempt >= c.maxAttempts then RetryDecision(false, MaxAttemptsExhausted, delay)
      else RetryDecision(true, error.Type(), delay)
  }

  // ----- The delay stays in its window and grows -----------------------------------------------

  lemma {:induction false} Pow2Monotone(a: nat, b: nat)
    requires a <= b
    ensures Pow2(a) <= Pow2(b)
  {
    if a < b {
      Pow2Monotone(a, b - 1);
    }
  }

  lemma ProductNotNegative(x: real, y: real)
    requires x >= 0.0 && y >= 0.0
    ensures x * y >= 0.0
  {
  }

  lemma ProductMonotone(x: real, y: real, f: real)
    requires x <= y && f >= 0.0
    ensures x * f <= y * f
  {
    ProductNotNegative(y - x, f);
    assert (y - x) * f == y * f - x * f;
  }

  lemma ScaledWindow(window: nat, j: real)
    requires Jitter(j)
    ensures window / 2 <= Scaled(window, j) <= window
  {
    var c, f := window as real, 0.5 + 0.5 * j;
    ProductMonotone(0.5, f, c);
    ProductMonotone(f, 1.0, c);
    assert f * c == c * f;
    assert (window / 2) as real <= 0.5 * c <= c * f <= c;
    assert Scaled(window, j) == (c * f).Floor;
  }

  lemma ScaledMonotone(a: nat, b: nat, j: real)
    requires a <= b && Jitter(j)
    ensures Scaled(a, j) <= Scaled(b, j)
  {
    var f := 0.5 + 0.5 * j;
    ProductMonotone(a as real, b as real, f);
    assert Scaled(a, j) == ((a as real) * f).Floor && Scaled(b, j) == ((b as real) * f).Floor;
  }

  lemma ScaledAtEnds(window: nat)
    ensures Scaled(window, 0.0) == window / 2 && Scaled(window, 1.0) == window
  {
    var c := window as real;
    assert c * (0.5 + 0.5 * 0.0) == c / 2.0;
    assert c * (0.5 + 0.5 * 1.0) == c;
    assert (window / 2) as real <= c / 2.0 < (window / 2 + 1) as real;
  }

  lemma CapPositive(attempt: int, base: nat, maximum: nat)
    requires base >= 1 && maximum >= 1
    ensures 1 <= Cap(attempt, base, maximum) <= maximum
  {
    var p := Pow2(Max(0, attempt - 1));
    assert base * p >= 1 by { assert base * p >= 1 * p || base * p >= base * 1; }
  }

  lemma FullDelayIsCap(attempt: int, base: nat, maximum: nat)
    ensures Backoff(attempt, base, maximum, 1.0) == Max(1, Cap(attempt, base, maximum))
  {
    ScaledAtEnds(Cap(attempt, base, maximum));
  }

  /** Up to the first attempt the longest delay is the base, within the maximum and at least a second. */
  lemma FirstDelay(attempt: int, base: nat, maximum: nat)
    requires attempt <= 1
    ensures Backoff(attempt, base, maximum, 1.0) == Max(1, Min(maximum, base))
  {
    FullDelayIsCap(attempt, base, maximum);
  }

  /** From then on each attempt doubles the longest delay, within the maximum. */
  lemma DelayDoubles(attempt: nat, base: nat, maximum: nat)
    requires attempt >= 1 && base >= 1 && maximum >= 1
    ensures Backoff(attempt + 1, base, maximum, 1.0) == Min(maximum, 2 * Backoff(attempt, base, maximum, 1.0))
  {
    FullDelayIsCap(attempt, base, maximum);
    FullDelayIsCap(attempt + 1, base, maximum);
    CapPositive(attempt, base, maximum);
    CapPositive(attempt + 1, base, maximum);
    NextCap(attempt, base, maximum);
  }

  /**
   The window is half the longest delay, at least one second, up to the longest delay, which never
   exceeds the maximum; within it the delay is linear in the jitter, cut down to whole seconds. With
   FirstDelay and DelayDoubles, which fix the longest delay, this is every delay there is.
   */
  lemma BackoffWindow(attempt: int, base: nat, maximum: nat, j: real)
    requires base >= 1 && maximum >= 1 && Jitter(j)
    ensures var longest := Backoff(attempt, base, maximum, 1.0);
            && Max(1, longest / 2) <= Backoff(attempt, base, maximum, j) <= longest <= maximum
            && Backoff(attempt, base, maximum, 0.0) == Max(1, longest / 2)
            && Backoff(attempt, base, maximum, j) == Max(1, ((longest as real) * (0.5 + 0.5 * j)).Floor)
  {
    CapPositive(attempt, base, maximum);
    FullDelayIsCap(attempt, base, maximum);
    ScaledWindow(Cap(attempt, base, maximum), j);
    ScaledAtEnds(Cap(attempt, base, maximum));
  }

  lemma CapMonotone(a: int, b: int, base: nat, maximum: nat)
    requires a <= b
    ensures Cap(a, base, maximum) <= Cap(b, base, maximum)
  {
    var p, q := Pow2(Max(0, a - 1)), Pow2(Max(0, b - 1));
    Pow2Monotone(Max(0, a - 1), Max(0, b - 1));
    assert base * p <= base * q;
  }

  /** With the same jitter a later attempt never waits less. */
  lemma BackoffMonotone(a: int, b: int, base: nat, maximum: nat, j: real)
    requires a <= b && Jitter(j)
    ensures Backoff(a, base, maximum, j) <= Backoff(b, base, maximum, j)
  {
    CapMonotone(a, b, base, maximum);
    ScaledMonotone(Cap(a, base, maximum), Cap(b, base, maximum), j);
  }

  lemma NextCap(attempt: nat, base: nat, maximum: nat)
    requires attempt >= 1
    ensures base * Pow2(attempt) == 2 * (base * Pow2(attempt - 1))
    ensures Cap(attempt, base, maximum) == Min(maximum, base * Pow2(attempt - 1))
    ensures Cap(attempt + 1, base, maximum) == Min(maximum, base * Pow2(attempt))
  {
  }

  /**
   Whatever the two jitters are, the next attempt waits at least as long as this one: exactly while
   twice the longest delay still fits under the maximum (or the maximum is one second).
   */
  lemma NextDelayNotShorter(attempt: nat, base: nat, maximum: nat)
    requires attempt >= 1 && base >= 1 && maximum >= 1
    ensures (forall j, k | Jitter(j) && Jitter(k) ::
               Backoff(attempt, base, maximum, j) <= Backoff(attempt + 1, base, maximum, k))
            <==> (2 * Backoff(attempt, base, maximum, 1.0) <= maximum || maximum == 1)
  {
    var raw := base * Pow2(attempt - 1);
    NextCap(attempt, base, maximum);
    var c, d := Cap(attempt, base, maximum), Cap(attempt + 1, base, maximum);
    CapPositive(attempt, base, maximum);
    FullDelayIsCap(attempt, base, maximum);
    if base * Pow2(attempt) <= maximum || maximum == 1 {
      forall j, k | Jitter(j) && Jitter(k)
        ensures Backoff(attempt, base, maximum, j) <= Backoff(attempt + 1, base, maximum, k)
      {
        ScaledWindow(c, j);
        ScaledWindow(d, k);
      }
    } else {
      ScaledAtEnds(c);
      ScaledAtEnds(d);
      assert Jitter(1.0) && Jitter(0.0);
      assert Backoff(attempt, base, maximum, 1.0) > Backoff(attempt + 1, base, maximum, 0.0);
    }
  }

  // ----- The decision --------------------------------------------------------------------------

  /** A retry is granted only below the cap, never after a permanent error, and keeps the error's own type. */
  lemma RetryOnlyBelowCap(error: LlmError, attempt: nat, c: Settings, j: real)
    requires Jitter(j)
    ensures var d := DecideRetry(error, attempt, c, j);
            && (d.retry ==> attempt < c.maxAttempts && !error.Permanent? && d.errorType == error.Type())
            && (!d.retry ==> d.errorType == if error.Transient? then MaxAttemptsExhausted else error.Type())
  {
  }

  /**
   An invalid response is said to get exactly one more chance. What the decision looks at is the
   attempt number, so it gets that chance only when it is the very first attempt.
   */
  lemma InvalidResponseRetriedOnlyFirst(message: string, attempt: nat, c: Settings, j: real)
    requires Jitter(j) && attempt >= 1
    ensures DecideRetry(InvalidResponse(message), attempt, c, j).retry <==> attempt == 1 && c.maxAttempts >= 2
  {
  }

  /** A first invalid response that follows one transient error gets no further chance. */
  lemma InvalidAfterTransientGetsNoChance(c: Settings, j: real, t: ErrorType)
    requires Jitter(j) && c.maxAttempts >= 3
    ensures DecideRetry(Transient(t, ""), 1, c, j).retry
    ensures !DecideRetry(InvalidResponse(""), 2, c, j).retry
  {
  }
}
