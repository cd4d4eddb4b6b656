/** The backoff strategies and the retry middleware's state from `retry.py`.
    Delays are whole seconds. */
module RetrySpec {
  import opened Messages
  import opened Arithmetic

  function Pow(b: nat, e: nat): nat {
    if e == 0 then 1 else b * Pow(b, e - 1)
  }

  function Min(a: nat, b: nat): nat {
    if a <= b then a else b
  }

  /** `ExponentialBackoff` and `ConstantBackoff`: immutable configuration,
      so values. */
  datatype Backoff =
    | Exponential(base: nat := 1, factor: nat := 2, maxDelay: nat := 60)
    | Constant(seconds: nat := 10)
  {

    /** `get_delay(attempt)`: `min(base * factor ** attempt, max_delay)`, or
        the constant. */
    function GetDelay(attempt: nat): (d: nat)
      ensures Exponential? ==> d <= maxDelay
      ensures Exponential? && base * Pow(factor, attempt) <= maxDelay ==> d == base * Pow(factor, attempt)
      ensures Exponential? && base * Pow(factor, attempt) > maxDelay ==> d == maxDelay
      ensures Constant? ==> d == seconds
    {
      match this
      case Exponential(b, f, m) => Min(b * Pow(f, attempt), m)
      case Constant(s) => s
    }
  }

  /** `ExponentialBackoff()` with its default arguments. */
  const DefaultBackoff: Backoff := Exponential()

  /** Retry's state: the configured number of tries, its backoff and the
      attempt counter that lives on the instance. */
  datatype RetryState = RetryState(retries: int, backoff: Backoff, attempt: nat)

  /** `__init__(retries=3, backoff=None)`: `backoff or ExponentialBackoff()`.
      A new retry lets its first attempt through exactly when `retries` is
      positive, and without a backoff of its own it waits `min(2 ** k, 60)`
      seconds after its `k`-th failure. */
  function Fresh(retries: int := 3, backoff: Option<Backoff> := None): (r: RetryState)
    ensures r.attempt == 0 && r.retries == retries
    ensures AllowRequest(r) <==> retries > 0
    ensures backoff.Some? ==> r.backoff == backoff.value
    ensures backoff.None? ==> forall k: nat :: r.backoff.GetDelay(k) == Min(Pow(2, k), 60)
  {
    RetryState(retries, match backoff case Some(b) => b case None => DefaultBackoff, 0)
  }

  /** `allow_request`. */
  predicate AllowRequest(r: RetryState) {
    r.attempt < r.retries
  }

  /** A constant backoff asks for the same delay whatever the attempt. */
  lemma ConstantIgnoresAttempt(seconds: nat, m: nat, n: nat)
    ensures Constant(seconds).GetDelay(m) == Constant(seconds).GetDelay(n) == seconds
  {
  }

  lemma {:induction false} PowMonotone(b: nat, m: nat, n: nat)
    requires b >= 1 && m <= n
    ensures Pow(b, m) <= Pow(b, n)
    decreases n
  {
    if m < n {
      PowMonotone(b, m, n - 1);
      assert Pow(b, n) == b * Pow(b, n - 1);
      assert Pow(b, n - 1) <= b * Pow(b, n - 1);
    }
  }

  /** With a factor of at least one the exponential delay never shrinks from
      one attempt to a later one. */
  lemma ExponentialMonotone(base: nat, factor: nat, maxDelay: nat, m: nat, n: nat)
    requires factor >= 1 && m <= n
    ensures Exponential(base, factor, maxDelay).GetDelay(m) <= Exponential(base, factor, maxDelay).GetDelay(n)
  {
    PowMonotone(factor, m, n);
    MulMonotone(base, Pow(factor, m), Pow(factor, n));
  }

  /** The default backoff doubles from one second: 2, 4, 8, 16, 32 and then the
      60-second cap. */
  lemma DefaultBackoffDoublesToCap()
    ensures DefaultBackoff.GetDelay(1) == 2 && DefaultBackoff.GetDelay(5) == 32
    ensures forall n: nat :: n >= 6 ==> DefaultBackoff.GetDelay(n) == 60
  {
    assert Pow(2, 5) == 32;
    forall n: nat | n >= 6 ensures DefaultBackoff.GetDelay(n) == 60 {
      PowMonotone(2, 6, n);
      assert Pow(2, 6) == 64;
    }
  }
}
