/** The circuit breaker of `circuit_breaker.py` as values: its state record and
    the transitions `allow_request`, `reset`, `record_failure` and the
    bookkeeping `call` does once the wrapped function has returned or raised. */
module BreakerSpec {
  import opened Messages

  datatype State = Closed | Open | HalfOpen

  /** The state strings the source stores and prints. */
  function StateName(s: State): string {
    match s
    case Closed => "CLOSED"
    case Open => "OPEN"
    case HalfOpen => "HALF-OPEN"
  }

  const SecondsPerDay: int := 86400

  datatype Breaker = Breaker(
    failureThreshold: int,
    resetTimeout: int,
    failureCount: int,
    lastFailureTime: Option<int>,
    state: State)

  /** What every breaker reachable from the constructor satisfies: a breaker
      that is not CLOSED has seen at least `failureThreshold` failures and
      remembers when the last one happened. */
  ghost predicate Inv(b: Breaker) {
    && b.failureCount >= 0
    && (b.state != Closed ==> b.failureCount >= b.failureThreshold && b.lastFailureTime.Some?)
  }

  /** `__init__`: CLOSED, no failures, no failure time. */
  function Fresh(failureThreshold: int, resetTimeout: int): (b: Breaker)
    ensures Inv(b)
  {
    Breaker(failureThreshold, resetTimeout, 0, None, Closed)
  }

  /** `(now - last).seconds`: a timedelta keeps whole days apart, so its
      `seconds` field is the elapsed time in seconds modulo one day. */
  function SecondsField(now: int, last: int): (s: int)
    ensures 0 <= s < SecondsPerDay
    ensures 0 <= now - last < SecondsPerDay ==> s == now - last
  {
    (now - last) % SecondsPerDay
  }

  datatype Decision = Decision(allowed: bool, breaker: Breaker)

  /** `allow_request` at time `now`. Only an OPEN breaker can refuse; once the
      reset timeout has passed it turns HALF-OPEN and admits the call. */
  function AllowRequest(b: Breaker, now: int): (d: Decision)
    requires b.state == Open ==> b.lastFailureTime.Some?
    ensures Inv(b) ==> Inv(d.breaker)
    ensures d.breaker == b.(state := d.breaker.state)
    ensures d.breaker.state != b.state ==> b.state == Open && d.breaker.state == HalfOpen
    ensures !d.allowed ==> d.breaker == b && b.state == Open
  {
    if b.state == Open then
      if SecondsField(now, b.lastFailureTime.value) >= b.resetTimeout then
        Decision(true, b.(state := HalfOpen))
      else
        Decision(false, b)
    else
      Decision(true, b)
  }

  /** `reset`. */
  function Reset(b: Breaker): (r: Breaker)
    ensures Inv(b) ==> Inv(r)
  {
    b.(failureCount := 0, state := Closed)
  }

  /** `record_failure` at time `now`: count the failure, remember its time,
      and open the circuit once the count has reached the threshold. */
  function RecordFailure(b: Breaker, now: int): (r: Breaker)
    ensures Inv(b) ==> Inv(r)
    ensures r.failureThreshold == b.failureThreshold && r.resetTimeout == b.resetTimeout
    ensures r.failureCount == b.failureCount + 1 && r.lastFailureTime == Some(now)
    ensures r.failureCount >= r.failureThreshold ==> r.state == Open
    ensures r.failureCount < r.failureThreshold ==> r.state == b.state
  {
    var counted := b.(failureCount := b.failureCount + 1, lastFailureTime := Some(now));
    if counted.failureCount >= counted.failureThreshold then
      counted.(state := Open, lastFailureTime := Some(now))
    else
      counted
  }

  /** What `call` does to the breaker once the wrapped function has finished
      with `outcome` at time `now`: a success closes a HALF-OPEN breaker and
      leaves any other alone; a failure is recorded. */
  function AfterCall<T>(b: Breaker, outcome: Result<T>, now: int): (r: Breaker)
    ensures Inv(b) ==> Inv(r)
    ensures outcome.Ok? && b.state == HalfOpen ==> r.state == Closed && r.failureCount == 0
    ensures outcome.Ok? && b.state != HalfOpen ==> r == b
    ensures outcome.Err? ==> r == RecordFailure(b, now)
  {
    match outcome
    case Ok(_) => if b.state == HalfOpen then Reset(b) else b
    case Err(_) => RecordFailure(b, now)
  }

  /** The exception `call` raises when `allow_request` refuses. */
  function OpenError(b: Breaker): Exception {
    Exception("Circuit is " + StateName(b.state) + ", expect the timeout was expired")
  }

  /** A refused call always names the OPEN state. */
  lemma RefusalNamesOpen(b: Breaker, now: int)
    requires b.state == Open ==> b.lastFailureTime.Some?
    requires !AllowRequest(b, now).allowed
    ensures OpenError(AllowRequest(b, now).breaker)
         == Exception("Circuit is " + StateName(Open) + ", expect the timeout was expired")
  {
    assert AllowRequest(b, now).breaker.state == Open;
  }

  /** CLOSED and HALF-OPEN admit every call at every time and change nothing:
      HALF-OPEN does not limit the number of probing calls. */
  lemma NotOpenAlwaysAdmits(b: Breaker, now: int)
    requires b.state != Open
    ensures AllowRequest(b, now) == Decision(true, b)
  {
  }

  /** OPEN refuses, unchanged, while fewer than `resetTimeout` seconds have
      passed (as the seconds field counts them), and turns HALF-OPEN and admits
      from then on. */
  lemma OpenWaitsForTimeout(b: Breaker, now: int)
    requires Inv(b) && b.state == Open
    ensures SecondsField(now, b.lastFailureTime.value) < b.resetTimeout
            ==> AllowRequest(b, now) == Decision(false, b)
    ensures SecondsField(now, b.lastFailureTime.value) >= b.resetTimeout
            ==> AllowRequest(b, now) == Decision(true, b.(state := HalfOpen))
  {
  }

  /** Because only the seconds field of the elapsed time is compared, an OPEN
      breaker answers the same one whole day later as it does now. */
  lemma AllowIgnoresWholeDays(b: Breaker, now: int, days: nat)
    requires Inv(b)
    ensures AllowRequest(b, now + days * SecondsPerDay) == AllowRequest(b, now)
  {
    if b.state == Open {
      var last := b.lastFailureTime.value;
      ModuloDays(now - last, days);
      assert now + days * SecondsPerDay - last == (now - last) + days * SecondsPerDay;
    }
  }

  lemma {:induction false} ModuloDays(x: int, days: nat)
    ensures (x + days * SecondsPerDay) % SecondsPerDay == x % SecondsPerDay
  {
    if days > 0 {
      ModuloDays(x, days - 1);
      assert x + days * SecondsPerDay == (x + (days - 1) * SecondsPerDay) + SecondsPerDay;
    }
  }

  /** A breaker opened by its last failure one day and ten seconds ago, with a
      one-minute reset timeout, still refuses. */
  lemma OpenAfterOneDayStillRefuses(b: Breaker, now: int)
    requires Inv(b) && b.state == Open && b.resetTimeout == 60
    requires b.lastFailureTime == Some(now - SecondsPerDay - 10)
    ensures !AllowRequest(b, now).allowed
  {
    assert SecondsField(now, now - SecondsPerDay - 10) == 10 by {
      ModuloDays(10, 1);
    }
  }
}
