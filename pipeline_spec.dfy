/** One delivery through `EmailService.send_email`, as a function of the
    middlewares' states and of the world around them.

    `send_email` folds the middleware list around the vendor call so that
    `middlewares[0].call` runs outermost. Here the fold is `Compose`, whose
    result is the shape `From(0, n)`: middleware `i` wrapped around the chain
    from `i + 1`. `Run(ms, i, ...)` is written in that same shape: it calls
    middleware `i` with "the rest of the chain from `i + 1`" as its `func`.
    Retry calls that `func` once per attempt, so the rest of the chain is
    re-entered on every attempt. */
module PipelineSpec {
  import opened Messages
  import BreakerSpec
  import LimiterSpec
  import RetrySpec

  /** A middleware's state, by kind. */
  datatype Mw =
    | MBreaker(breaker: BreakerSpec.Breaker)
    | MLimiter(limiter: LimiterSpec.Limiter)
    | MRetry(retry: RetrySpec.RetryState)

  /** Everything outside the middlewares that a delivery reads or changes: the
      wall clock, the messages the vendor has been asked to send, and what an
      observer has seen so far. */
  datatype World = World(now: int, sent: seq<EmailMessage>, trace: seq<Event>)

  /** The outcome of running (part of) the chain, with the new states. */
  datatype Step = Step(result: Result<Value>, states: seq<Mw>, world: World)

  /** A vendor's behaviour: what its `send_email(message)` returns or raises
      when it has already been called `k` times. */
  type Script = (EmailMessage, nat) -> Result<Value>

  /** Every breaker in the list keeps its invariant. */
  ghost predicate Valid(ms: seq<Mw>) {
    forall j :: 0 <= j < |ms| && ms[j].MBreaker? ==> BreakerSpec.Inv(ms[j].breaker)
  }

  /** `time.sleep(seconds)`: the clock moves on by exactly that much. */
  function Sleep(w: World, seconds: nat): World {
    w.(now := w.now + seconds, trace := w.trace + [Slept(seconds)])
  }

  /** `lambda: self.service.send_email(message)`: the innermost function. */
  function Deliver(ms: seq<Mw>, w: World, msg: EmailMessage, vendor: Script): Step {
    Step(vendor(msg, |w.sent|), ms, w.(sent := w.sent + [msg], trace := w.trace + [VendorCalled]))
  }

  /** Run the chain from position `i`: middleware `i`'s `call`, whose `func`
      is the chain from `i + 1`; past the last middleware, the vendor. Calls
      never change the middlewares outside the ones they run. */
  function Run(ms: seq<Mw>, i: nat, w: World, msg: EmailMessage, vendor: Script): (s: Step)
    requires i <= |ms| && Valid(ms)
    ensures |s.states| == |ms| && s.states[..i] == ms[..i] && Valid(s.states)
    decreases |ms| - i, 2, 0
  {
    if i == |ms| then
      Deliver(ms, w, msg, vendor)
    else
      var entered := w.(trace := w.trace + [Entered(i)]);
      match ms[i]
      case MBreaker(_) => BreakerCall(ms, i, entered, msg, vendor)
      case MLimiter(_) => LimiterCall(ms, i, entered, msg, vendor)
      case MRetry(_) => RetryCall(ms, i, entered, msg, vendor)
  }

  /** `CircuitBreaker.call(func)`. */
  function BreakerCall(ms: seq<Mw>, i: nat, w: World, msg: EmailMessage, vendor: Script): (s: Step)
    requires i < |ms| && ms[i].MBreaker? && Valid(ms)
    ensures |s.states| == |ms| && s.states[..i] == ms[..i] && Valid(s.states)
    decreases |ms| - i, 1, 0
  {
    var d := BreakerSpec.AllowRequest(ms[i].breaker, w.now);
    var admitted := ms[i := MBreaker(d.breaker)];
    if !d.allowed then
      Step(Err(BreakerSpec.OpenError(d.breaker)), admitted, w)
    else
      var inner := Run(admitted, i + 1, w, msg, vendor);
      assert inner.states[i] == admitted[i] by {
        assert inner.states[..i + 1][i] == admitted[..i + 1][i];
      }
      var after := BreakerSpec.AfterCall(d.breaker, inner.result, inner.world.now);
      Step(inner.result, inner.states[i := MBreaker(after)], inner.world)
  }

  /** `RateLimiter.call(func)`. */
  function LimiterCall(ms: seq<Mw>, i: nat, w: World, msg: EmailMessage, vendor: Script): (s: Step)
    requires i < |ms| && ms[i].MLimiter? && Valid(ms)
    ensures |s.states| == |ms| && s.states[..i] == ms[..i] && Valid(s.states)
    decreases |ms| - i, 1, 0
  {
    var a := LimiterSpec.AllowRequest(ms[i].limiter, w.now);
    var admitted := ms[i := MLimiter(a.limiter)];
    if !a.allowed then
      Step(Err(LimiterSpec.TooManyRequests), admitted, w)
    else
      var inner := Run(admitted, i + 1, w, msg, vendor);
      assert inner.states[..i] == admitted[..i] by {
        assert inner.states[..i] == inner.states[..i + 1][..i];
        assert admitted[..i] == admitted[..i + 1][..i];
      }
      inner
  }

  /** `Retry.call(func)` from the current attempt counter on: try `func`;
      on success reset the counter and return; on failure count it, and
      either give up (reset the counter, re-raise) or sleep for the backoff
      delay of the new count and try again. */
  function RetryCall(ms: seq<Mw>, i: nat, w: World, msg: EmailMessage, vendor: Script): (s: Step)
    requires i < |ms| && ms[i].MRetry? && Valid(ms)
    ensures |s.states| == |ms| && s.states[..i] == ms[..i] && Valid(s.states)
    decreases |ms| - i, 1, ms[i].retry.retries - ms[i].retry.attempt
  {
    var rt := ms[i].retry;
    if !RetrySpec.AllowRequest(rt) then
      Step(Ok(Nothing), ms, w)
    else
      var inner := Run(ms, i + 1, w, msg, vendor);
      assert inner.states[i] == ms[i] && inner.states[..i] == ms[..i] by {
        assert inner.states[..i + 1][i] == ms[..i + 1][i];
        assert inner.states[..i] == inner.states[..i + 1][..i];
        assert ms[..i] == ms[..i + 1][..i];
      }
      if inner.result.Ok? then
        Step(inner.result, inner.states[i := MRetry(rt.(attempt := 0))], inner.world)
      else
        var failed := rt.(attempt := rt.attempt + 1);
        if !RetrySpec.AllowRequest(failed) then
          Step(inner.result, inner.states[i := MRetry(failed.(attempt := 0))], inner.world)
        else
          var next := inner.states[i := MRetry(failed)];
          var s := RetryCall(next, i, Sleep(inner.world, failed.backoff.GetDelay(failed.attempt)), msg, vendor);
          assert s.states[..i] == ms[..i] by {
            assert next[..i] == inner.states[..i];
          }
          s
  }

  /** The shape of the composed chain: the vendor call, or middleware
      `index`'s `call` wrapped around an inner chain. */
  datatype Chain = Terminal | Around(index: nat, inner: Chain)

  /** How many middlewares a chain wraps around the vendor call. */
  function Depth(c: Chain): nat {
    match c
    case Terminal => 0
    case Around(_, inner) => 1 + Depth(inner)
  }

  /** `functools.reduce(lambda func, middleware: lambda: middleware.call(func), functions)`
      over the positions of the middlewares in the order given: each position
      adds one wrapper, and the last one folded ends up outermost. */
  function Fold(acc: Chain, positions: seq<nat>): (r: Chain)
    ensures Depth(r) == Depth(acc) + |positions|
    ensures positions != [] ==> r.Around? && r.index == positions[|positions| - 1]
    decreases |positions|
  {
    if positions == [] then acc else Fold(Around(positions[0], acc), positions[1..])
  }

  /** The positions `k - 1, …, 1, 0`: `middlewares[::-1]` for the first `k`. */
  function Downward(k: nat): (p: seq<nat>)
    ensures |p| == k
    ensures forall j :: 0 <= j < k ==> p[j] == k - 1 - j
  {
    if k == 0 then [] else [k - 1] + Downward(k - 1)
  }

  /** The chain `send_email` builds for `n` middlewares:
      `[vendor call] + middlewares[::-1]`, folded. It wraps all `n`
      middlewares, with middleware 0 outermost. */
  function Compose(n: nat): (c: Chain)
    ensures Depth(c) == n
    ensures n > 0 ==> c.Around? && c.index == 0
  {
    Fold(Terminal, Downward(n))
  }

  /** The chain from position `i` on, outermost first: middleware `i`, then
      `i + 1`, and so on up to the vendor call. */
  function From(i: nat, n: nat): (c: Chain)
    ensures Depth(c) == if i >= n then 0 else n - i
    ensures i < n ==> c.Around? && c.index == i
    decreases n - i
  {
    if i >= n then Terminal else Around(i, From(i + 1, n))
  }
}
