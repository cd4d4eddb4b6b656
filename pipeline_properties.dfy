/** What one delivery through `EmailService.send_email` does, stated over
    the functions of `PipelineSpec`: the order in which the chain is built
    and entered, what a refusal cuts off, how often Retry re-enters the
    rest of the chain, and the behaviour of a breaker and of a limiter
    placed directly around a vendor over several deliveries. */
module PipelineProperties {
  import opened Messages
  import opened PipelineSpec
  import BreakerSpec
  import LimiterSpec
  import RetrySpec

  /** Folding `[vendor call] + middlewares[::-1]` puts `middlewares[0]`
      outermost: the accumulator after the last `k` positions is the chain
      from `k` on, so the whole fold is the chain from 0. */
  lemma {:induction false} FoldBuildsFrom(k: nat, n: nat)
    requires k <= n
    ensures Fold(From(k, n), Downward(k)) == From(0, n)
  {
    if k > 0 {
      assert From(k - 1, n) == Around(k - 1, From(k, n));
      assert Downward(k)[1..] == Downward(k - 1) by {
        assert Downward(k) == [k - 1] + Downward(k - 1);
      }
      assert Fold(From(k, n), Downward(k)) == Fold(From(k - 1, n), Downward(k - 1));
      FoldBuildsFrom(k - 1, n);
    }
  }

  /** The chain `send_email` builds for `n` middlewares is
      `middlewares[0].call(middlewares[1].call(… vendor …))`. */
  lemma ComposeIsOutermostFirst(n: nat)
    ensures Compose(n) == From(0, n)
    ensures n > 0 ==> Compose(n) == Around(0, From(1, n))
  {
    assert From(n, n) == Terminal;
    FoldBuildsFrom(n, n);
  }

  /** The trace entries `Entered(i), …, Entered(n - 1)`. */
  function Entries(i: nat, n: nat): (t: seq<Event>)
    ensures |t| == if i <= n then n - i else 0
    decreases n - i
  {
    if i >= n then [] else [Entered(i)] + Entries(i + 1, n)
  }

  /** A middleware that passes the call straight on to its `func`, once, at
      time `now`, given whether the vendor is about to succeed: a breaker
      that is not OPEN, a limiter with room left after pruning, a retry with
      attempts left that either sees a success or has only one attempt left. */
  ghost predicate Forwards(m: Mw, now: int, succeeds: bool) {
    match m
    case MBreaker(b) => b.state != BreakerSpec.Open
    case MLimiter(l) => |LimiterSpec.Prune(l.requests, now - l.perSecond)| < l.maxRequests
    case MRetry(r) => RetrySpec.AllowRequest(r) && (succeeds || r.attempt + 1 == r.retries)
  }

  /** The state a forwarding middleware entered at time `now` is left in
      once the rest of the chain has answered `outcome` at time `later`: a
      breaker records the outcome, a limiter keeps the call in its window, a
      retry clears its counter. */
  function Forwarded(m: Mw, now: int, outcome: Result<Value>, later: int): Mw {
    match m
    case MBreaker(b) => MBreaker(BreakerSpec.AfterCall(b, outcome, later))
    case MLimiter(l) => MLimiter(l.(requests := LimiterSpec.Prune(l.requests, now - l.perSecond) + [now]))
    case MRetry(r) => MRetry(r.(attempt := 0))
  }

  /** A breaker that is not OPEN runs the rest of the chain once and then
      records its outcome. */
  lemma BreakerForwards(ms: seq<Mw>, i: nat, w: World, msg: EmailMessage, vendor: Script)
    requires i < |ms| && ms[i].MBreaker? && Valid(ms) && ms[i].breaker.state != BreakerSpec.Open
    ensures var inner := Run(ms, i + 1, w, msg, vendor);
      BreakerCall(ms, i, w, msg, vendor)
      == Step(inner.result, inner.states[i := MBreaker(BreakerSpec.AfterCall(ms[i].breaker, inner.result, inner.world.now))], inner.world)
  {
    BreakerSpec.NotOpenAlwaysAdmits(ms[i].breaker, w.now);
    assert ms[i := MBreaker(ms[i].breaker)] == ms;
  }

  /** A limiter with room keeps the call in its window and then is the rest
      of the chain. */
  lemma LimiterForwards(ms: seq<Mw>, i: nat, w: World, msg: EmailMessage, vendor: Script)
    requires i < |ms| && ms[i].MLimiter? && Valid(ms)
    requires Forwards(ms[i], w.now, true)
    ensures Valid(ms[i := Forwarded(ms[i], w.now, Ok(Nothing), w.now)])
    ensures LimiterCall(ms, i, w, msg, vendor) == Run(ms[i := Forwarded(ms[i], w.now, Ok(Nothing), w.now)], i + 1, w, msg, vendor)
  {
  }

  /** A retry with attempts left whose first try succeeds, or whose first
      try is its last, runs the rest of the chain once and clears its
      counter. */
  lemma RetryForwards(ms: seq<Mw>, i: nat, w: World, msg: EmailMessage, vendor: Script)
    requires i < |ms| && ms[i].MRetry? && Valid(ms) && RetrySpec.AllowRequest(ms[i].retry)
    requires Run(ms, i + 1, w, msg, vendor).result.Ok? || ms[i].retry.attempt + 1 == ms[i].retry.retries
    ensures var inner := Run(ms, i + 1, w, msg, vendor);
      RetryCall(ms, i, w, msg, vendor)
      == Step(inner.result, inner.states[i := MRetry(ms[i].retry.(attempt := 0))], inner.world)
  {
  }

  /** The state the rest of the chain starts from once middleware `i` has
      let the call through: a limiter has already taken its slot. */
  function Admitted(ms: seq<Mw>, i: nat, now: int): (a: seq<Mw>)
    requires i < |ms|
    ensures |a| == |ms| && forall j :: 0 <= j < |ms| && j != i ==> a[j] == ms[j]
    ensures Valid(ms) ==> Valid(a)
  {
    if ms[i].MLimiter? then ms[i := Forwarded(ms[i], now, Ok(Nothing), now)] else ms
  }

  /** One forwarding middleware: entering it and running the rest of the
      chain once gives the rest's answer and world, leaves the later states
      as the rest left them and puts this one in its forwarded state. */
  lemma ForwardStep(ms: seq<Mw>, i: nat, w: World, msg: EmailMessage, vendor: Script)
    requires i < |ms| && Valid(ms)
    requires var inner := Run(Admitted(ms, i, w.now), i + 1, w.(trace := w.trace + [Entered(i)]), msg, vendor);
      Forwards(ms[i], w.now, inner.result.Ok?)
    ensures var inner := Run(Admitted(ms, i, w.now), i + 1, w.(trace := w.trace + [Entered(i)]), msg, vendor);
      var s := Run(ms, i, w, msg, vendor);
      && s.result == inner.result && s.world == inner.world
      && s.states == inner.states[i := Forwarded(ms[i], w.now, inner.result, inner.world.now)]
  {
    var entered := w.(trace := w.trace + [Entered(i)]);
    var admitted := Admitted(ms, i, w.now);
    var inner := Run(admitted, i + 1, entered, msg, vendor);
    assert inner.states[i] == admitted[i] by {
      assert inner.states[..i + 1][i] == admitted[..i + 1][i];
    }
    match ms[i] {
      case MBreaker(b) =>
        BreakerForwards(ms, i, entered, msg, vendor);
      case MLimiter(l) =>
        LimiterForwards(ms, i, entered, msg, vendor);
        assert inner.states[i := Forwarded(ms[i], w.now, inner.result, inner.world.now)] == inner.states;
      case MRetry(r) =>
        RetryForwards(ms, i, entered, msg, vendor);
    }
  }

  /** When every middleware from `i` on forwards, each is entered exactly
      once, in list order, the vendor is called exactly once after all of
      them, its answer is the chain's answer, and each middleware is left
      in its forwarded state. */
  lemma {:induction false} ForwardingChain(ms: seq<Mw>, i: nat, w: World, msg: EmailMessage, vendor: Script)
    requires i <= |ms| && Valid(ms)
    requires forall j :: i <= j < |ms| ==> Forwards(ms[j], w.now, vendor(msg, |w.sent|).Ok?)
    ensures var s := Run(ms, i, w, msg, vendor);
      && s.result == vendor(msg, |w.sent|)
      && s.world == w.(sent := w.sent + [msg], trace := w.trace + Entries(i, |ms|) + [VendorCalled])
      && forall j :: i <= j < |ms| ==> s.states[j] == Forwarded(ms[j], w.now, vendor(msg, |w.sent|), w.now)
    decreases |ms| - i
  {
    if i < |ms| {
      var entered := w.(trace := w.trace + [Entered(i)]);
      var admitted := Admitted(ms, i, w.now);
      ForwardingChain(admitted, i + 1, entered, msg, vendor);
      ForwardStep(ms, i, w, msg, vendor);
      assert w.trace + Entries(i, |ms|) == entered.trace + Entries(i + 1, |ms|);
    }
  }

  /** A middleware that turns the call away at time `now` without running
      its `func`: an OPEN breaker whose reset timeout has not passed, a
      limiter whose pruned window is full, a retry with no attempts left. */
  ghost predicate Declines(m: Mw, now: int) {
    match m
    case MBreaker(b) =>
      && b.state == BreakerSpec.Open && b.lastFailureTime.Some?
      && BreakerSpec.SecondsField(now, b.lastFailureTime.value) < b.resetTimeout
    case MLimiter(l) => |LimiterSpec.Prune(l.requests, now - l.perSecond)| >= l.maxRequests
    case MRetry(r) => !RetrySpec.AllowRequest(r)
  }

  /** What a declining middleware answers: the breaker's and the limiter's
      exceptions, or the `None` a retry without attempts returns. */
  function DeclineAnswer(m: Mw): Result<Value> {
    match m
    case MBreaker(b) => Err(BreakerSpec.OpenError(b))
    case MLimiter(_) => Err(LimiterSpec.TooManyRequests)
    case MRetry(_) => Ok(Nothing)
  }

  /** When middleware `i` declines, nothing after it runs: the trace gains
      only its own entry, the vendor is not called, the clock does not move,
      and only a limiter's own window (pruned) changes. */
  lemma DeclineStopsChain(ms: seq<Mw>, i: nat, w: World, msg: EmailMessage, vendor: Script)
    requires i < |ms| && Valid(ms) && Declines(ms[i], w.now)
    ensures var s := Run(ms, i, w, msg, vendor);
      && s.result == DeclineAnswer(ms[i])
      && s.world == w.(trace := w.trace + [Entered(i)])
      && forall j :: 0 <= j < |ms| && j != i ==> s.states[j] == ms[j]
    ensures ms[i].MLimiter? ==>
      var l := ms[i].limiter;
      Run(ms, i, w, msg, vendor).states[i] == MLimiter(l.(requests := LimiterSpec.Prune(l.requests, w.now - l.perSecond)))
    ensures !ms[i].MLimiter? ==> Run(ms, i, w, msg, vendor).states == ms
  {
    if ms[i].MBreaker? {
      BreakerSpec.OpenWaitsForTimeout(ms[i].breaker, w.now);
    }
  }

  /** The events of the tries a retry makes from counter `attempt` when every
      try fails: each try calls the vendor, and every try but the last is
      followed by the sleep for the new count's delay. */
  function FailingTries(b: RetrySpec.Backoff, attempt: nat, retries: nat): (t: seq<Event>)
    requires attempt < retries
    decreases retries - attempt
  {
    [VendorCalled] + if attempt + 1 < retries then [Slept(b.GetDelay(attempt + 1))] + FailingTries(b, attempt + 1, retries) else []
  }

  /** The total time those sleeps take. */
  function FailingDelay(b: RetrySpec.Backoff, attempt: nat, retries: nat): nat
    requires attempt < retries
    decreases retries - attempt
  {
    if attempt + 1 < retries then b.GetDelay(attempt + 1) + FailingDelay(b, attempt + 1, retries) else 0
  }

  /** A retry directly around the vendor, with `n` attempts left, all of which
      fail: the vendor is called exactly `n` times, the sleeps between them
      are the backoff delays for counts `attempt + 1`, …, `retries - 1` and
      none follows the last, the last failure is re-raised, and the counter
      is back to 0. */
  lemma {:induction false} RetryAllFail(ms: seq<Mw>, i: nat, w: World, msg: EmailMessage, vendor: Script)
    requires i + 1 == |ms| && ms[i].MRetry? && Valid(ms) && RetrySpec.AllowRequest(ms[i].retry)
    requires forall k :: |w.sent| <= k < |w.sent| + ms[i].retry.retries - ms[i].retry.attempt ==> vendor(msg, k).Err?
    ensures var r := ms[i].retry;
      var n := r.retries - r.attempt;
      var s := RetryCall(ms, i, w, msg, vendor);
      && s.result == vendor(msg, |w.sent| + n - 1)
      && |s.world.sent| == |w.sent| + n
      && s.world.trace == w.trace + FailingTries(r.backoff, r.attempt, r.retries)
      && s.world.now == w.now + FailingDelay(r.backoff, r.attempt, r.retries)
      && s.states == ms[i := MRetry(r.(attempt := 0))]
    decreases ms[i].retry.retries - ms[i].retry.attempt
  {
    var r := ms[i].retry;
    var inner := Deliver(ms, w, msg, vendor);
    assert Run(ms, i + 1, w, msg, vendor) == inner;
    var failed := r.(attempt := r.attempt + 1);
    if RetrySpec.AllowRequest(failed) {
      var next := ms[i := MRetry(failed)];
      var delay := failed.backoff.GetDelay(failed.attempt);
      var later := Sleep(inner.world, delay);
      RetryAllFail(next, i, later, msg, vendor);
      assert next[i := MRetry(failed.(attempt := 0))] == ms[i := MRetry(r.(attempt := 0))];
    }
  }

  /** The events of `k` failing tries from counter `attempt` followed by one
      that succeeds: each failure is followed by the sleep for the new
      count's delay. */
  function RecoveringTries(b: RetrySpec.Backoff, attempt: nat, k: nat): (t: seq<Event>)
    decreases k
  {
    if k == 0 then [VendorCalled] else [VendorCalled, Slept(b.GetDelay(attempt + 1))] + RecoveringTries(b, attempt + 1, k - 1)
  }

  /** The total time those sleeps take: the delays for counts `attempt + 1`,
      …, `attempt + k`. */
  function RecoveringDelay(b: RetrySpec.Backoff, attempt: nat, k: nat): nat
    decreases k
  {
    if k == 0 then 0 else b.GetDelay(attempt + 1) + RecoveringDelay(b, attempt + 1, k - 1)
  }

  /** A retry directly around the vendor whose first `k` tries fail and whose
      next one succeeds, with more than `k` attempts left: the vendor is
      called exactly `k + 1` times, the sleeps between them are the backoff
      delays for counts `attempt + 1`, …, `attempt + k`, the success is
      returned, and the counter is back to 0. */
  lemma {:induction false} RetrySucceedsAfter(ms: seq<Mw>, i: nat, w: World, msg: EmailMessage, vendor: Script, k: nat)
    requires i + 1 == |ms| && ms[i].MRetry? && Valid(ms)
    requires ms[i].retry.attempt + k < ms[i].retry.retries
    requires forall j :: |w.sent| <= j < |w.sent| + k ==> vendor(msg, j).Err?
    requires vendor(msg, |w.sent| + k).Ok?
    ensures var s := RetryCall(ms, i, w, msg, vendor);
      && s.result == vendor(msg, |w.sent| + k)
      && |s.world.sent| == |w.sent| + k + 1
      && s.world.trace == w.trace + RecoveringTries(ms[i].retry.backoff, ms[i].retry.attempt, k)
      && s.world.now == w.now + RecoveringDelay(ms[i].retry.backoff, ms[i].retry.attempt, k)
      && s.states == ms[i := MRetry(ms[i].retry.(attempt := 0))]
    decreases k
  {
    var r := ms[i].retry;
    var inner := Deliver(ms, w, msg, vendor);
    assert Run(ms, i + 1, w, msg, vendor) == inner;
    if k > 0 {
      var failed := r.(attempt := r.attempt + 1);
      var next := ms[i := MRetry(failed)];
      var later := Sleep(inner.world, failed.backoff.GetDelay(failed.attempt));
      RetrySucceedsAfter(next, i, later, msg, vendor, k - 1);
      assert next[i := MRetry(failed.(attempt := 0))] == ms[i := MRetry(r.(attempt := 0))];
    }
  }

  /** Wherever it sits in the chain, a retry that starts with attempts left
      ends with its counter at 0, whether it returns or re-raises, so the
      next delivery gets the whole budget again. */
  lemma {:induction false} RetryEndsReset(ms: seq<Mw>, i: nat, w: World, msg: EmailMessage, vendor: Script)
    requires i < |ms| && ms[i].MRetry? && Valid(ms) && RetrySpec.AllowRequest(ms[i].retry)
    ensures RetryCall(ms, i, w, msg, vendor).states[i] == MRetry(ms[i].retry.(attempt := 0))
    decreases ms[i].retry.retries - ms[i].retry.attempt
  {
    var r := ms[i].retry;
    var inner := Run(ms, i + 1, w, msg, vendor);
    assert inner.states[i] == ms[i] by {
      assert inner.states[..i + 1][i] == ms[..i + 1][i];
    }
    var failed := r.(attempt := r.attempt + 1);
    if inner.result.Err? && RetrySpec.AllowRequest(failed) {
      var next := inner.states[i := MRetry(failed)];
      RetryEndsReset(next, i, Sleep(inner.world, failed.backoff.GetDelay(failed.attempt)), msg, vendor);
    }
  }

  /** A vendor whose `send_email` raises every time it is called. */
  ghost predicate AlwaysFails(vendor: Script) {
    forall msg, k :: vendor(msg, k).Err?
  }

  /** Every retry in the list has an attempt left. */
  ghost predicate Armed(ms: seq<Mw>) {
    forall j :: 0 <= j < |ms| && ms[j].MRetry? ==> RetrySpec.AllowRequest(ms[j].retry)
  }

  /** Changing a breaker or a limiter, or giving a retry an attempt left,
      keeps a list armed. */
  lemma ArmedUpdate(ms: seq<Mw>, i: nat, m: Mw)
    requires i < |ms| && Armed(ms)
    requires m.MRetry? ==> RetrySpec.AllowRequest(m.retry)
    ensures Armed(ms[i := m])
  {
  }

  /** Whatever the breaker and limiter states, a delivery to a vendor that
      always fails through a chain whose retries all have an attempt left
      raises, and leaves every retry with an attempt left: a retry that gives
      up clears its counter. */
  lemma {:induction false} RunFails(ms: seq<Mw>, i: nat, w: World, msg: EmailMessage, vendor: Script)
    requires i <= |ms| && Valid(ms) && Armed(ms) && AlwaysFails(vendor)
    ensures Run(ms, i, w, msg, vendor).result.Err? && Armed(Run(ms, i, w, msg, vendor).states)
    decreases |ms| - i, 2, 0
  {
    if i < |ms| {
      var entered := w.(trace := w.trace + [Entered(i)]);
      match ms[i]
      case MBreaker(_) => BreakerFails(ms, i, entered, msg, vendor);
      case MLimiter(_) => LimiterFails(ms, i, entered, msg, vendor);
      case MRetry(_) => RetryFails(ms, i, entered, msg, vendor);
    }
  }

  lemma {:induction false} BreakerFails(ms: seq<Mw>, i: nat, w: World, msg: EmailMessage, vendor: Script)
    requires i < |ms| && ms[i].MBreaker? && Valid(ms) && Armed(ms) && AlwaysFails(vendor)
    ensures BreakerCall(ms, i, w, msg, vendor).result.Err? && Armed(BreakerCall(ms, i, w, msg, vendor).states)
    decreases |ms| - i, 1, 0
  {
    var d := BreakerSpec.AllowRequest(ms[i].breaker, w.now);
    var admitted := ms[i := MBreaker(d.breaker)];
    ArmedUpdate(ms, i, MBreaker(d.breaker));
    if d.allowed {
      var inner := Run(admitted, i + 1, w, msg, vendor);
      RunFails(admitted, i + 1, w, msg, vendor);
      var after := BreakerSpec.AfterCall(d.breaker, inner.result, inner.world.now);
      ArmedUpdate(inner.states, i, MBreaker(after));
    }
  }

  lemma {:induction false} LimiterFails(ms: seq<Mw>, i: nat, w: World, msg: EmailMessage, vendor: Script)
    requires i < |ms| && ms[i].MLimiter? && Valid(ms) && Armed(ms) && AlwaysFails(vendor)
    ensures LimiterCall(ms, i, w, msg, vendor).result.Err? && Armed(LimiterCall(ms, i, w, msg, vendor).states)
    decreases |ms| - i, 1, 0
  {
    var a := LimiterSpec.AllowRequest(ms[i].limiter, w.now);
    var admitted := ms[i := MLimiter(a.limiter)];
    ArmedUpdate(ms, i, MLimiter(a.limiter));
    if a.allowed {
      RunFails(admitted, i + 1, w, msg, vendor);
    }
  }

  lemma {:induction false} RetryFails(ms: seq<Mw>, i: nat, w: World, msg: EmailMessage, vendor: Script)
    requires i < |ms| && ms[i].MRetry? && Valid(ms) && Armed(ms) && AlwaysFails(vendor)
    ensures RetryCall(ms, i, w, msg, vendor).result.Err? && Armed(RetryCall(ms, i, w, msg, vendor).states)
    decreases |ms| - i, 1, ms[i].retry.retries - ms[i].retry.attempt
  {
    var rt := ms[i].retry;
    var inner := Run(ms, i + 1, w, msg, vendor);
    RunFails(ms, i + 1, w, msg, vendor);
    assert inner.states[i] == ms[i] by {
      assert inner.states[..i + 1][i] == ms[..i + 1][i];
    }
    var failed := rt.(attempt := rt.attempt + 1);
    if !RetrySpec.AllowRequest(failed) {
      ArmedUpdate(inner.states, i, MRetry(failed.(attempt := 0)));
    } else {
      var next := inner.states[i := MRetry(failed)];
      ArmedUpdate(inner.states, i, MRetry(failed));
      RetryFails(next, i, Sleep(inner.world, failed.backoff.GetDelay(failed.attempt)), msg, vendor);
    }
  }

  /** The world after one delivery that reached the vendor through a chain
      of one middleware. */
  function Delivered(w: World, msg: EmailMessage): World {
    w.(sent := w.sent + [msg], trace := w.trace + [Entered(0), VendorCalled])
  }

  /** A single forwarding middleware around the vendor. */
  lemma AloneForwards(m: Mw, w: World, msg: EmailMessage, vendor: Script)
    requires Valid([m]) && Forwards(m, w.now, vendor(msg, |w.sent|).Ok?)
    ensures Run([m], 0, w, msg, vendor)
      == Step(vendor(msg, |w.sent|), [Forwarded(m, w.now, vendor(msg, |w.sent|), w.now)], Delivered(w, msg))
  {
    ForwardingChain([m], 0, w, msg, vendor);
    assert Entries(0, 1) == [Entered(0)];
    assert w.trace + Entries(0, 1) + [VendorCalled] == w.trace + [Entered(0), VendorCalled];
  }

  /** The state a declining middleware is left in: a limiter keeps the
      pruned window, the others are unchanged. */
  function Declined(m: Mw, now: int): Mw {
    if m.MLimiter? then MLimiter(m.limiter.(requests := LimiterSpec.Prune(m.limiter.requests, now - m.limiter.perSecond))) else m
  }

  /** A single declining middleware around the vendor. */
  lemma AloneDeclines(m: Mw, w: World, msg: EmailMessage, vendor: Script)
    requires Valid([m]) && Declines(m, w.now)
    ensures Run([m], 0, w, msg, vendor) == Step(DeclineAnswer(m), [Declined(m, w.now)], w.(trace := w.trace + [Entered(0)]))
  {
    DeclineStopsChain([m], 0, w, msg, vendor);
  }

  /** A failure seen at `now` by a CLOSED breaker with threshold 3 and
      fewer than 3 failures counted: the count goes up by one and opens the
      circuit on the third. */
  lemma CountedFailure(timeout: int, count: int, now: int, outcome: Result<Value>)
    requires 0 <= count < 3 && outcome.Err?
    ensures var b := BreakerSpec.Breaker(3, timeout, count, if count == 0 then None else Some(now), BreakerSpec.Closed);
      && Valid([MBreaker(b)]) && Forwards(MBreaker(b), now, false)
      && Forwarded(MBreaker(b), now, outcome, now)
         == MBreaker(BreakerSpec.Breaker(3, timeout, count + 1, Some(now), if count == 2 then BreakerSpec.Open else BreakerSpec.Closed))
  {
  }

  /** The breaker the third failure leaves behind refuses at the same
      instant. */
  lemma TrippedRefuses(timeout: int, now: int)
    requires timeout > 0
    ensures var b := BreakerSpec.Breaker(3, timeout, 3, Some(now), BreakerSpec.Open);
      && Valid([MBreaker(b)]) && Declines(MBreaker(b), now) && Declined(MBreaker(b), now) == MBreaker(b)
  {
    assert BreakerSpec.SecondsField(now, now) == 0;
  }

  /** A fresh breaker with threshold 3 directly around a vendor that keeps
      failing, called four times at the same clock: the first three calls
      reach the vendor and re-raise its failure, the third opens the
      circuit, and the fourth is refused with the OPEN breaker's exception
      before the vendor is reached. */
  lemma BreakerTripsAfterThreeFailures(timeout: int, w: World, msg: EmailMessage, vendor: Script)
    requires timeout > 0
    requires forall k: nat :: vendor(msg, k).Err?
    ensures var b := BreakerSpec.Breaker(3, timeout, 0, None, BreakerSpec.Closed);
      var s1 := Run([MBreaker(BreakerSpec.Fresh(3, timeout))], 0, w, msg, vendor);
      var s2 := Run(s1.states, 0, s1.world, msg, vendor);
      var s3 := Run(s2.states, 0, s2.world, msg, vendor);
      var s4 := Run(s3.states, 0, s3.world, msg, vendor);
      && s1.result == vendor(msg, |w.sent|)
      && s1.states == [MBreaker(b.(failureCount := 1, lastFailureTime := Some(w.now)))]
      && s2.result == vendor(msg, |w.sent| + 1)
      && s2.states == [MBreaker(b.(failureCount := 2, lastFailureTime := Some(w.now)))]
      && s3.result == vendor(msg, |w.sent| + 2)
      && s3.states == [MBreaker(b.(failureCount := 3, lastFailureTime := Some(w.now), state := BreakerSpec.Open))]
      && s4.result == Err(BreakerSpec.OpenError(s3.states[0].breaker))
      && s4.states == s3.states
      && s4.world.sent == w.sent + [msg, msg, msg]
      && s4.world.now == w.now
  {
    var w1 := Delivered(w, msg);
    var w2 := Delivered(w1, msg);
    var w3 := Delivered(w2, msg);
    assert w1.now == w.now && w2.now == w.now && w3.now == w.now;
    assert |w1.sent| == |w.sent| + 1 && |w2.sent| == |w.sent| + 2;
    assert w3.sent == w.sent + [msg, msg, msg];
    var b0 := BreakerSpec.Fresh(3, timeout);
    var b1 := BreakerSpec.Breaker(3, timeout, 1, Some(w.now), BreakerSpec.Closed);
    var b2 := BreakerSpec.Breaker(3, timeout, 2, Some(w.now), BreakerSpec.Closed);
    var b3 := BreakerSpec.Breaker(3, timeout, 3, Some(w.now), BreakerSpec.Open);
    CountedFailure(timeout, 0, w.now, vendor(msg, |w.sent|));
    CountedFailure(timeout, 1, w.now, vendor(msg, |w1.sent|));
    CountedFailure(timeout, 2, w.now, vendor(msg, |w2.sent|));
    TrippedRefuses(timeout, w.now);
    AloneForwards(MBreaker(b0), w, msg, vendor);
    AloneForwards(MBreaker(b1), w1, msg, vendor);
    AloneForwards(MBreaker(b2), w2, msg, vendor);
    AloneDeclines(MBreaker(b3), w3, msg, vendor);
    var s1 := Run([MBreaker(b0)], 0, w, msg, vendor);
    assert s1 == Step(vendor(msg, |w.sent|), [MBreaker(b1)], w1);
    var s2 := Run(s1.states, 0, s1.world, msg, vendor);
    assert s2 == Step(vendor(msg, |w.sent| + 1), [MBreaker(b2)], w2);
    var s3 := Run(s2.states, 0, s2.world, msg, vendor);
    assert s3 == Step(vendor(msg, |w.sent| + 2), [MBreaker(b3)], w3);
  }

  /** An OPEN breaker directly around a vendor, once its reset timeout has
      passed, lets one probe through: a successful probe closes it and clears
      the count, a failed one opens it again from the time of that failure. */
  lemma HalfOpenProbe(b: BreakerSpec.Breaker, w: World, msg: EmailMessage, vendor: Script)
    requires BreakerSpec.Inv(b) && b.state == BreakerSpec.Open
    requires BreakerSpec.SecondsField(w.now, b.lastFailureTime.value) >= b.resetTimeout
    ensures var s := Run([MBreaker(b)], 0, w, msg, vendor);
      && s.result == vendor(msg, |w.sent|)
      && s.world.sent == w.sent + [msg]
      && (s.result.Ok? ==> s.states == [MBreaker(b.(failureCount := 0, state := BreakerSpec.Closed))])
      && (s.result.Err? ==> s.states == [MBreaker(b.(failureCount := b.failureCount + 1, lastFailureTime := Some(w.now)))])
  {
    var ms := [MBreaker(b)];
    var entered := w.(trace := w.trace + [Entered(0)]);
    BreakerSpec.OpenWaitsForTimeout(b, w.now);
    var admitted := ms[0 := MBreaker(b.(state := BreakerSpec.HalfOpen))];
    assert Run(admitted, 1, entered, msg, vendor) == Deliver(admitted, entered, msg, vendor);
  }

  /** A call at `now` to an empty limiter of two calls per window of
      positive length `per` is let through and kept. */
  lemma FirstAtInstant(now: int, per: int, outcome: Result<Value>, succeeds: bool)
    requires per > 0
    ensures Forwards(MLimiter(LimiterSpec.Fresh(2, per)), now, succeeds)
    ensures Forwarded(MLimiter(LimiterSpec.Fresh(2, per)), now, outcome, now) == MLimiter(LimiterSpec.Limiter(2, per, [now]))
  {
  }

  /** So is a second call at the same instant. */
  lemma SecondAtInstant(now: int, per: int, outcome: Result<Value>, succeeds: bool)
    requires per > 0
    ensures Forwards(MLimiter(LimiterSpec.Limiter(2, per, [now])), now, succeeds)
    ensures Forwarded(MLimiter(LimiterSpec.Limiter(2, per, [now])), now, outcome, now) == MLimiter(LimiterSpec.Limiter(2, per, [now, now]))
  {
    assert LimiterSpec.Prune([now], now - per) == [now];
  }

  /** A third call at the same instant is turned away, and the window stays
      full. */
  lemma FullAtInstant(now: int, per: int)
    requires per > 0
    ensures Declines(MLimiter(LimiterSpec.Limiter(2, per, [now, now])), now)
    ensures Declined(MLimiter(LimiterSpec.Limiter(2, per, [now, now])), now) == MLimiter(LimiterSpec.Limiter(2, per, [now, now]))
  {
    LimiterSpec.PruneOfTwo(now, now, now - per);
    assert [now] + [now] == [now, now];
  }

  /** A fresh limiter of two calls per window directly around a vendor,
      called three times at the same clock: the first two calls reach the
      vendor, the third is refused with "Too many requests" and the vendor
      has been asked to send exactly twice. */
  lemma LimiterTwoPerWindow(per: int, w: World, msg: EmailMessage, vendor: Script)
    requires per > 0
    ensures var s1 := Run([MLimiter(LimiterSpec.Fresh(2, per))], 0, w, msg, vendor);
      var s2 := Run(s1.states, 0, s1.world, msg, vendor);
      var s3 := Run(s2.states, 0, s2.world, msg, vendor);
      && s1.result == vendor(msg, |w.sent|)
      && s2.result == vendor(msg, |w.sent| + 1)
      && s3.result == Err(Exception("Too many requests"))
      && s3.world.sent == w.sent + [msg, msg]
      && s3.states == [MLimiter(LimiterSpec.Limiter(2, per, [w.now, w.now]))]
  {
    var w1, w2 := Delivered(w, msg), Delivered(Delivered(w, msg), msg);
    var l0 := LimiterSpec.Fresh(2, per);
    var l1 := LimiterSpec.Limiter(2, per, [w.now]);
    var l2 := LimiterSpec.Limiter(2, per, [w.now, w.now]);
    assert w1.now == w.now && w2.now == w.now && w2.sent == w.sent + [msg, msg];
    FirstAtInstant(w.now, per, vendor(msg, |w.sent|), vendor(msg, |w.sent|).Ok?);
    SecondAtInstant(w.now, per, vendor(msg, |w1.sent|), vendor(msg, |w1.sent|).Ok?);
    FullAtInstant(w.now, per);
    AloneForwards(MLimiter(l0), w, msg, vendor);
    AloneForwards(MLimiter(l1), w1, msg, vendor);
    AloneDeclines(MLimiter(l2), w2, msg, vendor);
    var s1 := Run([MLimiter(l0)], 0, w, msg, vendor);
    assert s1 == Step(vendor(msg, |w.sent|), [MLimiter(l1)], w1);
    var s2 := Run(s1.states, 0, s1.world, msg, vendor);
    assert s2 == Step(vendor(msg, |w.sent| + 1), [MLimiter(l2)], w2);
    var s3 := Run(s2.states, 0, s2.world, msg, vendor);
    assert s3 == Step(Err(LimiterSpec.TooManyRequests), [MLimiter(l2)], w2.(trace := w2.trace + [Entered(0)]));
  }
}
