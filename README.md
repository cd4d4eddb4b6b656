# Email throttler resilience core, in Dafny

This project models the resilience core of the email throttler. That core is
three stateful middlewares: a circuit breaker, a sliding-window rate limiter,
and a retry loop with a pluggable backoff. It also covers the delivery
pipeline `EmailService.send_email`, which wraps a vendor in those
middlewares, and the two failover strategies built on top of it.

The project is split into pure modules and imperative modules.

Pure modules (values, and the lemmas about them):
- `Messages`: options, results, exceptions, the message record, and the events a delivery can show.
- `BreakerSpec`, `LimiterSpec`, `RetrySpec`: each middleware's state as a value, with its transitions as functions.
- `PipelineSpec`: one delivery through a chain of middlewares, as the mutually recursive functions `Run`, `BreakerCall`, `LimiterCall` and `RetryCall`. The chain is recursion over the middleware index, so a retry re-enters the rest of the chain on every attempt. `Compose` is the `functools.reduce` fold itself.
- `PipelineProperties`: what one or several deliveries do. This covers the chain order, refusals, attempt counts, and the breaker and limiter scenarios from the repository's tests.
- `StickySpec`: the cursor (`current_service_index`, `cycles`) of the sticky failover and how it walks on failures.

Imperative modules:
- `Service`: classes for the three middlewares, the vendor, the environment (clock and event trace) and `EmailService`. Their fields change in place. Each method is proved against the pure semantics: its result, the middlewares' new states and the new world are what `PipelineSpec` computes from the old ones.
- `Failover`: the classes `EmailFailover` and `EmailFailoverWithState`. Extra outputs that exist only for the proofs record each delivery made, in order, together with a snapshot of what every service held (its middleware states and the world it sees) before and after it. Each delivery is tied to the snapshot it started from, and the first and last snapshots are the real states at the call and at its end. The cursor is tied to `StickySpec`.

How the environment is modelled:
- **Clock.** `datetime.now()` is the integer field `Environment.now`. Within one delivery only Retry's `time.sleep` moves it. Between deliveries the caller may set it.
- **Vendor.** Its `send_email` is a script: the answer it gives to its `k`-th call. The vendor records every message it is asked to send, so call counts can be stated.
- **Exceptions.** A raised exception is an `Err` result.

## Model

| member | source | states |
|---|---|---|
| BreakerSpec.Fresh | src/email_throttle/core/middlewares/default/circuit_breaker.py:9-14 | a new breaker (CLOSED, count 0, no failure time) satisfies the invariant: a breaker that is not CLOSED has a count of at least the threshold and a recorded failure time |
| BreakerSpec.SecondsField | src/email_throttle/core/middlewares/default/circuit_breaker.py:22 | the `seconds` field of the elapsed time lies in [0, 86400) and equals the elapsed seconds when they are less than a day |
| BreakerSpec.AllowRequest | src/email_throttle/core/middlewares/default/circuit_breaker.py:16-28 | keeps the invariant, changes only the state and only from OPEN to HALF-OPEN, and refuses only when OPEN, in which case nothing changes |
| BreakerSpec.NotOpenAlwaysAdmits | src/email_throttle/core/middlewares/default/circuit_breaker.py:16-28 | CLOSED and HALF-OPEN admit at every time without change, so HALF-OPEN allows any number of probes |
| BreakerSpec.OpenWaitsForTimeout | src/email_throttle/core/middlewares/default/circuit_breaker.py:21-27 | OPEN refuses unchanged while the seconds field is below the reset timeout and turns HALF-OPEN and admits from then on |
| BreakerSpec.AllowIgnoresWholeDays | src/email_throttle/core/middlewares/default/circuit_breaker.py:22 | the decision is the same at `now` and any whole number of days later |
| BreakerSpec.OpenAfterOneDayStillRefuses | src/email_throttle/core/middlewares/default/circuit_breaker.py:22 | a breaker opened one day and ten seconds ago with a 60-second timeout still refuses |
| BreakerSpec.Reset | src/email_throttle/core/middlewares/default/circuit_breaker.py:30-35 | resetting keeps the invariant |
| BreakerSpec.RecordFailure | src/email_throttle/core/middlewares/default/circuit_breaker.py:37-45 | the count goes up by one, the failure time becomes `now`, the breaker is OPEN once the count reaches the threshold and keeps its state below it, the limits are unchanged, and the invariant is kept |
| BreakerSpec.AfterCall | src/email_throttle/core/middlewares/default/circuit_breaker.py:52-61 | a success closes a HALF-OPEN breaker with count 0 and leaves a CLOSED one untouched, so failures need not be consecutive; a failure is recorded; the invariant is kept |
| BreakerSpec.RefusalNamesOpen | src/email_throttle/core/middlewares/default/circuit_breaker.py:48-51 | the exception of a refused call reads "Circuit is OPEN, expect the timeout was expired" |
| LimiterSpec.Prune | src/email_throttle/core/middlewares/default/rate_limiter.py:18 | every kept timestamp is after the cutoff, every timestamp after the cutoff is kept as often as it occurred, and no other is kept (the kept multiset is the input's restricted to later times), so the list never grows |
| LimiterSpec.Fresh | src/email_throttle/core/middlewares/default/rate_limiter.py:10-13 | a new limiter keeps both limits, holds no timestamps (so it is bounded and sorted), and admits its first call at any time whenever `max_requests` is positive |
| LimiterSpec.AllowRequest | src/email_throttle/core/middlewares/default/rate_limiter.py:15-23 | the limits never change; an admitted call leaves at most `max_requests` timestamps with `now` last; a refused one leaves at least `max_requests`; the list grows by at most one |
| LimiterSpec.AdmitsIffRoom | src/email_throttle/core/middlewares/default/rate_limiter.py:20-23 | admits exactly when the pruned list is shorter than `max_requests`, appends exactly `now` when it admits, keeps just the pruned list otherwise, and never changes the limits |
| LimiterSpec.KeepsOnlyTheWindow | src/email_throttle/core/middlewares/default/rate_limiter.py:18 | afterwards every earlier timestamp is younger than `per_second`, and one exactly `per_second` old is gone |
| LimiterSpec.StaysBounded | src/email_throttle/core/middlewares/default/rate_limiter.py:15-23 | the window never holds more than `max_requests` entries, from the constructor on |
| LimiterSpec.PruneKeepsOrder | src/email_throttle/core/middlewares/default/rate_limiter.py:18 | pruning a sorted list gives a sorted list |
| LimiterSpec.StaysSorted | src/email_throttle/core/middlewares/default/rate_limiter.py:18-21 | if `now` is no earlier than every kept timestamp, the list stays sorted |
| LimiterSpec.SecondCallAdmitted | tests/unit_tests/email_throttle/core/middlewares/default/test_rate_limiter.py:25-34 | two calls per minute at seconds 0 and 30 are both admitted |
| LimiterSpec.FullWindow | tests/unit_tests/email_throttle/core/middlewares/default/test_rate_limiter.py:36-43 | with that window full, calls at 45 and 59 are refused without change, and one at 60 is admitted |
| LimiterSpec.WindowSlides | tests/unit_tests/email_throttle/core/middlewares/default/test_rate_limiter.py:25-43 | the whole sequence 0, 30, 45, 59, 60 is admitted, admitted, refused, refused, admitted |
| RetrySpec.Backoff.GetDelay | src/email_throttle/core/middlewares/default/retry.py:15-25 | the exponential delay is `base * factor ** attempt` while that is within `max_delay` and exactly `max_delay` above it, so it never exceeds the cap; the constant delay is `seconds` for every attempt |
| RetrySpec.Fresh | src/email_throttle/core/middlewares/default/retry.py:29-32 | a new retry starts at attempt 0 with the given `retries` (3 when omitted), lets its first attempt through exactly when `retries` is positive, and uses the given backoff, or else one whose delay for attempt `k` is `min(2 ** k, 60)` |
| RetrySpec.ConstantIgnoresAttempt | src/email_throttle/core/middlewares/default/retry.py:20-25 | a constant backoff gives its `seconds` for every attempt |
| RetrySpec.ExponentialMonotone | src/email_throttle/core/middlewares/default/retry.py:15-17 | with factor at least 1 the delay never shrinks from one attempt to a later one |
| RetrySpec.DefaultBackoffDoublesToCap | src/email_throttle/core/middlewares/default/retry.py:9-17 | the default backoff gives 2 seconds for attempt 1, 32 for attempt 5, and the 60-second cap from attempt 6 on |
| PipelineSpec.Run | src/email_throttle/core/service.py:22-28 | running the chain from middleware `i` keeps the list length, never touches the middlewares before `i`, and keeps every breaker's invariant |
| PipelineSpec.BreakerCall | src/email_throttle/core/middlewares/default/circuit_breaker.py:47-61 | a breaker's `call` leaves the middlewares before it alone and keeps the breaker invariants |
| PipelineSpec.LimiterCall | src/email_throttle/core/middlewares/default/rate_limiter.py:25-32 | a limiter's `call` leaves the middlewares before it alone and keeps the breaker invariants |
| PipelineSpec.RetryCall | src/email_throttle/core/middlewares/default/retry.py:37-52 | a retry's `call`, over all its attempts, leaves the middlewares before it alone and keeps the breaker invariants |
| PipelineSpec.Fold | src/email_throttle/core/service.py:25-28 | folding positions onto a chain wraps it once per position, the last position outermost |
| PipelineSpec.Downward | src/email_throttle/core/service.py:23 | the positions of `middlewares[::-1]`: entry `j` of the first `k` is `k - 1 - j` |
| PipelineSpec.Compose | src/email_throttle/core/service.py:23-28 | the chain `send_email` builds wraps the vendor call in exactly `n` middlewares, with middleware 0 outermost |
| PipelineSpec.From | src/email_throttle/core/service.py:23-28 | the chain from position `i` wraps `n - i` middlewares, with middleware `i` outermost |
| PipelineProperties.FoldBuildsFrom | src/email_throttle/core/service.py:23-28 | folding the reversed positions onto the chain from `k` on gives the chain from 0 |
| PipelineProperties.ComposeIsOutermostFirst | src/email_throttle/core/service.py:23-28 | the chain `send_email` builds is `middlewares[0].call(middlewares[1].call(… vendor …))` |
| PipelineProperties.BreakerForwards | src/email_throttle/core/middlewares/default/circuit_breaker.py:52-61 | a breaker that is not OPEN runs the rest of the chain once, passes its answer and world on, and records the outcome |
| PipelineProperties.LimiterForwards | src/email_throttle/core/middlewares/default/rate_limiter.py:25-32 | a limiter with room takes its slot before the rest of the chain runs and is then exactly the rest of the chain, so the slot is used even when the call fails and the answer passes through unchanged |
| PipelineProperties.RetryForwards | src/email_throttle/core/middlewares/default/retry.py:37-49 | a retry whose first attempt succeeds, or is its last, runs the rest once and clears its counter |
| PipelineProperties.ForwardStep | src/email_throttle/core/service.py:25-28 | entering one forwarding middleware and running the rest once gives the rest's answer and world, with that middleware in its forwarded state |
| PipelineProperties.ForwardingChain | tests/unit_tests/email_throttle/core/test_email_service.py:48-77 | when every middleware forwards, each is entered once in list order, the vendor is called exactly once after them, its answer is the chain's answer, and each middleware ends in its forwarded state; with no middlewares it is one vendor call |
| PipelineProperties.DeclineStopsChain | src/email_throttle/core/service.py:23-28 | when middleware `i` refuses (an OPEN breaker before its timeout, a full limiter, a retry with no attempts), nothing after it runs, the vendor is not called, the clock does not move, and only a limiter's window changes; the answer is the breaker's exception, "Too many requests", or `None` for the retry |
| PipelineProperties.RetryAllFail | src/email_throttle/core/middlewares/default/retry.py:37-52 | a retry placed directly around the vendor (the last middleware), with a vendor that fails on every try, calls it exactly once per attempt left, sleeps `get_delay(j)` between tries for j = attempt+1 … retries−1 and not after the last, re-raises the last failure, and ends with its counter at 0 |
| PipelineProperties.RetrySucceedsAfter | src/email_throttle/core/middlewares/default/retry.py:37-52 | for a retry placed directly around the vendor (the last middleware): if the first `k` tries fail and the next succeeds within the budget, the vendor is called exactly `k + 1` times, each failure is followed by a sleep of `get_delay` for the new count (counts `attempt + 1` to `attempt + k`, which is also how far the clock moves), the success is returned, and the counter is back to 0 |
| PipelineProperties.RetryEndsReset | src/email_throttle/core/middlewares/default/retry.py:42-48 | wherever it sits in the chain, a retry with attempts left ends its `call` with the counter at 0, whether it returns or re-raises |
| PipelineProperties.RunFails | src/email_throttle/core/service.py:22-31 | with a vendor that raises on every call and every retry in the chain having an attempt left, a delivery through any chain raises, whatever the breakers and limiters hold, and leaves every retry with an attempt left |
| PipelineProperties.BreakerFails | src/email_throttle/core/middlewares/default/circuit_breaker.py:47-61 | a breaker passes on the failure of the rest of the chain, or raises itself when OPEN, and leaves the retries armed |
| PipelineProperties.LimiterFails | src/email_throttle/core/middlewares/default/rate_limiter.py:25-32 | a limiter passes on the failure of the rest of the chain, or raises "Too many requests" itself, and leaves the retries armed |
| PipelineProperties.RetryFails | src/email_throttle/core/middlewares/default/retry.py:37-52 | a retry with an attempt left, around a rest of the chain that keeps failing, re-raises after its last attempt with its counter cleared |
| PipelineProperties.BreakerTripsAfterThreeFailures | tests/unit_tests/email_throttle/core/middlewares/default/test_circuit_breaker.py:15-36 | with threshold 3 and a vendor that always fails, three calls reach the vendor, the third opens the circuit, and the fourth is refused with the OPEN exception before reaching the vendor, which has then been called exactly three times |
| PipelineProperties.HalfOpenProbe | tests/unit_tests/email_throttle/core/middlewares/default/test_circuit_breaker.py:38-63 | once an OPEN breaker's timeout has passed, one call reaches the vendor; a success leaves it CLOSED with count 0, and a failure opens it again from that failure's time |
| PipelineProperties.LimiterTwoPerWindow | tests/unit_tests/email_throttle/core/middlewares/default/test_rate_limiter.py:12-23 | with two calls per window, two calls at one instant reach the vendor, and a third is refused with "Too many requests", so the vendor is called exactly twice |
| StickySpec.Advance | src/email_throttle/core/failover.py:70-72 | the next index is `(i + 1) % N` and is always a valid index; a cycle is counted exactly when it wraps to 0 |
| StickySpec.OnResult | src/email_throttle/core/failover.py:61-72 | the pass delivers exactly when the send succeeded, and then stays on the index with no cycles counted; it raises exactly when the send failed with the cycle count over `max_retries`, leaving the cursor as it was; otherwise it advances; a cursor in range stays in range |
| StickySpec.WalkClosedForm | src/email_throttle/core/failover.py:70-72 | after `k` failures in a row the index is `(i + k) % N` and the cycle count has gone up by `(i + k) / N` |
| StickySpec.AdvanceSpendsOne | src/email_throttle/core/failover.py:65-72 | a failure that does not raise uses up exactly one of the remaining failures |
| StickySpec.FailuresUntilRaise | src/email_throttle/core/failover.py:57-72 | from any cursor in range, exactly `Remaining` failures in a row pass without raising and the next one raises |
| StickySpec.NoRaiseBefore | src/email_throttle/core/failover.py:65-67 | none of the first `Remaining` failures raises |
| StickySpec.TriedAt | src/email_throttle/core/failover.py:57-60 | the `j`-th service tried is where the cursor stood after `j` failures, and it is a valid index |
| StickySpec.AllFailingFromStart | src/email_throttle/core/failover.py:57-72 | from index 0 and no cycles, the failures before the raise number `N * (max_retries + 1)`, and they bring the cursor back to index 0 with `max_retries + 1` cycles |
| StickySpec.RoundRobinFromStart | src/email_throttle/core/failover.py:70-71 | from the start, the `j`-th attempt goes to service `j % N` |
| StickySpec.TwoServicesOneRetry | tests/unit_tests/email_throttle/core/test_failover.py:93-109 | with two services and `max_retries = 1`, the attempts go to services 0, 1, 0, 1, 0 and the fifth raises |
| Service.Environment.Sleep | src/email_throttle/core/middlewares/default/retry.py:52 | sleeping moves the clock on by exactly the delay and records it |
| Service.Vendor.NoOp | src/email_throttle/vendors/noop.py:7-13 | the no-op sender answers every call with "Email sent from" and its name |
| Service.Vendor.SendEmail | src/email_throttle/core/abstract/sender.py:16-18 | a vendor call gives the scripted answer for its call count and records the message |
| Service.ServiceName | src/email_throttle/core/service.py:17 | the name is the vendor's name or its class name; the vendor's name whenever it is set and non-empty; and empty exactly when the vendor's name is missing or empty and the class name is empty |
| Service.CircuitBreaker.constructor | src/email_throttle/core/middlewares/default/circuit_breaker.py:9-14 | the fields are those of a fresh breaker |
| Service.CircuitBreaker.AllowRequest | src/email_throttle/core/middlewares/default/circuit_breaker.py:16-28 | the answer and the new fields are `BreakerSpec.AllowRequest` of the old fields |
| Service.CircuitBreaker.Reset | src/email_throttle/core/middlewares/default/circuit_breaker.py:30-35 | the new fields are `BreakerSpec.Reset` of the old ones |
| Service.CircuitBreaker.RecordFailure | src/email_throttle/core/middlewares/default/circuit_breaker.py:37-45 | the new fields are `BreakerSpec.RecordFailure` of the old ones |
| Service.CircuitBreaker.Finish | src/email_throttle/core/middlewares/default/circuit_breaker.py:53-61 | after the wrapped call, the new fields are `BreakerSpec.AfterCall` of the old ones and the outcome |
| Service.CircuitBreaker.Call | src/email_throttle/core/middlewares/default/circuit_breaker.py:47-61 | result, all middleware states and the world after `call` are `PipelineSpec.BreakerCall` of those before |
| Service.RateLimiter.constructor | src/email_throttle/core/middlewares/default/rate_limiter.py:10-13 | the fields are those of a fresh limiter |
| Service.RateLimiter.AllowRequest | src/email_throttle/core/middlewares/default/rate_limiter.py:15-23 | the answer and the new window are `LimiterSpec.AllowRequest` of the old one |
| Service.RateLimiter.Call | src/email_throttle/core/middlewares/default/rate_limiter.py:25-32 | result, all middleware states and the world after `call` are `PipelineSpec.LimiterCall` of those before |
| Service.Retry.constructor | src/email_throttle/core/middlewares/default/retry.py:29-32 | with `retries` 3 and no backoff when omitted, the fields are those of `RetrySpec.Fresh` |
| Service.Retry.AllowRequest | src/email_throttle/core/middlewares/default/retry.py:34-35 | the answer is whether attempts are left |
| Service.Retry.Call | src/email_throttle/core/middlewares/default/retry.py:37-52 | result, all middleware states and the world after the `while` loop are `PipelineSpec.RetryCall` of those before |
| Service.Retry.Attempt | src/email_throttle/core/middlewares/default/retry.py:39-52 | one pass of the loop either ends the call as `RetryCall` says, or counts one failure and leaves what `RetryCall` computes from the new state unchanged |
| Service.Retry.Settle | src/email_throttle/core/middlewares/default/retry.py:41-52 | after `func()`: reset and stop on success; count the failure, then reset and stop when no attempt is left, or sleep the new count's delay and go on |
| Service.EmailService.constructor | src/email_throttle/core/service.py:10-17 | keeps the vendor and the middlewares and names the service by `ServiceName` |
| Service.EmailService.Pause | src/email_throttle/core/middlewares/default/retry.py:52 | sleeping changes only the world, as `PipelineSpec.Sleep` |
| Service.EmailService.RunFrom | src/email_throttle/core/service.py:19-28 | running the closures from position `i` gives the result, states and world of `PipelineSpec.Run` |
| Service.EmailService.SendEmail | src/email_throttle/core/service.py:22-34 | the delivery is `PipelineSpec.Run` of the whole chain, an exception is returned rather than raised, and the flag is true exactly when the chain returned |
| Failover.SendWith | src/email_throttle/core/failover.py:27 | the `k`-th service's delivery is `PipelineSpec.Run` of its middleware states and world at the call; afterwards the services hold what `Apply` says: that service its new states and world, every other its old states, its own vendor record, and the shared clock and trace as they now are |
| Failover.AfterOne | src/email_throttle/core/failover.py:25-27 | once one service alone has changed, the snapshot of all services is that service's new states and world applied to the old snapshot, and the family stays well formed |
| Failover.Bystanders | src/email_throttle/core/failover.py:25-27 | once one service alone has changed, every other service keeps its middleware states and vendor record and sees the shared clock and trace |
| Failover.EmailFailover.constructor | src/email_throttle/core/failover.py:15-16 | keeps the services |
| Failover.EmailFailover.SendEmail | src/email_throttle/core/failover.py:18-34 | the `k`-th attempt is service `k`'s delivery, made from the middleware states it had when the call began and from the snapshot the earlier attempts left; the snapshots run from the state at the call to the state at the end; all but the last attempt failed; the answer is true exactly when the last one sent; on false every service was tried (none for an empty list); services not reached keep their states |
| Failover.EmailFailoverWithState.constructor | src/email_throttle/core/failover.py:46-50 | starts at index 0 with no cycles |
| Failover.EmailFailoverWithState.TryCurrent | src/email_throttle/core/failover.py:58-60 | a delivery by the current service from its current states and world, after which the services hold what `Apply` says; the cursor does not move |
| Failover.EmailFailoverWithState.MoveOn | src/email_throttle/core/failover.py:69-72 | the cursor advances as `StickySpec.Advance` and stays in range |
| Failover.EmailFailoverWithState.Pass | src/email_throttle/core/failover.py:58-72 | one loop pass: the current service's delivery from the states and world it had, the services then holding what `Apply` says, and the cursor and the raise exactly as `StickySpec.OnResult` gives them for the old cursor and the outcome |
| Failover.EmailFailoverWithState.Steer | src/email_throttle/core/failover.py:61-72 | the branches after a delivery move the cursor and raise exactly as `StickySpec.OnResult` says and touch no service |
| Failover.EmailFailoverWithState.Round | src/email_throttle/core/failover.py:57-72 | one loop pass adds one attempt, made from the snapshot the record ends in, and the snapshot after it; it either extends the record of failures in a row or ends the call as `Finished` describes |
| Failover.Extends | src/email_throttle/core/failover.py:57-72 | an attempt from the snapshot a record of failures ends in, with the cursor moved as `StickySpec.OnResult` says, extends the record or finishes the call |
| Failover.EmailFailoverWithState.SendEmail | src/email_throttle/core/failover.py:52-74 | false at once for no services; otherwise the `k`-th attempt is the delivery by the service the cursor reaches after `k` failures, from the snapshot the earlier attempts left, the snapshots running from the state at the call to the state at the end; all but the last fail, and either the last sends (cursor stays, cycles cleared) or "Max retries reached" is raised after exactly `Remaining + 1` attempts |
| Failover.AllFailingRaises | src/email_throttle/core/failover.py:57-72 | when every vendor always raises and every retry has an attempt left at the call, a fresh failover tries the services round-robin `N * (max_retries + 1) + 1` times, then raises "Max retries reached" with the cursor at index 0 |
| Failover.FailuresStayArmed | src/email_throttle/core/failover.py:57-72 | with vendors that always raise and every retry armed at the call, every recorded attempt fails and keeps every retry armed |
| Failover.SuccessSticks | src/email_throttle/core/failover.py:61-64 | after a sticky send succeeds, the cursor rests on the service that sent, with no cycles, so the next message starts there |

## Left out

- Logging (loguru) is not modelled; it has no effect on the state.
- `time.sleep` does not wait. It moves the integer clock on by the delay and records a `Slept` event.
- `datetime.now()` is the integer clock `Environment.now`, in whole seconds; microseconds are not modelled. Between deliveries the caller may set the clock; only Retry's sleep moves it during one.
- Backoff parameters are natural numbers. The floating-point parameters the tests use, such as 0.1, 1.5 and 0.01, are not modelled.
- The vendor is a script of answers by call count. Mock internals of the tests are not modelled.
- Shared middleware instances and vendors are not modelled. `EmailService.Valid` requires that an instance appears at most once in one service's list. `Failover.Family` requires that no middleware instance and no vendor appears in two services of one failover. Python allows both kinds of sharing.
- All services of one failover read one clock and leave their events in one trace: `Failover.Family` requires one `Environment` for all of them. This matches Python, where `datetime.now()` is one global clock.
- `BreakerSpec.AllowRequest` requires a failure time whenever the state is OPEN. In Python an OPEN breaker with no failure time raises a `TypeError`. No reachable state has that combination: the invariant `BreakerSpec.Inv` rules it out.
- Only `Exception` is modelled: every raised exception is an `Err` carrying a message. Exceptions outside `Exception` and the Python exception class hierarchy are not modelled.
- `EmailService._send_email` is not a separate member. Its closure is the innermost step, `PipelineSpec.Deliver`.
- The CLI, simulator, RabbitMQ producer and consumer, HTTP API and configuration layers are not part of this model. They are I/O and glue.
- `EmailMessage` is a plain record. The abstract `Middleware`, `Backoff` and `EmailSender` interfaces become the datatypes `Middleware` and `Backoff` and the class `Vendor`.
- Service.Retry.Call: its contract does not state that `0 <= attempt < retries` during the loop. That holds as the loop guard, and `Service.Retry.Attempt` requires it.
- The failover classes record the deliveries they made, and a snapshot of every service's middleware states and world before and after each, in outputs that exist only for the proofs. These outputs play no part in what the methods compute.
- Default arguments are kept where the source has them (`retries=3`, `backoff=None`, `ExponentialBackoff(base=1, factor=2, max_delay=60)`, `ConstantBackoff(seconds=10)`, `max_retries=10000`); `EmailService` takes its `Environment` as an extra argument, because the clock and trace are objects here.

Where the code behaves differently from what its comments, docstrings or tests suggest, the model follows the code:
- **Elapsed time.** The comment at `circuit_breaker.py:23` speaks of the time between the last failure and now, but `(now - last).seconds` at `circuit_breaker.py:22` is the seconds field of a `timedelta`, which drops whole days. An OPEN breaker therefore compares the elapsed time modulo one day with its timeout (`BreakerSpec.AllowIgnoresWholeDays`, `BreakerSpec.OpenAfterOneDayStillRefuses`).

Behaviour of the code worth knowing, which the model follows:
- **HALF-OPEN probes.** Nothing in `allow_request` at `circuit_breaker.py:21-28` limits HALF-OPEN to one call: it admits every call until one succeeds or fails (`BreakerSpec.NotOpenAlwaysAdmits`).
- **Non-consecutive failures.** `call` at `circuit_breaker.py:52-57` resets the count only in HALF-OPEN, so a success while CLOSED does not clear the failure count, and failures need not be consecutive to open the breaker (`BreakerSpec.AfterCall`).
- **Retry with `retries <= 0`.** The loop at `retry.py:38` never runs, so `call` never runs `func` and returns `None` (`PipelineProperties.DeclineStopsChain`).
- **Sticky failover attempt count.** The check `self.cycles > self.max_retries` at `failover.py:65` is strict. With every service failing, a fresh sticky failover makes `N * (max_retries + 1) + 1` attempts before raising. For two services and `max_retries = 1`, the setting of `tests/unit_tests/email_throttle/core/test_failover.py:93-109`, the attempts go to services 0, 1, 0, 1, 0 and the fifth, at service 0, raises (`StickySpec.TwoServicesOneRetry`, `Failover.AllFailingRaises`).
