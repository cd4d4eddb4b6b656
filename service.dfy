/** The objects of `service.py` and of the three middlewares as classes whose
    fields change in place, and `EmailService.send_email` as the method that
    runs them.

    A middleware's `call(func)` receives the rest of the chain as `func`. Here
    that closure is named by the service and a position: middleware `i`'s
    `Call(svc, i, msg)` runs `svc.RunFrom(i + 1, msg)` wherever the source
    calls `func()`. Every method is proved against the functions of
    `PipelineSpec`: the result, the middlewares' new states and the new world
    are what the pure semantics computes from the old ones. */
module Service {
  import opened Messages
  import BreakerSpec
  import LimiterSpec
  import RetrySpec
  import opened PipelineSpec

  /** The clock `datetime.now()` and `time.sleep` act on, and the record of
      what happened during a delivery. */
  class Environment {
    var now: int
    var trace: seq<Event>

    constructor (start: int)
      ensures now == start && trace == []
    {
      now := start;
      trace := [];
    }

    method Note(e: Event)
      modifies this
      ensures now == old(now) && trace == old(trace) + [e]
    {
      trace := trace + [e];
    }

    /** `time.sleep(seconds)`. */
    method Sleep(seconds: nat)
      modifies this
      ensures now == old(now) + seconds && trace == old(trace) + [Slept(seconds)]
    {
      now := now + seconds;
      trace := trace + [Slept(seconds)];
    }
  }

  /** How Python prints an optional name inside an f-string. */
  function Show(name: Option<string>): string {
    match name
    case None => "None"
    case Some(s) => s
  }

  /** An `EmailSender`: its `name` property, its class name, and how its
      `send_email` behaves, given as the answer to the `k`-th call. */
  class Vendor {
    const name: Option<string>
    const className: string
    const respond: Script
    var sent: seq<EmailMessage>

    constructor (name: Option<string>, className: string, respond: Script)
      ensures this.name == name && this.className == className && this.respond == respond
      ensures sent == []
    {
      this.name := name;
      this.className := className;
      this.respond := respond;
      sent := [];
    }

    /** `NoOpEmailSender(name)`: never fails, answers with its own name. */
    constructor NoOp(name: Option<string>)
      ensures this.name == name && className == "NoOpEmailSender" && sent == []
      ensures forall m: EmailMessage, k: nat :: respond(m, k) == Ok(Text("Email sent from " + Show(name)))
    {
      this.name := name;
      className := "NoOpEmailSender";
      respond := (m: EmailMessage, k: nat) => Ok(Text("Email sent from " + Show(name)));
      sent := [];
    }

    method SendEmail(msg: EmailMessage) returns (r: Result<Value>)
      modifies this
      ensures r == respond(msg, |old(sent)|) && sent == old(sent) + [msg]
    {
      r := respond(msg, |sent|);
      sent := sent + [msg];
    }
  }

  /** `vendor.name or vendor.__class__.__name__`: the vendor's own name wins
      whenever it is set and non-empty; otherwise the class name is used.
      So a service is unnamed only when both are missing or empty. */
  function ServiceName(name: Option<string>, className: string): (n: string)
    ensures n == className || (name.Some? && n == name.value)
    ensures name.Some? && name.value != "" ==> n == name.value
    ensures n == "" <==> (name.None? || name.value == "") && className == ""
  {
    if name.Some? && name.value != "" then name.value else className
  }

  /** An entry of the middleware list, by kind. */
  datatype Middleware = CB(breaker: CircuitBreaker) | RL(limiter: RateLimiter) | RT(retry: Retry) {
    function Obj(): object {
      match this
      case CB(b) => b
      case RL(l) => l
      case RT(r) => r
    }

    function Abs(): Mw
      reads Obj()
    {
      match this
      case CB(b) => MBreaker(b.Model())
      case RL(l) => MLimiter(l.Model())
      case RT(r) => MRetry(r.Model())
    }
  }

  class CircuitBreaker {
    const failureThreshold: int
    const resetTimeout: int
    var failureCount: int
    var lastFailureTime: Option<int>
    var state: BreakerSpec.State

    function Model(): BreakerSpec.Breaker
      reads this
    {
      BreakerSpec.Breaker(failureThreshold, resetTimeout, failureCount, lastFailureTime, state)
    }

    constructor (failureThreshold: int, resetTimeout: int)
      ensures Model() == BreakerSpec.Fresh(failureThreshold, resetTimeout)
    {
      this.failureThreshold := failureThreshold;
      this.resetTimeout := resetTimeout;
      failureCount := 0;
      lastFailureTime := None;
      state := BreakerSpec.Closed;
    }

    method AllowRequest(now: int) returns (allowed: bool)
      requires BreakerSpec.Inv(Model())
      modifies this
      ensures BreakerSpec.AllowRequest(old(Model()), now) == BreakerSpec.Decision(allowed, Model())
    {
      if state == BreakerSpec.Open {
        var timeout := BreakerSpec.SecondsField(now, lastFailureTime.value);
        if timeout >= resetTimeout {
          state := BreakerSpec.HalfOpen;
          return true;
        }
        return false;
      }
      return true;
    }

    method Reset()
      modifies this
      ensures Model() == BreakerSpec.Reset(old(Model()))
    {
      failureCount := 0;
      state := BreakerSpec.Closed;
    }

    method RecordFailure(now: int)
      modifies this
      ensures Model() == BreakerSpec.RecordFailure(old(Model()), now)
    {
      failureCount := failureCount + 1;
      lastFailureTime := Some(now);
      if failureCount >= failureThreshold {
        state := BreakerSpec.Open;
        lastFailureTime := Some(now);
      }
    }

    /** `call(func)`: refuse while OPEN; otherwise run the rest of the chain,
        close a HALF-OPEN breaker on success and record a failure. */
    method Call(svc: EmailService, i: nat, msg: EmailMessage) returns (r: Result<Value>)
      requires svc.Valid() && i < |svc.middlewares| && svc.middlewares[i] == CB(this)
      modifies svc.Objects()
      ensures svc.Valid()
      ensures Step(r, svc.States(), svc.World())
           == BreakerCall(old(svc.States()), i, old(svc.World()), msg, svc.vendor.respond)
      decreases |svc.middlewares| - i, 1, 1
    {
      ghost var ms := svc.States();
      ghost var w := svc.World();
      svc.StateOf(i);
      var allowed := Admit(svc, i);
      ghost var d := BreakerSpec.AllowRequest(ms[i].breaker, w.now);
      ghost var admitted := ms[i := MBreaker(d.breaker)];
      assert svc.States() == admitted && svc.World() == w;
      if !allowed {
        return Err(BreakerSpec.OpenError(Model()));
      }
      r := svc.RunFrom(i + 1, msg);
      ghost var inner := Run(admitted, i + 1, w, msg, svc.vendor.respond);
      assert svc.States() == inner.states && svc.World() == inner.world;
      svc.StateOf(i);
      assert Model() == d.breaker by {
        assert inner.states[..i + 1][i] == admitted[..i + 1][i];
      }
      Conclude(svc, i, r);
      assert svc.States() == inner.states[i := MBreaker(BreakerSpec.AfterCall(d.breaker, r, inner.world.now))];
    }

    /** `allow_request()` at the service's clock, as the service holding this
        breaker at position `i` sees it: only entry `i` of its states changes. */
    method Admit(svc: EmailService, i: nat) returns (allowed: bool)
      requires svc.Distinct() && i < |svc.middlewares| && svc.middlewares[i] == CB(this)
      requires BreakerSpec.Inv(Model())
      modifies this
      ensures BreakerSpec.AllowRequest(old(Model()), svc.env.now) == BreakerSpec.Decision(allowed, Model())
      ensures svc.States() == old(svc.States())[i := MBreaker(Model())]
    {
      allowed := AllowRequest(svc.env.now);
      svc.OnlyChanged(i);
    }

    /** `Finish` at the service's clock, as the service holding this breaker
        at position `i` sees it. */
    method Conclude(svc: EmailService, i: nat, outcome: Result<Value>)
      requires svc.Distinct() && i < |svc.middlewares| && svc.middlewares[i] == CB(this)
      modifies this
      ensures Model() == BreakerSpec.AfterCall(old(Model()), outcome, svc.env.now)
      ensures svc.States() == old(svc.States())[i := MBreaker(Model())]
    {
      Finish(outcome, svc.env.now);
      svc.OnlyChanged(i);
    }

    /** What `call` does after `func()` has returned or raised. */
    method Finish(outcome: Result<Value>, now: int)
      modifies this
      ensures Model() == BreakerSpec.AfterCall(old(Model()), outcome, now)
    {
      match outcome {
        case Ok(_) =>
          if state == BreakerSpec.HalfOpen {
            Reset();
          }
        case Err(_) =>
          RecordFailure(now);
      }
    }
  }

  class RateLimiter {
    const maxRequests: int
    const perSecond: int
    var requests: seq<int>

    function Model(): LimiterSpec.Limiter
      reads this
    {
      LimiterSpec.Limiter(maxRequests, perSecond, requests)
    }

    constructor (maxRequests: int, perSecond: int)
      ensures Model() == LimiterSpec.Fresh(maxRequests, perSecond)
    {
      this.maxRequests := maxRequests;
      this.perSecond := perSecond;
      requests := [];
    }

    method AllowRequest(now: int) returns (allowed: bool)
      modifies this
      ensures LimiterSpec.AllowRequest(old(Model()), now) == LimiterSpec.Admission(allowed, Model())
    {
      requests := LimiterSpec.Prune(requests, now - perSecond);
      if |requests| < maxRequests {
        requests := requests + [now];
        return true;
      }
      return false;
    }

    /** `call(func)`: refuse when over the limit, otherwise run the rest of
        the chain and pass its result or exception through. */
    method Call(svc: EmailService, i: nat, msg: EmailMessage) returns (r: Result<Value>)
      requires svc.Valid() && i < |svc.middlewares| && svc.middlewares[i] == RL(this)
      modifies svc.Objects()
      ensures svc.Valid()
      ensures Step(r, svc.States(), svc.World())
           == LimiterCall(old(svc.States()), i, old(svc.World()), msg, svc.vendor.respond)
      decreases |svc.middlewares| - i, 1, 1
    {
      svc.StateOf(i);
      var allowed := AllowRequest(svc.env.now);
      svc.OnlyChanged(i);
      if !allowed {
        return Err(LimiterSpec.TooManyRequests);
      }
      r := svc.RunFrom(i + 1, msg);
    }
  }

  class Retry {
    const retries: int
    const backoff: RetrySpec.Backoff
    var attempt: nat

    function Model(): RetrySpec.RetryState
      reads this
    {
      RetrySpec.RetryState(retries, backoff, attempt)
    }

    /** `__init__(retries=3, backoff=None)`. */
    constructor (retries: int := 3, backoff: Option<RetrySpec.Backoff> := None)
      ensures Model() == RetrySpec.Fresh(retries, backoff)
    {
      this.retries := retries;
      this.backoff := match backoff case Some(b) => b case None => RetrySpec.DefaultBackoff;
      attempt := 0;
    }

    /** `allow_request`. */
    function AllowRequest(): (allowed: bool)
      reads this
      ensures allowed == RetrySpec.AllowRequest(Model())
    {
      attempt < retries
    }

    /** `call(func)`: try the rest of the chain until it succeeds or the
        attempts are used up, sleeping for the backoff delay in between. */
    method Call(svc: EmailService, i: nat, msg: EmailMessage) returns (r: Result<Value>)
      requires svc.Valid() && i < |svc.middlewares| && svc.middlewares[i] == RT(this)
      modifies svc.Objects()
      ensures svc.Valid()
      ensures Step(r, svc.States(), svc.World())
           == RetryCall(old(svc.States()), i, old(svc.World()), msg, svc.vendor.respond)
      decreases |svc.middlewares| - i, 1, 1
    {
      ghost var goal := RetryCall(svc.States(), i, svc.World(), msg, svc.vendor.respond);
      while AllowRequest()
        invariant svc.Valid()
        invariant RetryCall(svc.States(), i, svc.World(), msg, svc.vendor.respond) == goal
        decreases retries - attempt
      {
        var done;
        r, done := Attempt(svc, i, msg);
        if done {
          return;
        }
      }
      svc.StateOf(i);
      r := Ok(Nothing);
    }

    /** One pass of the loop in `call`: run the rest of the chain once; on
        success or on the last failure the call is over (`done`), otherwise
        the failure is counted and the backoff delay slept. */
    method Attempt(svc: EmailService, i: nat, msg: EmailMessage) returns (r: Result<Value>, done: bool)
      requires svc.Valid() && i < |svc.middlewares| && svc.middlewares[i] == RT(this)
      requires AllowRequest()
      modifies svc.Objects()
      ensures svc.Valid()
      ensures done ==> (Step(r, svc.States(), svc.World())
                        == RetryCall(old(svc.States()), i, old(svc.World()), msg, svc.vendor.respond))
      ensures !done ==> (attempt == old(attempt) + 1
                         && RetryCall(svc.States(), i, svc.World(), msg, svc.vendor.respond)
                         == RetryCall(old(svc.States()), i, old(svc.World()), msg, svc.vendor.respond))
      decreases |svc.middlewares| - i, 1, 0
    {
      svc.StateOf(i);
      ghost var ms := svc.States();
      ghost var w := svc.World();
      r := svc.RunFrom(i + 1, msg);
      done := Settle(svc, i, msg, r, ms, w);
    }

    /** `self.attempt = a`, as the service holding this retry at position
        `i` sees it: only entry `i` of its states changes. */
    method SetAttempt(svc: EmailService, i: nat, a: nat)
      requires svc.Distinct() && i < |svc.middlewares| && svc.middlewares[i] == RT(this)
      modifies this
      ensures attempt == a
      ensures svc.States() == old(svc.States())[i := MRetry(Model())]
    {
      attempt := a;
      svc.OnlyChanged(i);
    }

    /** The rest of the loop body once `func()` has returned `r` or raised:
        reset the counter on success; otherwise count the failure and either
        reset it and give up or sleep for the delay of the new count. */
    method Settle(svc: EmailService, i: nat, msg: EmailMessage, r: Result<Value>, ghost ms: seq<Mw>, ghost w: World)
      returns (done: bool)
      requires svc.Valid() && i < |svc.middlewares| && svc.middlewares[i] == RT(this)
      requires i < |ms| && Valid(ms) && ms[i] == MRetry(Model()) && AllowRequest()
      requires Step(r, svc.States(), svc.World()) == Run(ms, i + 1, w, msg, svc.vendor.respond)
      modifies this, svc.env
      ensures svc.Valid()
      ensures done ==> (Step(r, svc.States(), svc.World()) == RetryCall(ms, i, w, msg, svc.vendor.respond))
      ensures !done ==> (attempt == old(attempt) + 1
                         && RetryCall(svc.States(), i, svc.World(), msg, svc.vendor.respond)
                         == RetryCall(ms, i, w, msg, svc.vendor.respond))
    {
      ghost var rt := ms[i].retry;
      ghost var inner := Run(ms, i + 1, w, msg, svc.vendor.respond);
      svc.StateOf(i);
      assert inner.states[i] == ms[i] by {
        assert inner.states[..i + 1][i] == ms[..i + 1][i];
      }
      if r.Ok? {
        SetAttempt(svc, i, 0);
        assert svc.States() == inner.states[i := MRetry(rt.(attempt := 0))];
        return true;
      }
      SetAttempt(svc, i, attempt + 1);
      if !AllowRequest() {
        SetAttempt(svc, i, 0);
        assert svc.States() == inner.states[i := MRetry(rt.(attempt := 0))];
        return true;
      }
      ghost var next := inner.states[i := MRetry(Model())];
      assert svc.States() == next && svc.World() == inner.world;
      var delay := backoff.GetDelay(attempt);
      svc.Pause(delay);
      done := false;
    }
  }

  /** `EmailService`: a vendor wrapped in a list of middlewares. */
  class EmailService {
    const vendor: Vendor
    const middlewares: seq<Middleware>
    const env: Environment
    const name: string

    constructor (vendor: Vendor, middlewares: seq<Middleware>, env: Environment)
      ensures this.vendor == vendor && this.middlewares == middlewares && this.env == env
      ensures name == ServiceName(vendor.name, vendor.className)
    {
      this.vendor := vendor;
      this.middlewares := middlewares;
      this.env := env;
      name := ServiceName(vendor.name, vendor.className);
    }

    function MiddlewareObjects(): set<object> {
      set j | 0 <= j < |middlewares| :: middlewares[j].Obj()
    }

    function Objects(): set<object> {
      MiddlewareObjects() + {vendor, env}
    }

    /** No middleware instance appears twice in the list. */
    predicate Distinct() {
      forall j, k :: 0 <= j < k < |middlewares| ==> middlewares[j].Obj() != middlewares[k].Obj()
    }

    /** The middlewares' states, in list order. */
    function States(): (s: seq<Mw>)
      reads MiddlewareObjects()
      ensures |s| == |middlewares|
      ensures forall j :: 0 <= j < |middlewares| ==> s[j] == middlewares[j].Abs()
    {
      seq(|middlewares|, j requires 0 <= j < |middlewares| reads MiddlewareObjects() => middlewares[j].Abs())
    }

    function World(): World
      reads vendor, env
    {
      PipelineSpec.World(env.now, vendor.sent, env.trace)
    }

    ghost predicate Valid()
      reads MiddlewareObjects()
    {
      Distinct() && PipelineSpec.Valid(States())
    }

    lemma StateOf(i: nat)
      requires i < |middlewares|
      ensures middlewares[i].Obj() in MiddlewareObjects()
      ensures States()[i] == middlewares[i].Abs()
    {
    }

    /** When only middleware `i` has changed, only entry `i` of the states
        has. */
    twostate lemma OnlyChanged(i: nat)
      requires Distinct() && i < |middlewares|
      requires unchanged(MiddlewareObjects() - {middlewares[i].Obj()})
      ensures States() == old(States())[i := middlewares[i].Abs()]
    {
      forall j | 0 <= j < |middlewares| && j != i
        ensures middlewares[j].Abs() == old(middlewares[j].Abs())
      {
        assert middlewares[j].Obj() in MiddlewareObjects() - {middlewares[i].Obj()};
      }
    }

    /** `time.sleep(seconds)` on this service's clock: no middleware
        changes. */
    method Pause(seconds: nat)
      modifies env
      ensures States() == old(States()) && Valid() == old(Valid())
      ensures World() == Sleep(old(World()), seconds)
    {
      env.Sleep(seconds);
    }

    /** The chain from position `i`: middleware `i`'s `call` with the rest as
        its `func`, or, past the end, `self.service.send_email(message)`. */
    method RunFrom(i: nat, msg: EmailMessage) returns (r: Result<Value>)
      requires Valid() && i <= |middlewares|
      modifies Objects()
      ensures Valid()
      ensures Step(r, States(), World()) == Run(old(States()), i, old(World()), msg, vendor.respond)
      decreases |middlewares| - i, 2, 0
    {
      ghost var ms := States();
      ghost var w := World();
      if i == |middlewares| {
        r := vendor.SendEmail(msg);
        env.Note(VendorCalled);
        assert States() == ms;
        assert World() == w.(sent := w.sent + [msg], trace := w.trace + [VendorCalled]);
      } else {
        env.Note(Entered(i));
        assert States() == ms;
        assert World() == w.(trace := w.trace + [Entered(i)]);
        StateOf(i);
        match middlewares[i]
        case CB(b) => r := b.Call(this, i, msg);
        case RL(l) => r := l.Call(this, i, msg);
        case RT(t) => r := t.Call(this, i, msg);
      }
    }

    /** `send_email(message)`: run the whole chain; `(True, result)` when it
        returns, `(False, exception)` when it raises. */
    method SendEmail(msg: EmailMessage) returns (sent: bool, outcome: Result<Value>)
      requires Valid()
      modifies Objects()
      ensures Valid()
      ensures Step(outcome, States(), World()) == Run(old(States()), 0, old(World()), msg, vendor.respond)
      ensures sent <==> outcome.Ok?
    {
      outcome := RunFrom(0, msg);
      sent := outcome.Ok?;
    }
  }
}
