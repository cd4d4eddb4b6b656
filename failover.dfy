/** `failover.py`: two ways of delivering one message through a list of
    email services. `EmailFailover` tries the services in order, each at most
    once; `EmailFailoverWithState` stays with the last service that worked
    and walks round the list on failures until a cycle limit raises. */
module Failover {
  import opened Messages
  import opened PipelineSpec
  import opened StickySpec
  import Service
  import PipelineProperties

  /** Every middleware instance of any of the services. */
  function Middlewares(services: seq<Service.EmailService>): set<object> {
    set k, o | 0 <= k < |services| && o in services[k].MiddlewareObjects() :: o
  }

  /** The vendors and environments of the services. */
  function Outside(services: seq<Service.EmailService>): set<object> {
    (set k | 0 <= k < |services| :: services[k].vendor as object)
    + (set k | 0 <= k < |services| :: services[k].env as object)
  }

  /** Every object any of the services may change. */
  function Footprint(services: seq<Service.EmailService>): set<object> {
    Middlewares(services) + Outside(services)
  }

  /** Each service is ready to send; no middleware instance and no vendor
      is shared between two of them, so one service's delivery leaves the
      others' middlewares and vendors alone; and they all read one clock and
      leave their events in one trace. */
  ghost predicate Family(services: seq<Service.EmailService>)
    reads Middlewares(services)
  {
    && (forall k :: 0 <= k < |services| ==> services[k].Valid())
    && (forall j, k :: 0 <= j < k < |services| ==>
          services[j].MiddlewareObjects() !! services[k].MiddlewareObjects())
    && (forall j, k :: 0 <= j < k < |services| ==> services[j].vendor != services[k].vendor)
    && (forall k :: 0 <= k < |services| ==> services[k].env == services[0].env)
  }

  /** A delivery of `msg` by one service: running its whole chain from the
      given middleware states and world gives `s`. */
  ghost predicate Delivery(svc: Service.EmailService, ms: seq<Mw>, w: World, msg: EmailMessage, s: Step) {
    Valid(ms) && s == Run(ms, 0, w, msg, svc.vendor.respond)
  }

  /** One attempt by one service: the middleware states and world it started
      from, and what running its chain gave. */
  datatype Try = Try(states: seq<Mw>, world: World, step: Step)

  /** What every service holds at one moment: its middleware states and the
      world it sees, in list order. */
  datatype Snapshot = Snapshot(states: seq<seq<Mw>>, worlds: seq<World>)

  ghost predicate Shaped(services: seq<Service.EmailService>, c: Snapshot) {
    |c.states| == |services| && |c.worlds| == |services|
  }

  /** The worlds the services see once service `k`'s delivery has left the
      world `w`: `k` sees `w`, and every other service sees its clock and
      trace with its own vendor's record. */
  function Share(ws: seq<World>, k: nat, w: World): (r: seq<World>)
    ensures |r| == |ws|
    ensures forall j :: 0 <= j < |ws| ==> r[j] == if j == k then w else ws[j].(now := w.now, trace := w.trace)
  {
    seq(|ws|, j requires 0 <= j < |ws| => if j == k then w else ws[j].(now := w.now, trace := w.trace))
  }

  /** What the services hold after service `k` made the delivery `s`. */
  function Apply(c: Snapshot, k: nat, s: Step): Snapshot
    requires k < |c.states|
  {
    Snapshot(c.states[k := s.states], Share(c.worlds, k, s.world))
  }

  /** The attempt `t` was service `j`'s delivery of `msg` from exactly the
      middleware states and world `before` gives that service, and `after`
      is what the services held once it was over. */
  ghost predicate Made(services: seq<Service.EmailService>, msg: EmailMessage,
                       before: Snapshot, t: Try, after: Snapshot, j: int)
  {
    && 0 <= j < |services| && Shaped(services, before)
    && t.states == before.states[j] && t.world == before.worlds[j]
    && Delivery(services[j], t.states, t.world, msg, t.step)
    && after == Apply(before, j, t.step)
  }

  /** `log` is a record of attempts in order, the `k`-th by service
      `tried[k]`, and `snaps` follows what every service held: before the
      first attempt, between every two, and after the last. */
  ghost predicate Recorded(services: seq<Service.EmailService>, msg: EmailMessage,
                           tried: seq<int>, log: seq<Try>, snaps: seq<Snapshot>)
  {
    && |tried| == |log| && |snaps| == |log| + 1
    && forall k :: 0 <= k < |log| ==> Made(services, msg, snaps[k], log[k], snaps[k + 1], tried[k])
  }

  /** A record grows by an attempt made from what the services held at its
      end. */
  lemma RecordGrows(services: seq<Service.EmailService>, msg: EmailMessage,
                    tried: seq<int>, log: seq<Try>, snaps: seq<Snapshot>, j: int, t: Try, after: Snapshot)
    requires Recorded(services, msg, tried, log, snaps)
    requires Made(services, msg, snaps[|log|], t, after, j)
    ensures Recorded(services, msg, tried + [j], log + [t], snaps + [after])
  {
    var tried', log', snaps' := tried + [j], log + [t], snaps + [after];
    forall k | 0 <= k < |log'|
      ensures Made(services, msg, snaps'[k], log'[k], snaps'[k + 1], tried'[k])
    {
      if k < |log| {
        assert snaps'[k] == snaps[k] && snaps'[k + 1] == snaps[k + 1] && log'[k] == log[k] && tried'[k] == tried[k];
      }
    }
  }

  /** The state between two passes of the sticky failover's loop, begun at
      cursor `c0`: `log` holds failures in a row, none of which raised, the
      `k`-th by service `tried[k]`, and `p` is where the cursor went. */
  ghost predicate Progress(services: seq<Service.EmailService>, maxRetries: int, msg: EmailMessage,
                           c0: Cursor, p: Cursor, tried: seq<int>, log: seq<Try>, snaps: seq<Snapshot>)
  {
    var n := |services|;
    && n > 0 && InRange(n, maxRetries, c0)
    && |log| <= Remaining(n, maxRetries, c0) && Recorded(services, msg, tried, log, snaps)
    && p == Walk(n, c0, |log|) && tried == Tried(n, c0, |log|)
    && forall k :: 0 <= k < |log| ==> log[k].step.result.Err?
  }

  /** How a sticky `send_email` begun at cursor `c0` ended, with the cursor
      at `p`: the `k`-th attempt was service `tried[k]`, the one the cursor
      reaches after `k` failures, made from the states the earlier attempts
      left; all but the last failed; and either the last one sent (`Ok(true)`,
      cycle count cleared) or the cycle count was over `maxRetries` and the
      call raised "Max retries reached" after exactly `Remaining(c0) + 1`
      attempts. */
  ghost predicate Finished(services: seq<Service.EmailService>, maxRetries: int, msg: EmailMessage,
                           c0: Cursor, p: Cursor, outcome: Result<bool>, tried: seq<int>, log: seq<Try>,
                           snaps: seq<Snapshot>)
  {
    var n := |services|;
    && n > 0 && |log| > 0 && Recorded(services, msg, tried, log, snaps) && outcome != Ok(false)
    && tried == Tried(n, c0, |log|)
    && (forall k :: 0 <= k < |log| - 1 ==> log[k].step.result.Err?)
    && |log| <= Remaining(n, maxRetries, c0) + 1
    && var last := Walk(n, c0, |log| - 1);
    && (outcome == Ok(true) <==> log[|log| - 1].step.result.Ok?)
    && (outcome == Ok(true) ==> p == last.(cycles := 0))
    && (outcome.Err? ==> outcome.error == Exception("Max retries reached")
                         && last.cycles > maxRetries && p == last
                         && |log| == Remaining(n, maxRetries, c0) + 1)
  }

  /** Every retry of every service has an attempt left. */
  ghost predicate AllArmed(c: Snapshot) {
    forall k :: 0 <= k < |c.states| ==> PipelineProperties.Armed(c.states[k])
  }

  /** Each vendor raises on every call. */
  ghost predicate VendorsFail(services: seq<Service.EmailService>) {
    forall k :: 0 <= k < |services| ==> PipelineProperties.AlwaysFails(services[k].vendor.respond)
  }

  /** With vendors that always raise and retries that all have an attempt
      left at the start, every recorded attempt fails, and each one leaves
      every retry with an attempt left for the next. */
  lemma {:induction false} FailuresStayArmed(services: seq<Service.EmailService>, msg: EmailMessage,
                                             tried: seq<int>, log: seq<Try>, snaps: seq<Snapshot>, m: nat)
    requires Recorded(services, msg, tried, log, snaps) && m <= |log|
    requires VendorsFail(services) && AllArmed(snaps[0])
    ensures AllArmed(snaps[m])
    ensures forall k :: 0 <= k < m ==> log[k].step.result.Err?
  {
    if m > 0 {
      FailuresStayArmed(services, msg, tried, log, snaps, m - 1);
      var j, t := tried[m - 1], log[m - 1];
      assert Made(services, msg, snaps[m - 1], t, snaps[m], j);
      PipelineProperties.RunFails(t.states, 0, t.world, msg, services[j].vendor.respond);
      assert snaps[m].states == snaps[m - 1].states[j := t.step.states];
    }
  }

  /** When every vendor always raises and every retry has an attempt left,
      a sticky `send_email` begun at the start with some retries allowed
      tries the services round-robin, `n * (maxRetries + 1) + 1` times in
      all, and raises "Max retries reached" with the cursor back at the
      first service. */
  lemma AllFailingRaises(services: seq<Service.EmailService>, maxRetries: int, msg: EmailMessage,
                         p: Cursor, outcome: Result<bool>, tried: seq<int>, log: seq<Try>, snaps: seq<Snapshot>)
    requires maxRetries >= 0
    requires Finished(services, maxRetries, msg, Start, p, outcome, tried, log, snaps)
    requires VendorsFail(services) && AllArmed(snaps[0])
    ensures outcome == Err(Exception("Max retries reached"))
    ensures |log| == |services| * (maxRetries + 1) + 1
    ensures forall k :: 0 <= k < |tried| ==> tried[k] == k % |services|
    ensures p == Cursor(0, maxRetries + 1)
  {
    FailuresStayArmed(services, msg, tried, log, snaps, |log|);
    assert log[|log| - 1].step.result.Err?;
    assert outcome != Ok(true) && outcome != Ok(false);
    match outcome {
      case Ok(sent) => assert false;
      case Err(_) =>
    }
    AllFailingFromStart(|services|, maxRetries);
    RoundRobinFromStart(|services|, |log|);
  }

  /** A sticky `send_email` that sent leaves the cursor on the service that
      sent it, with the cycle count cleared, so the next message starts
      there. */
  lemma SuccessSticks(services: seq<Service.EmailService>, maxRetries: int, msg: EmailMessage,
                      c0: Cursor, p: Cursor, tried: seq<int>, log: seq<Try>, snaps: seq<Snapshot>)
    requires Finished(services, maxRetries, msg, c0, p, Ok(true), tried, log, snaps)
    ensures p == Cursor(tried[|tried| - 1], 0)
    ensures log[|log| - 1].step.result.Ok?
  {
    TriedAt(|services|, c0, |log|, |log| - 1);
  }

  lemma InFootprint(services: seq<Service.EmailService>, k: nat)
    requires k < |services|
    ensures services[k].Objects() <= Footprint(services)
  {
  }

  /** The middleware states of every service, in list order. */
  ghost function StatesOf(services: seq<Service.EmailService>): (s: seq<seq<Mw>>)
    reads Middlewares(services)
    ensures |s| == |services|
    ensures forall k :: 0 <= k < |services| ==> s[k] == services[k].States()
  {
    seq(|services|, k requires 0 <= k < |services| reads Middlewares(services) => services[k].States())
  }

  /** The world every service sees, in list order. */
  ghost function WorldsOf(services: seq<Service.EmailService>): (w: seq<World>)
    reads Outside(services)
    ensures |w| == |services|
    ensures forall k :: 0 <= k < |services| ==> w[k] == services[k].World()
  {
    seq(|services|, k requires 0 <= k < |services| reads Outside(services) => services[k].World())
  }

  /** What every service holds now. */
  ghost function Now(services: seq<Service.EmailService>): (c: Snapshot)
    reads Footprint(services)
    ensures Shaped(services, c)
  {
    Snapshot(StatesOf(services), WorldsOf(services))
  }

  /** What one pass of the sticky loop answers: `true` on a success, the
      "Max retries reached" exception when it raised, and `Ok(false)` while
      the loop goes on. */
  function Outcome(ok: bool, raised: bool): Result<bool> {
    if ok then Ok(true) else if raised then Err(Exception("Max retries reached")) else Ok(false)
  }

  /** One more attempt, by the service the cursor stands on after the
      failures in `log`, made from exactly what the services held: with the
      cursor moved as `OnResult` says, it either extends the record of
      failures in a row or ends the call as `Finished` describes. */
  lemma Extends(services: seq<Service.EmailService>, maxRetries: int, msg: EmailMessage, c0: Cursor,
                tried: seq<int>, log: seq<Try>, snaps: seq<Snapshot>,
                t: Try, after: Snapshot, ok: bool, raised: bool, p: Cursor)
    requires |services| > 0
    requires Progress(services, maxRetries, msg, c0, Walk(|services|, c0, |log|), tried, log, snaps)
    requires Shaped(services, snaps[|log|])
    requires var j := Walk(|services|, c0, |log|).index;
      && 0 <= j < |services|
      && t.states == snaps[|log|].states[j] && t.world == snaps[|log|].worlds[j]
      && Delivery(services[j], t.states, t.world, msg, t.step)
      && after == Apply(snaps[|log|], j, t.step)
    requires ok <==> t.step.result.Ok?
    requires var a := OnResult(|services|, maxRetries, Walk(|services|, c0, |log|), ok);
      (raised <==> a.MaxRetriesReached?) && p == a.cursor
    ensures var tried', log', snaps' := tried + [Walk(|services|, c0, |log|).index], log + [t], snaps + [after];
      && (!ok && !raised ==> Progress(services, maxRetries, msg, c0, p, tried', log', snaps'))
      && (ok || raised ==> Finished(services, maxRetries, msg, c0, p, Outcome(ok, raised), tried', log', snaps'))
  {
    var j := Walk(|services|, c0, |log|).index;
    RecordGrows(services, msg, tried, log, snaps, j, t, after);
    if !ok && !raised {
      assert OnResult(|services|, maxRetries, Walk(|services|, c0, |log|), ok).Continue?;
      WalkStep(|services|, c0, |log|);
      ExtendsFailure(services, maxRetries, msg, c0, tried, log, snaps, t, after);
    } else {
      ExtendsFinish(services, maxRetries, msg, c0, tried, log, snaps, t, after, ok, raised, p);
    }
  }

  /** A failure that does not raise extends the record of failures in a row. */
  lemma ExtendsFailure(services: seq<Service.EmailService>, maxRetries: int, msg: EmailMessage, c0: Cursor,
                       tried: seq<int>, log: seq<Try>, snaps: seq<Snapshot>, t: Try, after: Snapshot)
    requires |services| > 0
    requires Progress(services, maxRetries, msg, c0, Walk(|services|, c0, |log|), tried, log, snaps)
    requires Recorded(services, msg, tried + [Walk(|services|, c0, |log|).index], log + [t], snaps + [after])
    requires t.step.result.Err?
    requires OnResult(|services|, maxRetries, Walk(|services|, c0, |log|), false).Continue?
    ensures Progress(services, maxRetries, msg, c0, Walk(|services|, c0, |log| + 1),
                     tried + [Walk(|services|, c0, |log|).index], log + [t], snaps + [after])
  {
    var n, k := |services|, |log|;
    FailuresUntilRaise(n, maxRetries, c0, k);
    assert tried + [Walk(n, c0, k).index] == Tried(n, c0, k + 1);
    assert Walk(n, c0, k).cycles <= maxRetries;
    assert k + 1 <= Remaining(n, maxRetries, c0);
    var log' := log + [t];
    assert forall m :: 0 <= m < k + 1 ==> log'[m].step.result.Err? by {
      assert forall m :: 0 <= m < k ==> log'[m] == log[m];
    }
  }

  /** A success, or a failure once the cycle count is over the limit, ends
      the call. */
  lemma ExtendsFinish(services: seq<Service.EmailService>, maxRetries: int, msg: EmailMessage, c0: Cursor,
                      tried: seq<int>, log: seq<Try>, snaps: seq<Snapshot>,
                      t: Try, after: Snapshot, ok: bool, raised: bool, p: Cursor)
    requires |services| > 0
    requires Progress(services, maxRetries, msg, c0, Walk(|services|, c0, |log|), tried, log, snaps)
    requires Recorded(services, msg, tried + [Walk(|services|, c0, |log|).index], log + [t], snaps + [after])
    requires ok <==> t.step.result.Ok?
    requires var a := OnResult(|services|, maxRetries, Walk(|services|, c0, |log|), ok);
      (raised <==> a.MaxRetriesReached?) && p == a.cursor
    requires ok || raised
    ensures Finished(services, maxRetries, msg, c0, p, Outcome(ok, raised),
                     tried + [Walk(|services|, c0, |log|).index], log + [t], snaps + [after])
  {
    var n, k := |services|, |log|;
    FailuresUntilRaise(n, maxRetries, c0, k);
    assert tried + [Walk(n, c0, k).index] == Tried(n, c0, k + 1);
    var log' := log + [t];
    assert forall m :: 0 <= m < k ==> log'[m] == log[m];
  }

  /** What the services hold depends on their footprint only. */
  twostate lemma Untouched(services: seq<Service.EmailService>)
    requires unchanged(Footprint(services))
    ensures Now(services) == old(Now(services))
  {
  }

  /** The `k`-th service of a list. */
  datatype Pick = Pick(services: seq<Service.EmailService>, k: nat)

  /** Once the picked service alone has changed, every other service keeps
      its middleware states and its vendor's record, and sees the shared
      clock and trace as they now are. */
  twostate lemma Bystanders(p: Pick)
    requires p.k < |p.services| && old(Family(p.services))
    requires unchanged(Footprint(p.services) - p.services[p.k].Objects())
    ensures forall j :: 0 <= j < |p.services| && j != p.k ==>
      && p.services[j].States() == old(p.services[j].States())
      && old(p.services[j].Valid()) == p.services[j].Valid()
      && p.services[j].World() == old(p.services[j].World()).(now := p.services[p.k].env.now, trace := p.services[p.k].env.trace)
  {
    var services, k := p.services, p.k;
    forall j | 0 <= j < |services| && j != k
      ensures services[j].States() == old(services[j].States())
      ensures old(services[j].Valid()) == services[j].Valid()
      ensures services[j].World() == old(services[j].World()).(now := services[k].env.now, trace := services[k].env.trace)
    {
      if j < k {
        assert services[j].MiddlewareObjects() !! services[k].MiddlewareObjects();
        assert services[j].vendor != services[k].vendor;
      } else {
        assert services[k].MiddlewareObjects() !! services[j].MiddlewareObjects();
        assert services[k].vendor != services[j].vendor;
      }
      assert services[j].env == services[k].env;
      assert unchanged(services[j].MiddlewareObjects());
      assert unchanged(services[j].vendor);
    }
  }

  /** What the services hold once the picked one alone has changed: it holds
      its new middleware states and world, and the others are as
      `Bystanders` says. */
  twostate lemma AfterOne(p: Pick)
    requires p.k < |p.services| && old(Family(p.services)) && p.services[p.k].Valid()
    requires unchanged(Footprint(p.services) - p.services[p.k].Objects())
    ensures Family(p.services)
    ensures Now(p.services).states == old(Now(p.services)).states[p.k := p.services[p.k].States()]
    ensures Now(p.services).worlds == Share(old(Now(p.services)).worlds, p.k, p.services[p.k].World())
  {
    Bystanders(p);
  }

  /** `service.send_email(message)` for the `k`-th service of the list: a
      delivery by that service from its current states and world. Its
      middlewares end in the states the delivery gives, the shared clock and
      trace move on as the delivery moved them, and every other service's
      middlewares and vendor are left alone. */
  method SendWith(services: seq<Service.EmailService>, k: nat, msg: EmailMessage)
    returns (ok: bool, ghost s: Step)
    requires k < |services| && Family(services)
    modifies services[k].Objects()
    ensures Family(services)
    ensures Delivery(services[k], old(Now(services)).states[k], old(Now(services)).worlds[k], msg, s)
    ensures Now(services) == Apply(old(Now(services)), k, s)
    ensures ok <==> s.result.Ok?
  {
    var outcome;
    ok, outcome := services[k].SendEmail(msg);
    s := Step(outcome, services[k].States(), services[k].World());
    AfterOne(Pick(services, k));
  }

  /** `log` is the record of an in-order failover: its `k`-th attempt was
      service `k`'s delivery, made from what `snaps[k]` says the services
      held, so from the middleware states that service had at the start;
      the services not yet tried still hold those states; every attempt but
      the last failed, and `sent` says whether the last one succeeded. */
  ghost predicate InOrder(services: seq<Service.EmailService>, msg: EmailMessage,
                          log: seq<Try>, snaps: seq<Snapshot>, sent: bool)
  {
    && |log| <= |services| && |snaps| == |log| + 1
    && Shaped(services, snaps[0]) && Shaped(services, snaps[|log|])
    && (forall k :: 0 <= k < |log| ==> Made(services, msg, snaps[k], log[k], snaps[k + 1], k))
    && (forall k :: 0 <= k < |log| ==> log[k].states == snaps[0].states[k])
    && (forall k :: |log| <= k < |services| ==> snaps[|log|].states[k] == snaps[0].states[k])
    && (forall k :: 0 <= k < |log| - 1 ==> log[k].step.result.Err?)
    && (sent <==> |log| > 0 && log[|log| - 1].step.result.Ok?)
  }

  /** After a failure, the in-order record grows by the next service's
      delivery. */
  lemma InOrderGrows(services: seq<Service.EmailService>, msg: EmailMessage,
                     log: seq<Try>, snaps: seq<Snapshot>, t: Try, after: Snapshot, sent: bool)
    requires InOrder(services, msg, log, snaps, false) && |log| < |services|
    requires Made(services, msg, snaps[|log|], t, after, |log|)
    requires sent <==> t.step.result.Ok?
    ensures InOrder(services, msg, log + [t], snaps + [after], sent)
  {
    var log', snaps' := log + [t], snaps + [after];
    forall k | 0 <= k < |log'|
      ensures Made(services, msg, snaps'[k], log'[k], snaps'[k + 1], k) && log'[k].states == snaps'[0].states[k]
    {
      if k < |log| {
        assert snaps'[k] == snaps[k] && snaps'[k + 1] == snaps[k + 1] && log'[k] == log[k];
      }
    }
    if |log| > 0 {
      assert log[|log| - 1].step.result.Err?;
    }
    assert forall k :: 0 <= k < |log| ==> log'[k] == log[k];
  }

  class EmailFailover {
    const services: seq<Service.EmailService>

    constructor (services: seq<Service.EmailService>)
      ensures this.services == services
    {
      this.services := services;
    }

    ghost predicate Valid()
      reads Middlewares(services)
    {
      Family(services)
    }

    /** `send_email(message)`: try each service in order and stop at the
        first that sends. `log[k]` is the delivery by service `k`, made from
        the middleware states it had when this call began and from the world
        the earlier attempts left; `snaps` follows what every service held
        from the start of the call to its end. Every attempt but the last
        failed, and the answer is whether the last succeeded; services after
        the last one tried are not touched. */
    method SendEmail(msg: EmailMessage) returns (sent: bool, ghost log: seq<Try>, ghost snaps: seq<Snapshot>)
      requires Valid()
      modifies Footprint(services)
      ensures Valid()
      ensures |log| <= |services| && |snaps| == |log| + 1
      ensures snaps[0] == old(Now(services)) && Now(services) == snaps[|log|]
      ensures forall k :: 0 <= k < |log| ==> Made(services, msg, snaps[k], log[k], snaps[k + 1], k)
      ensures forall k :: 0 <= k < |log| ==> log[k].states == old(StatesOf(services))[k]
      ensures forall k :: 0 <= k < |log| - 1 ==> log[k].step.result.Err?
      ensures sent <==> |log| > 0 && log[|log| - 1].step.result.Ok?
      ensures !sent ==> |log| == |services|
      ensures forall k :: |log| <= k < |services| ==> StatesOf(services)[k] == old(StatesOf(services))[k]
    {
      log, snaps := [], [Now(services)];
      sent := false;
      var k := 0;
      while k < |services| && !sent
        invariant k <= |services| && |log| == k && |snaps| == k + 1
        invariant Family(services)
        invariant snaps[0] == old(Now(services)) && Now(services) == snaps[k]
        invariant InOrder(services, msg, log, snaps, sent)
      {
        ghost var before := Now(services);
        ghost var s;
        sent, s := SendWith(services, k, msg);
        ghost var t := Try(before.states[k], before.worlds[k], s);
        InOrderGrows(services, msg, log, snaps, t, Now(services), sent);
        log, snaps := log + [t], snaps + [Now(services)];
        k := k + 1;
      }
    }
  }

  class EmailFailoverWithState {
    const services: seq<Service.EmailService>
    const maxRetries: int
    var currentServiceIndex: int
    var cycles: int

    /** `__init__(services, max_retries=10000)`. */
    constructor (services: seq<Service.EmailService>, maxRetries: int := 10000)
      ensures this.services == services && this.maxRetries == maxRetries
      ensures Cursor(currentServiceIndex, cycles) == Start
      ensures InRange(|services|, maxRetries, Cursor(currentServiceIndex, cycles))
    {
      this.services := services;
      this.maxRetries := maxRetries;
      currentServiceIndex := 0;
      cycles := 0;
    }

    function Position(): Cursor
      reads this
    {
      Cursor(currentServiceIndex, cycles)
    }

    ghost predicate Valid()
      reads this, Middlewares(services)
    {
      this !in Footprint(services) && Family(services) && InRange(|services|, maxRetries, Position())
    }

    /** `current_service.send_email(message)`: a delivery by the current
        service from the states and world it has, after which the services
        hold what that delivery left them; the cursor does not move. */
    method TryCurrent(msg: EmailMessage) returns (ok: bool, ghost s: Step)
      requires Valid() && currentServiceIndex < |services|
      modifies Footprint(services)
      ensures Valid() && Position() == old(Position())
      ensures var i, c := currentServiceIndex, old(Now(services));
        Delivery(services[i], c.states[i], c.worlds[i], msg, s) && Now(services) == Apply(c, i, s)
      ensures ok <==> s.result.Ok?
    {
      InFootprint(services, currentServiceIndex);
      ok, s := SendWith(services, currentServiceIndex, msg);
    }

    /** The `else` branch of the loop: on to the next service, counting a
        cycle when the list wraps round. */
    method MoveOn()
      requires |services| > 0 && Valid() && cycles <= maxRetries
      modifies this
      ensures Valid()
      ensures Position() == Advance(|services|, old(Position()))
    {
      assert OnResult(|services|, maxRetries, Position(), false).cursor == Advance(|services|, Position());
      currentServiceIndex := (currentServiceIndex + 1) % |services|;
      if currentServiceIndex == 0 {
        cycles := cycles + 1;
      }
    }

    /** One pass of the `while` loop: deliver with the current service, then
        move the cursor as `OnResult` says: keep it on a success (clearing
        the cycle count), raise on a failure once the cycle count is over
        `maxRetries`, and otherwise move on. */
    method Pass(msg: EmailMessage) returns (ok: bool, raised: bool, ghost s: Step)
      requires Valid() && currentServiceIndex < |services|
      modifies this, Footprint(services)
      ensures Valid()
      ensures var i, c := old(currentServiceIndex), old(Now(services));
        Delivery(services[i], c.states[i], c.worlds[i], msg, s) && Now(services) == Apply(c, i, s)
      ensures ok <==> s.result.Ok?
      ensures var a := OnResult(|services|, maxRetries, old(Position()), ok);
        (raised <==> a.MaxRetriesReached?) && Position() == a.cursor
    {
      ok, s := TryCurrent(msg);
      raised := Steer(ok);
    }

    /** The branches after the delivery: on a success clear the cycle count
        and stay; on a failure raise once the cycle count is over
        `maxRetries`, and otherwise move on. The cursor goes where
        `OnResult` says, and no service is touched. */
    method Steer(ok: bool) returns (raised: bool)
      requires Valid() && currentServiceIndex < |services|
      modifies this
      ensures Valid()
      ensures var a := OnResult(|services|, maxRetries, old(Position()), ok);
        (raised <==> a.MaxRetriesReached?) && Position() == a.cursor
      ensures Now(services) == old(Now(services))
    {
      raised := !ok && cycles > maxRetries;
      if ok {
        cycles := 0;
      } else if !raised {
        MoveOn();
      }
      Untouched(services);
    }

    /** One pass of the `while` loop together with what it adds to the
        records: from a record of failures in a row, try the current service
        and either stop (sent, or raised) or extend the record by one more
        failure. The new attempt starts from what the services held, and the
        new snapshot is what they hold afterwards. */
    method Round(msg: EmailMessage, ghost c0: Cursor, ghost triedBefore: seq<int>, ghost logBefore: seq<Try>,
                 ghost snapsBefore: seq<Snapshot>)
      returns (done: bool, outcome: Result<bool>, ghost tried: seq<int>, ghost log: seq<Try>,
               ghost snaps: seq<Snapshot>)
      requires Valid() && Progress(services, maxRetries, msg, c0, Position(), triedBefore, logBefore, snapsBefore)
      requires Now(services) == snapsBefore[|logBefore|]
      modifies this, Footprint(services)
      ensures Valid() && |log| == |logBefore| + 1 && snaps == snapsBefore + [Now(services)]
      ensures !done ==> Progress(services, maxRetries, msg, c0, Position(), tried, log, snaps)
      ensures done ==> Finished(services, maxRetries, msg, c0, Position(), outcome, tried, log, snaps)
    {
      ghost var i := currentServiceIndex;
      ghost var before := Now(services);
      var ok, raised;
      ghost var s;
      ok, raised, s := Pass(msg);
      ghost var t := Try(before.states[i], before.worlds[i], s);
      Extends(services, maxRetries, msg, c0, triedBefore, logBefore, snapsBefore, t, Now(services), ok, raised, Position());
      tried, log, snaps := triedBefore + [i], logBefore + [t], snapsBefore + [Now(services)];
      done := ok || raised;
      outcome := Outcome(ok, raised);
    }

    /** `send_email(message)`. With no services it answers `false` at once.
        Otherwise `log[k]` is the delivery made by service `tried[k]`, the
        service the cursor reaches after `k` failures in a row, from the
        middleware states and world the earlier attempts left it (`snaps`
        follows what every service held, from the start of the call to its
        end), and `Finished` says how the call ended: every attempt but the
        last failed without raising; the last one either sent (the cursor
        stays on that service with no cycles counted) or failed with the
        cycle count over `maxRetries` (raising "Max retries reached", the
        cursor left where it was), which takes exactly
        `Remaining(old position) + 1` attempts. */
    method SendEmail(msg: EmailMessage)
      returns (outcome: Result<bool>, ghost tried: seq<int>, ghost log: seq<Try>, ghost snaps: seq<Snapshot>)
      requires Valid()
      modifies this, Footprint(services)
      ensures Valid()
      ensures |snaps| == |log| + 1 && snaps[0] == old(Now(services)) && Now(services) == snaps[|log|]
      ensures |services| == 0 ==> outcome == Ok(false) && log == [] && Position() == old(Position())
      ensures |services| > 0 ==> Finished(services, maxRetries, msg, old(Position()), Position(), outcome, tried, log, snaps)
    {
      var n := |services|;
      ghost var c0 := Position();
      if n > 0 && cycles <= maxRetries {
        AdvanceSpendsOne(n, maxRetries, c0);
      }
      tried, log, snaps := [], [], [Now(services)];
      while currentServiceIndex < n
        invariant Valid()
        invariant |snaps| == |log| + 1 && snaps[0] == old(Now(services)) && Now(services) == snaps[|log|]
        invariant n == 0 ==> log == [] && Position() == c0
        invariant n > 0 ==> Progress(services, maxRetries, msg, c0, Position(), tried, log, snaps)
        decreases Remaining(n, maxRetries, c0) - |log|
      {
        var done;
        done, outcome, tried, log, snaps := Round(msg, c0, tried, log, snaps);
        if done {
          return;
        }
      }
      assert n == 0;
      return Ok(false), tried, log, snaps;
    }
  }
}
