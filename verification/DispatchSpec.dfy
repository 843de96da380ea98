/**
 * What one authorization run does (internal/application/payment/orchestrator.go), as a function of
 * everything the environment may answer: breaker, bulkhead, credential resolver, gateway, response
 * validator and unit of work. The orchestrator's own code is in module Orchestrator.
 */
module DispatchSpec {
  import opened MoneyArithmetic
  import opened PaymentAggregate
  import opened Options

  // ----- what the environment answers -----

  datatype Status =
    | StatusAuthorized | StatusCaptured | StatusRequiresAction | StatusPending | StatusDeclined
    | StatusRefundAccepted | StatusRefunded | StatusVoided | StatusFailed | StatusOther

  /** `ref` is the gateway's transaction reference, empty if it gave none. */
  datatype Response = Response(
    status: Status, ref: string, authorizedAmount: Option<Money>, capturedAmount: Option<Money>,
    reason: DeclineReason, noRetry: bool)

  /** `unknown`: the error wraps ErrOutcomeUnknown; `timeout`: a deadline error or GATEWAY_TIMEOUT. */
  datatype CallError = CallError(unknown: bool, timeout: bool)

  datatype Answer = Answer(resp: Option<Response>, err: Option<CallError>)

  /** One iteration's worth of answers. `valid` is the validator's verdict on the response. */
  datatype Script = Script(
    allow: bool, acquire: bool, resolve: bool, saveFirst: bool,
    answer: Answer, valid: bool, commit: bool, reload: bool)

  datatype Settings = Settings(maxAttempts: int, failover: bool)

  // ----- what is observed -----

  datatype Event =
    | Permitted(gw: GatewayId, op: Operation)
    | Recorded(gw: GatewayId, op: Operation, success: bool, counted: bool)
    | Acquired(gw: GatewayId)
    | Released(gw: GatewayId)
    | Saved(p: Payment)
    | Called(gw: GatewayId, op: Operation, row: nat, answer: Answer, valid: bool)
    | Concluded(row: nat, ok: bool)

  /** What happened so far, newest last. */
  datatype Log = Quiet | Past(before: Log, last: Event)

  /** The payment in memory, the row in the store, what happened, and the next unused identifier. */
  datatype World = World(pay: Payment, row: Payment, log: Log, nextId: nat)

  function Note(w: World, e: Event): World {
    w.(log := Past(w.log, e))
  }

  function Save(w: World): World {
    Note(w.(row := w.pay), Saved(w.pay))
  }

  datatype Fault = GatewayBusy | Refusal(code: Code) | StoreFailed | TransportFault | DeclineFault

  datatype Verdict = Verdict(terminal: bool, result: Option<Payment>, err: Option<Fault>)

  /** Go's pair: a verdict when err is nil, otherwise the error. */
  datatype Tried = Gave(verdict: Verdict) | Erred(fault: Fault)

  // ----- how a call can end -----

  /** `late`: the error is a timeout, yet a response came with it. */
  datatype Ending =
    | Unknown | TransportFailure(late: bool) | Approved | Taken | ActionNeeded | Awaiting | TurnedDown(soft: bool)

  /** The reading of an answer: unknown first, then transport error, then validity, then the outcome. */
  function Classify(a: Answer, valid: bool): Ending {
    match a.err
    case Some(e) =>
      if e.unknown || (a.resp.None? && e.timeout) then Unknown else TransportFailure(e.timeout)
    case None =>
      if a.resp.None? || !valid then Unknown else
      match a.resp.value.status
      case StatusAuthorized => Approved
      case StatusCaptured => Taken
      case StatusRequiresAction => ActionNeeded
      case StatusPending => Awaiting
      case StatusDeclined => TurnedDown(IsSoft(a.resp.value.reason) && !a.resp.value.noRetry)
      case _ => Unknown
  }

  /** The gateway may be holding or moving the payer's money: a timeout never rules that out. */
  predicate MayCharge(e: Ending) {
    e in {Unknown, Approved, Taken, ActionNeeded, Awaiting, TransportFailure(true)}
  }

  // ----- one attempt -----

  /** Attempt i has been sent and nothing is recorded about it yet. */
  predicate Sent(p: Payment, i: nat) {
    i < |p.attempts| && p.attempts[i].outcome == Dispatched && !p.attempts[i].noRetry
  }

  /** The in-memory payment after an ending, and whether the aggregate accepted every step of it. */
  datatype Step = Step(p: Payment, refused: Option<Code>)

  function Then(c: Change, otherwise: Payment): Step {
    match c
    case Changed(p) => Step(p, None)
    case Refused(code) => Step(otherwise, Some(code))
  }

  function Advance(p: Payment, i: nat, a: Answer, e: Ending, failover: bool): Step
    requires Sent(p, i)
    requires !e.Unknown? && !e.TransportFailure? ==> a.resp.Some?
  {
    match e
    case Unknown => Step(Resolve(p, i, TimeoutUnknown).p, None)
    case TransportFailure(_) => Step(Resolve(p, i, Error).p, None)
    case Approved =>
      var won := Resolve(p, i, Success).p;
      Then(MarkAuthorized(won,
          if a.resp.value.authorizedAmount.Some? then a.resp.value.authorizedAmount.value else p.amount), won)
    case Taken =>
      var won := Resolve(p, i, Success).p;
      Then(MarkCaptured(won,
          if a.resp.value.capturedAmount.Some? then a.resp.value.capturedAmount.value else p.amount), won)
    case ActionNeeded => Then(MoveTo(p, RequiresAction), p)
    case Awaiting => Then(MoveTo(p, Pending), p)
    case TurnedDown(soft) =>
      var lost := Decline(p, i, a.resp.value.reason, a.resp.value.noRetry).p;
      if soft && failover then Step(lost, None) else Then(MarkFailed(lost), lost)
  }

  /** The breaker hears of a healthy answer, of a fault, or of nothing: a decline says nothing of health. */
  function Health(e: Ending): (bool, bool) {
    match e
    case Unknown => (false, true)
    case TransportFailure(_) => (false, true)
    case TurnedDown(_) => (false, false)
    case _ => (true, true)
  }

  predicate LeavesLoopRunning(e: Ending, failover: bool) {
    e.TransportFailure? || (e.TurnedDown? && e.soft && failover)
  }

  datatype Attempted = Attempted(w: World, tried: Tried)

  /** Commit what a step made of the payment, and decide whether the loop goes on. */
  function Close(w: World, id: nat, e: Ending, step: Step, s: Script, failover: bool): Attempted {
    var w1 := w.(pay := step.p);
    if step.refused.Some? then Attempted(Note(w1, Concluded(id, false)), Erred(Refusal(step.refused.value)))
    else if !s.commit then Attempted(Note(w1, Concluded(id, false)), Erred(StoreFailed))
    else
      var w2 := Save(w1);
      if LeavesLoopRunning(e, failover)
      then Attempted(Note(w2, Concluded(id, true)),
                     Gave(Verdict(false, None, Some(if e.TransportFailure? then TransportFault else DeclineFault))))
      else if !s.reload then Attempted(Note(w2, Concluded(id, false)), Erred(StoreFailed))
      else Attempted(Note(w2, Concluded(id, true)), Gave(Verdict(true, Some(w2.row), None)))
  }

  function Settle(w: World, gw: GatewayId, i: nat, s: Script, failover: bool): Attempted
    requires Sent(w.pay, i)
  {
    var e := Classify(s.answer, s.valid);
    var (success, counted) := Health(e);
    Close(Note(w, Recorded(gw, OpAuthorize, success, counted)), w.pay.attempts[i].id, e,
          Advance(w.pay, i, s.answer, e, failover), s, failover)
  }

  /** The in-memory payment with the new attempt, moved to PROCESSING if the state machine lets it. */
  function Started(p: Payment, id: nat, gw: GatewayId): Change {
    var c := StartAttempt(p, id, gw, OpAuthorize);
    if c.Refused? then c else
    var m := MoveTo(c.p, Processing);
    if m.Changed? then m else c
  }

  /** Giving up before the call: the permit is recorded as not counted and the slot released. */
  function Abandon(w: World, gw: GatewayId, op: Operation, f: Fault): Attempted {
    Attempted(Note(Note(w, Recorded(gw, op, false, false)), Released(gw)), Erred(f))
  }

  /** From the attempt row on: create and commit it, call the gateway, settle the answer. */
  function Transmit(w: World, gw: GatewayId, s: Script, failover: bool): Attempted {
    var c := Started(w.pay, w.nextId, gw);
    if c.Refused? then Abandon(w, gw, OpAuthorize, Refusal(c.code)) else
    var w1 := w.(pay := c.p, nextId := w.nextId + 1);
    if !s.saveFirst then Abandon(w1, gw, OpAuthorize, StoreFailed) else
    CallGateway(Save(w1), gw, s, failover)
  }

  /** The newest attempt is recorded and not sent yet. */
  predicate Ready(p: Payment) {
    |p.attempts| > 0 && p.attempts[|p.attempts| - 1].outcome == OutcomePending && !p.attempts[|p.attempts| - 1].noRetry
  }

  function CallGateway(w: World, gw: GatewayId, s: Script, failover: bool): Attempted
    requires Ready(w.pay)
  {
    var i := |w.pay.attempts| - 1;
    var w1 := Note(w.(pay := Resolve(w.pay, i, Dispatched).p),
                   Called(gw, OpAuthorize, w.pay.attempts[i].id, s.answer, s.valid));
    var done := Settle(w1, gw, i, s, failover);
    done.(w := Note(done.w, Released(gw)))
  }

  function AttemptOnce(w: World, gw: GatewayId, s: Script, failover: bool): Attempted {
    if !s.allow then Attempted(w, Erred(GatewayBusy)) else
    var w1 := Note(w, Permitted(gw, OpAuthorize));
    if !s.acquire then Attempted(Note(w1, Recorded(gw, OpAuthorize, false, false)), Erred(GatewayBusy)) else
    var w2 := Note(w1, Acquired(gw));
    if !s.resolve then Abandon(w2, gw, OpAuthorize, GatewayBusy) else Transmit(w2, gw, s, failover)
  }

  // ----- the loop over the plan -----

  /** The highest-ranked gateway of the plan not tried yet. */
  function Next(plan: seq<GatewayId>, tried: seq<GatewayId>): Option<GatewayId> {
    if plan == [] then None
    else if plan[0] !in tried then Some(plan[0])
    else Next(plan[1..], tried)
  }

  datatype Loop = Loop(w: World, tried: seq<GatewayId>, lastErr: Option<Fault>, broken: bool, answer: Option<Payment>) {
    predicate Over() {
      broken || answer.Some?
    }
  }

  /** The loop once gateway gw has been attempted with result a. */
  function Absorb(l: Loop, gw: GatewayId, a: Attempted, failover: bool): Loop {
    var l1 := l.(w := a.w, tried := l.tried + [gw]);
    match a.tried
    case Erred(f) => l1.(lastErr := Some(f), broken := !failover)
    case Gave(v) =>
      if v.terminal then l1.(answer := v.result)
      else if !failover then l1.(broken := true)
      else l1.(lastErr := v.err)
  }

  function Iterate(l: Loop, plan: seq<GatewayId>, s: Script, failover: bool): Loop {
    var next := Next(plan, l.tried);
    if next.None? then l.(broken := true)
    else Absorb(l, next.value, AttemptOnce(l.w, next.value, s, failover), failover)
  }

  /** k iterations of a loop, fewer if it is over before that. */
  function Repeat(step: (Loop, nat) -> Loop, l: Loop, k: nat): Loop {
    if k == 0 then l else
    var m := Repeat(step, l, k - 1);
    if m.Over() then m else step(m, k - 1)
  }

  function Start(w: World): Loop {
    Loop(w, [], None, false, None)
  }

  function Budget(s: Settings): nat {
    if s.maxAttempts < 0 then 0 else s.maxAttempts
  }

  /** Iteration i meets the answers env(i). */
  function Stepping(plan: seq<GatewayId>, env: nat -> Script, failover: bool): (Loop, nat) -> Loop {
    (l: Loop, i: nat) => Iterate(l, plan, env(i), failover)
  }

  /** A whole run. */
  function Run(w: World, plan: seq<GatewayId>, env: nat -> Script, settings: Settings): Loop {
    Repeat(Stepping(plan, env, settings.failover), Start(w), Budget(settings))
  }

  /** The first k iterations of a run. */
  function Prefix(w: World, plan: seq<GatewayId>, env: nat -> Script, failover: bool, k: nat): Loop {
    Repeat(Stepping(plan, env, failover), Start(w), k)
  }

  datatype Reply = Reply(result: Option<Payment>, err: Option<Fault>)

  /** What Dispatch answers once the loop is over; `reload` is the final read's luck. */
  function Conclude(l: Loop, reload: bool): Reply {
    if l.answer.Some? then Reply(l.answer, None)
    else if !reload then Reply(None, Some(StoreFailed))
    else if IsInFlight(l.w.row.state) || l.lastErr.None? then Reply(Some(l.w.row), None)
    else Reply(None, l.lastErr)
  }

  lemma {:induction false} OverStays(step: (Loop, nat) -> Loop, l: Loop, k: nat, n: nat)
    requires k <= n && Repeat(step, l, k).Over()
    ensures Repeat(step, l, n) == Repeat(step, l, k)
  {
    if k < n {
      OverStays(step, l, k, n - 1);
    }
  }

  lemma RunGoesOn(w: World, plan: seq<GatewayId>, env: nat -> Script, failover: bool, k: nat, m: Loop)
    requires Prefix(w, plan, env, failover, k) == m && !m.Over()
    ensures Prefix(w, plan, env, failover, k + 1) == Iterate(m, plan, env(k), failover)
  {
  }

  lemma RunEnds(w: World, plan: seq<GatewayId>, env: nat -> Script, settings: Settings, k: nat, m: Loop)
    requires Prefix(w, plan, env, settings.failover, k) == m
    requires k == Budget(settings) || (k < Budget(settings) && m.Over())
    ensures Run(w, plan, env, settings) == m
  {
    if m.Over() {
      OverStays(Stepping(plan, env, settings.failover), Start(w), k, Budget(settings));
    }
  }

  /** What one iteration keeps, a run keeps. */
  lemma {:induction false} RepeatKeeps(step: (Loop, nat) -> Loop, l: Loop, k: nat, inv: Loop -> bool)
    requires inv(l)
    requires forall m, i :: inv(m) && !m.Over() ==> inv(step(m, i))
    ensures inv(Repeat(step, l, k))
  {
    if k > 0 {
      RepeatKeeps(step, l, k - 1, inv);
    }
  }

  /** Transmit, case by case. */
  lemma TransmitIs(w: World, gw: GatewayId, s: Script, failover: bool, c: Change)
    requires c == Started(w.pay, w.nextId, gw)
    ensures c.Refused? ==> Transmit(w, gw, s, failover) == Abandon(w, gw, OpAuthorize, Refusal(c.code))
    ensures c.Changed? ==>
      var w1 := w.(pay := c.p, nextId := w.nextId + 1);
      Ready(c.p) && Transmit(w, gw, s, failover) ==
        if s.saveFirst then CallGateway(Save(w1), gw, s, failover) else Abandon(w1, gw, OpAuthorize, StoreFailed)
  {
  }

  lemma CallGatewayIs(w: World, gw: GatewayId, s: Script, failover: bool, i: nat, p: Payment)
    requires Ready(w.pay) && i == |w.pay.attempts| - 1 && p == Resolve(w.pay, i, Dispatched).p
    ensures Sent(p, i)
    ensures var called := Called(gw, OpAuthorize, w.pay.attempts[i].id, s.answer, s.valid);
      var done := Settle(Note(w.(pay := p), called), gw, i, s, failover);
      CallGateway(w, gw, s, failover) == done.(w := Note(done.w, Released(gw)))
  {
  }
}
