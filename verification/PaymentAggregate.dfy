/** The payment aggregate (internal/domain/payment): its state machine, its attempts and its refunds. */
module PaymentAggregate {
  import opened MoneyArithmetic

  datatype State =
    | Created | RequiresAction | Processing | Pending | Authorized | Captured | Settled
    | PartiallyRefunded | Refunded | Voided | Failed | Canceled | Expired | Disputed

  predicate CanMove(from: State, to: State) {
    match from
    case Created => to in {Processing, RequiresAction, Failed, Canceled}
    case RequiresAction => to in {Processing, Failed, Canceled, Expired}
    case Processing => to in {Authorized, Captured, Pending, Failed, RequiresAction}
    case Pending => to in {Authorized, Captured, Failed, Expired}
    case Authorized => to in {Captured, Voided, Expired, Failed}
    case Captured => to in {Settled, PartiallyRefunded, Refunded, Disputed}
    case Settled => to in {PartiallyRefunded, Refunded, Disputed}
    case PartiallyRefunded => to in {PartiallyRefunded, Refunded, Disputed}
    case Refunded => to in {Disputed}
    case Disputed => to in {Refunded, Captured, Settled}
    case _ => false
  }

  predicate IsTerminal(s: State) {
    s in {Failed, Canceled, Voided, Expired}
  }

  predicate IsInFlight(s: State) {
    s in {Processing, Pending, RequiresAction}
  }

  predicate AllowsRefund(s: State) {
    s in {Captured, Settled, PartiallyRefunded}
  }

  type GatewayId = string

  datatype Operation = OpAuthorize | OpCapture | OpVoid | OpRefund

  datatype Outcome = OutcomePending | Dispatched | Success | Declined | Error | TimeoutUnknown

  predicate CanResolve(from: Outcome, to: Outcome) {
    match from
    case OutcomePending => to in {Dispatched, Error}
    case Dispatched => to in {Success, Declined, Error, TimeoutUnknown}
    case TimeoutUnknown => to in {Success, Declined, Error}
    case _ => false
  }

  /** Soft reasons are the four on the allow-list; every other reason, unknown included, is hard. */
  datatype DeclineReason = IssuerUnavailable | TryAgainLater | ProcessingError | DoNotHonor | HardReason | Unclassified

  predicate IsSoft(r: DeclineReason) {
    r in {IssuerUnavailable, TryAgainLater, ProcessingError, DoNotHonor}
  }

  datatype Attempt = Attempt(
    id: nat, gateway: GatewayId, op: Operation, outcome: Outcome, reason: DeclineReason, noRetry: bool)

  predicate PermitsFailover(a: Attempt) {
    !a.noRetry && (a.outcome == Error || (a.outcome == Declined && IsSoft(a.reason)))
  }

  datatype RefundStatus = RefundPending | RefundSubmitted | RefundSucceeded | RefundFailed | RefundCanceled

  predicate CanAdvance(from: RefundStatus, to: RefundStatus) {
    match from
    case RefundPending => to in {RefundSubmitted, RefundCanceled, RefundFailed}
    case RefundSubmitted => to in {RefundSucceeded, RefundFailed}
    case _ => false
  }

  datatype Refund = Refund(id: nat, amount: Money, status: RefundStatus)

  datatype Payment = Payment(
    amount: Money, state: State, authorized: Money, captured: Money, refunded: Money,
    attempts: seq<Attempt>, refunds: seq<Refund>)

  datatype Code = InvalidTransition | AlreadyProcessed | ContractViolation | AmountInvalid | LimitExceeded | Internal

  datatype Change = Changed(p: Payment) | Refused(code: Code)

  predicate HasSuccess(p: Payment) {
    exists i :: 0 <= i < |p.attempts| && p.attempts[i].outcome == Success
  }

  predicate HasUnresolved(p: Payment) {
    exists i :: 0 <= i < |p.attempts| && p.attempts[i].outcome == TimeoutUnknown
  }

  function MoveTo(p: Payment, to: State): Change {
    if CanMove(p.state, to) then Changed(p.(state := to)) else Refused(InvalidTransition)
  }

  // ----- attempts -----

  function StartAttempt(p: Payment, id: nat, gw: GatewayId, op: Operation): Change {
    if IsTerminal(p.state) then Refused(InvalidTransition)
    else if HasSuccess(p) && op == OpAuthorize then Refused(AlreadyProcessed)
    else if HasUnresolved(p) then Refused(AlreadyProcessed)
    else Changed(p.(attempts := p.attempts + [Attempt(id, gw, op, OutcomePending, Unclassified, false)]))
  }

  function Resolve(p: Payment, i: nat, to: Outcome): Change
    requires i < |p.attempts|
  {
    if CanResolve(p.attempts[i].outcome, to)
    then Changed(p.(attempts := p.attempts[i := p.attempts[i].(outcome := to)]))
    else Refused(InvalidTransition)
  }

  function Decline(p: Payment, i: nat, reason: DeclineReason, noRetry: bool): Change
    requires i < |p.attempts|
  {
    if CanResolve(p.attempts[i].outcome, Declined)
    then
      var declined := p.attempts[i].(outcome := Declined, reason := reason, noRetry := noRetry);
      Changed(p.(attempts := p.attempts[i := declined]))
    else Refused(InvalidTransition)
  }

  // ----- the payment's own transitions -----

  function MarkAuthorized(p: Payment, m: Money): Change {
    if m.currency != p.amount.currency || m.amount <= 0 || m.amount > p.amount.amount then Refused(ContractViolation)
    else if !CanMove(p.state, Authorized) then Refused(InvalidTransition)
    else Changed(p.(state := Authorized, authorized := m))
  }

  function CaptureCeiling(p: Payment): Money {
    if p.authorized.amount == 0 then p.amount else p.authorized
  }

  function MarkCaptured(p: Payment, m: Money): Change {
    if m.currency != p.amount.currency then Refused(ContractViolation)
    else if m.amount <= 0 then Refused(AmountInvalid)
    else
      var total := Add(p.captured, m);
      if total.Err? || total.value.currency != CaptureCeiling(p).currency then Refused(Internal)
      else if total.value.amount > CaptureCeiling(p).amount then Refused(LimitExceeded)
      else if !CanMove(p.state, Captured) then Refused(InvalidTransition)
      else Changed(p.(state := Captured, captured := total.value))
  }

  function MarkFailed(p: Payment): Change {
    if HasUnresolved(p) then Refused(InvalidTransition) else MoveTo(p, Failed)
  }

  function Void(p: Payment): Change {
    if p.captured.amount != 0 then Refused(InvalidTransition) else MoveTo(p, Voided)
  }

  // ----- refunds -----

  /** The refunded total plus every refund still in flight, as AddRefund accumulates it. */
  function Committed(p: Payment, k: nat): Result<Money>
    requires k <= |p.refunds|
  {
    if k == 0 then Ok(p.refunded) else
    var before := Committed(p, k - 1);
    var r := p.refunds[k - 1];
    if before.Ok? && (r.status == RefundPending || r.status == RefundSubmitted) then Add(before.value, r.amount)
    else before
  }

  function AddRefund(p: Payment, id: nat, m: Money): Change {
    if !AllowsRefund(p.state) then Refused(InvalidTransition)
    else if m.currency != p.amount.currency || m.amount <= 0 then Refused(AmountInvalid)
    else
      var held := Committed(p, |p.refunds|);
      if held.Err? then Refused(Internal) else
      var total := Add(held.value, m);
      if total.Err? || total.value.currency != p.captured.currency then Refused(Internal)
      else if total.value.amount > p.captured.amount then Refused(LimitExceeded)
      else Changed(p.(refunds := p.refunds + [Refund(id, m, RefundPending)]))
  }

  function AdvanceRefund(p: Payment, i: nat, to: RefundStatus): Change
    requires i < |p.refunds|
  {
    if CanAdvance(p.refunds[i].status, to)
    then Changed(p.(refunds := p.refunds[i := p.refunds[i].(status := to)]))
    else Refused(InvalidTransition)
  }

  /** Confirms refund i: the refund succeeds and the payment's total and state move with it. */
  function ConfirmRefund(p: Payment, i: nat): Change
    requires i < |p.refunds|
  {
    var done := AdvanceRefund(p, i, RefundSucceeded);
    if done.Refused? then done else
    var total := Add(p.refunded, p.refunds[i].amount);
    if total.Err? || total.value.currency != p.captured.currency then Refused(Internal) else
    var next := if total.value.amount >= p.captured.amount then Refunded else PartiallyRefunded;
    if !CanMove(p.state, next) then Refused(InvalidTransition)
    else Changed(done.p.(state := next, refunded := total.value))
  }
}
