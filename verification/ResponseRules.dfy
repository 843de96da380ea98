/**
 * Validation level L6: which gateway answers the platform believes (ValidateGatewayResponse of
 * internal/application/payment/validator.go and the rules of internal/validation/rules/l6response).
 */
module ResponseRules {
  import opened MoneyArithmetic
  import opened PaymentAggregate
  import opened DispatchSpec
  import opened Options

  datatype Kind = KindSuccess | KindDeclined | KindAction | KindPending | KindError | KindUnmapped

  function KindOf(status: Status): Kind {
    match status
    case StatusDeclined => KindDeclined
    case StatusRequiresAction => KindAction
    case StatusPending => KindPending
    case StatusFailed => KindError
    case StatusOther => KindUnmapped
    case _ => KindSuccess
  }

  /** The payment state a status implies, where it implies one. */
  function Implied(status: Status): Option<State> {
    match status
    case StatusAuthorized => Some(Authorized)
    case StatusCaptured => Some(Captured)
    case StatusVoided => Some(Voided)
    case StatusRefunded => Some(Refunded)
    case StatusRequiresAction => Some(RequiresAction)
    case StatusPending => Some(Pending)
    case StatusDeclined => Some(Failed)
    case _ => None
  }

  predicate Allowed(op: Operation, k: Kind) {
    match op
    case OpAuthorize => k != KindUnmapped
    case OpVoid => k in {KindSuccess, KindDeclined, KindError}
    case _ => k in {KindSuccess, KindDeclined, KindPending, KindError}
  }

  /** The amount the answer is taken to echo. */
  function Echo(op: Operation, p: Payment, r: Response): Money {
    if op == OpCapture && r.capturedAmount.Some? then r.capturedAmount.value
    else if r.authorizedAmount.Some? then r.authorizedAmount.value
    else p.amount
  }

  /** An answer without a captured amount carries the zero value: no amount, no currency. */
  function CapturedTotal(r: Response): Money {
    if r.capturedAmount.Some? then r.capturedAmount.value else Money(0, "")
  }

  predicate WithinAuthorized(p: Payment, r: Response) {
    CapturedTotal(r).currency == p.authorized.currency && CapturedTotal(r).amount <= p.authorized.amount
  }

  predicate Reachable(from: State, to: Option<State>) {
    to.None? || to.value == from || CanMove(from, to.value)
  }

  /** Only an authorization passes the decline reason on; a reason that is missing or unknown has no class. */
  predicate ReasonKnown(op: Operation, r: Response) {
    op == OpAuthorize && r.reason != Unclassified
  }

  /**
   * Every rule of level ERROR that applies to an operation's response. An answer that asks for action is refused: it
   * must come with a redirect or challenge, and none is passed on.
   */
  predicate Accepts(op: Operation, p: Payment, r: Response) {
    var k := KindOf(r.status);
    && Allowed(op, k)
    && (k != KindError ==> r.ref != "")
    && (k == KindSuccess ==> Echo(op, p, r) == p.amount)
    && (op == OpCapture ==> WithinAuthorized(p, r))
    && (k == KindDeclined ==> ReasonKnown(op, r))
    && k != KindAction
    && Reachable(p.state, Implied(r.status))
    && (IsTerminal(p.state) ==> k != KindSuccess)
  }

  /** The script's verdict on the response is the one the platform's validator gives. */
  predicate Judged(op: Operation, p: Payment, s: Script) {
    s.answer.resp.Some? ==> s.valid == Accepts(op, p, s.answer.resp.value)
  }

  /** The answer is an authorization or a charge the platform can recognise as its own. */
  predicate Confirmed(p: Payment, r: Response) {
    r.ref != "" && Echo(OpAuthorize, p, r) == p.amount
  }

  /** The answer's status leads somewhere the payment can go from where it is. */
  predicate Leads(p: Payment, r: Response) {
    Reachable(p.state, Implied(r.status)) && (IsTerminal(p.state) ==> KindOf(r.status) != KindSuccess)
  }

  /**
   * How an authorization's answer is read, error-free and through the validator, in whatever state the payment is. In
   * particular, a request for the payer's action is never followed: it is parked as unknown, and so is a decline
   * whose reason has no class. From PROCESSING, and from the PENDING of an earlier answer, every status leads on.
   */
  lemma AuthorizationReadIff(p: Payment, s: Script, e: Ending)
    requires Judged(OpAuthorize, p, s) && s.answer.err.None? && s.answer.resp.Some?
    requires e == Classify(s.answer, s.valid)
    ensures var r := s.answer.resp.value;
      && (e.Approved? <==> r.status == StatusAuthorized && Confirmed(p, r) && Leads(p, r))
      && (e.Taken? <==> r.status == StatusCaptured && Confirmed(p, r) && Leads(p, r))
      && (e.Awaiting? <==> r.status == StatusPending && r.ref != "" && Leads(p, r))
      && (e.TurnedDown? <==> r.status == StatusDeclined && r.ref != "" && r.reason != Unclassified && Leads(p, r))
      && !e.ActionNeeded?
      && (e.Unknown? <==> !e.Approved? && !e.Taken? && !e.Awaiting? && !e.TurnedDown?)
    ensures p.state in {Processing, Pending}
      && s.answer.resp.value.status in {StatusAuthorized, StatusCaptured, StatusPending, StatusDeclined}
      ==> Leads(p, s.answer.resp.value)
  {
  }
}
