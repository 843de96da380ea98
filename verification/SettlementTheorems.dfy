/** What an authorization's answer leaves in the store, from the fields of the answer and the payment before it. */
module SettlementTheorems {
  import opened Int64
  import opened MoneyArithmetic
  import opened PaymentAggregate
  import opened DispatchSpec
  import opened DispatchTheorems
  import opened ChargeTheorems
  import opened Options

  // ----- what should be on file -----

  /** What is written of an attempt besides its number and gateway. */
  datatype Remark = Remark(outcome: Outcome, reason: DeclineReason, noRetry: bool)

  function Plain(outcome: Outcome): Remark {
    Remark(outcome, Unclassified, false)
  }

  /** p with a new authorization attempt, in another state and with other amounts. */
  function Filed(p: Payment, state: State, authorized: Money, captured: Money, id: nat, gw: GatewayId, n: Remark)
    : Payment
  {
    p.(state := state, authorized := authorized, captured := captured,
       attempts := p.attempts + [Attempt(id, gw, OpAuthorize, n.outcome, n.reason, n.noRetry)])
  }

  /** The amount is one the payment can be authorized for. */
  predicate Authorizable(p: Payment, m: Money) {
    m.currency == p.amount.currency && 0 < m.amount <= p.amount.amount
  }

  /** The amount can be captured on top of what is: within the authorization, or within the payment if there is none. */
  predicate Capturable(p: Payment, m: Money) {
    var ceiling := if p.authorized.amount == 0 then p.amount else p.authorized;
    && m.currency == p.amount.currency && m.currency == p.captured.currency && m.currency == ceiling.currency
    && 0 < m.amount && Fits(p.captured.amount + m.amount) && p.captured.amount + m.amount <= ceiling.amount
  }

  /** What the gateway says it authorized or captured; the payment's amount if it does not say. */
  function Said(m: Option<Money>, p: Payment): Money {
    if m.Some? then m.value else p.amount
  }

  /** The answer is error-free, valid, and has this status. */
  predicate Believed(s: Script, status: Status) {
    Believable(s) && s.answer.resp.value.status == status
  }

  /** The call failed in a way that tells the gateway did not act, as the orchestrator reads it. */
  predicate CallFailed(a: Answer) {
    a.err.Some? && !a.err.value.unknown && (a.err.value.timeout ==> a.resp.Some?)
  }

  /** A decline the next gateway may be tried after: the reason is on the list and the network does not forbid it. */
  predicate SoftDecline(r: Response) {
    r.reason in {IssuerUnavailable, TryAgainLater, ProcessingError, DoNotHonor} && !r.noRetry
  }

  /** The aggregate takes what the answer says, the payment being in state st while the gateway is called. */
  predicate Accepted(p: Payment, st: State, s: Script, failover: bool) {
    || UnknownExit(s.answer, s.valid)
    || CallFailed(s.answer)
    || (Believed(s, StatusAuthorized) && CanMove(st, Authorized)
        && Authorizable(p, Said(s.answer.resp.value.authorizedAmount, p)))
    || (Believed(s, StatusCaptured) && CanMove(st, Captured)
        && Capturable(p, Said(s.answer.resp.value.capturedAmount, p)))
    || (Believed(s, StatusRequiresAction) && CanMove(st, RequiresAction))
    || (Believed(s, StatusPending) && CanMove(st, Pending))
    || (Believed(s, StatusDeclined) && ((SoftDecline(s.answer.resp.value) && failover) || CanMove(st, Failed)))
  }

  /** The payment on file after an attempt that reached its gateway. */
  function OnFile(p: Payment, id: nat, gw: GatewayId, s: Script, failover: bool): Payment {
    var st := StateWhileCalling(p.state);
    if !s.commit || !Accepted(p, st, s, failover) then
      Filed(p, st, p.authorized, p.captured, id, gw, Plain(OutcomePending))
    else if UnknownExit(s.answer, s.valid) then
      Filed(p, st, p.authorized, p.captured, id, gw, Plain(TimeoutUnknown))
    else if CallFailed(s.answer) then
      Filed(p, st, p.authorized, p.captured, id, gw, Plain(Error))
    else
      var r := s.answer.resp.value;
      match r.status
      case StatusAuthorized =>
        Filed(p, Authorized, Said(r.authorizedAmount, p), p.captured, id, gw, Plain(Success))
      case StatusCaptured =>
        var total := p.captured.amount + Said(r.capturedAmount, p).amount;
        Filed(p, Captured, p.authorized, Money(total, p.captured.currency), id, gw, Plain(Success))
      case StatusRequiresAction =>
        Filed(p, RequiresAction, p.authorized, p.captured, id, gw, Plain(Dispatched))
      case StatusPending =>
        Filed(p, Pending, p.authorized, p.captured, id, gw, Plain(Dispatched))
      case StatusDeclined =>
        var state := if SoftDecline(r) && failover then st else Failed;
        Filed(p, state, p.authorized, p.captured, id, gw, Remark(Declined, r.reason, r.noRetry))
      case _ => p
  }

  // ----- and is -----

  lemma StartedIs(p: Payment, id: nat, gw: GatewayId)
    requires Startable(p)
    ensures Started(p, id, gw) ==
      Changed(Filed(p, StateWhileCalling(p.state), p.authorized, p.captured, id, gw, Plain(OutcomePending)))
  {
  }

  lemma LastReplaced(before: seq<Attempt>, a: Attempt, b: Attempt)
    ensures (before + [a])[|before| := b] == before + [b]
  {
  }

  /** The attempt as it is while the gateway is at work. */
  function InFlightAs(p: Payment, st: State, id: nat, gw: GatewayId): Payment {
    Filed(p, st, p.authorized, p.captured, id, gw, Plain(Dispatched))
  }

  lemma ResolvedIs(p: Payment, st: State, id: nat, gw: GatewayId, from: Outcome, to: Outcome)
    requires CanResolve(from, to)
    ensures Resolve(Filed(p, st, p.authorized, p.captured, id, gw, Plain(from)), |p.attempts|, to) ==
      Changed(Filed(p, st, p.authorized, p.captured, id, gw, Plain(to)))
  {
    LastReplaced(p.attempts, Attempt(id, gw, OpAuthorize, from, Unclassified, false),
                 Attempt(id, gw, OpAuthorize, to, Unclassified, false));
  }

  lemma DeclinedIs(p: Payment, st: State, id: nat, gw: GatewayId, r: Response)
    requires Startable(p)
    ensures var lost := Filed(p, st, p.authorized, p.captured, id, gw, Remark(Declined, r.reason, r.noRetry));
      && Decline(InFlightAs(p, st, id, gw), |p.attempts|, r.reason, r.noRetry) == Changed(lost)
      && !HasUnresolved(lost)
  {
    LastReplaced(p.attempts, Attempt(id, gw, OpAuthorize, Dispatched, Unclassified, false),
                 Attempt(id, gw, OpAuthorize, Declined, r.reason, r.noRetry));
  }

  /** The aggregate makes of the answer what should be on file once committed, or refuses. */
  ghost predicate AsFiled(step: Step, p: Payment, st: State, id: nat, gw: GatewayId, s: Script, failover: bool) {
    && (step.refused.None? <==> Accepted(p, st, s, failover))
    && (step.refused.None? ==> step.p == OnFile(p, id, gw, s.(commit := true), failover))
  }

  function Stepped(p: Payment, st: State, id: nat, gw: GatewayId, s: Script, failover: bool): Step {
    Advance(InFlightAs(p, st, id, gw), |p.attempts|, s.answer, Classify(s.answer, s.valid), failover)
  }

  lemma UnbelievedIs(p: Payment, st: State, id: nat, gw: GatewayId, s: Script, failover: bool)
    requires st == StateWhileCalling(p.state) && (UnknownExit(s.answer, s.valid) || CallFailed(s.answer))
    ensures AsFiled(Stepped(p, st, id, gw, s, failover), p, st, id, gw, s, failover)
  {
    ResolvedIs(p, st, id, gw, Dispatched, Error);
    ResolvedIs(p, st, id, gw, Dispatched, TimeoutUnknown);
  }

  lemma WonIs(p: Payment, st: State, id: nat, gw: GatewayId, s: Script, failover: bool)
    requires st == StateWhileCalling(p.state) && (Believed(s, StatusAuthorized) || Believed(s, StatusCaptured))
    ensures AsFiled(Stepped(p, st, id, gw, s, failover), p, st, id, gw, s, failover)
  {
    ResolvedIs(p, st, id, gw, Dispatched, Success);
  }

  lemma ParkedIs(p: Payment, st: State, id: nat, gw: GatewayId, s: Script, failover: bool)
    requires st == StateWhileCalling(p.state) && (Believed(s, StatusPending) || Believed(s, StatusRequiresAction))
    ensures AsFiled(Stepped(p, st, id, gw, s, failover), p, st, id, gw, s, failover)
  {
  }

  lemma TurnedDownIs(p: Payment, st: State, id: nat, gw: GatewayId, s: Script, failover: bool)
    requires Startable(p) && st == StateWhileCalling(p.state) && Believed(s, StatusDeclined)
    ensures AsFiled(Stepped(p, st, id, gw, s, failover), p, st, id, gw, s, failover)
  {
    DeclinedIs(p, st, id, gw, s.answer.resp.value);
  }

  /** Every answer is one of these. */
  lemma AnswerKinds(s: Script)
    ensures UnknownExit(s.answer, s.valid) || CallFailed(s.answer)
      || Believed(s, StatusAuthorized) || Believed(s, StatusCaptured)
      || Believed(s, StatusPending) || Believed(s, StatusRequiresAction) || Believed(s, StatusDeclined)
  {
  }

  lemma AdvanceIs(p: Payment, st: State, id: nat, gw: GatewayId, s: Script, failover: bool)
    requires Startable(p) && st == StateWhileCalling(p.state)
    ensures AsFiled(Stepped(p, st, id, gw, s, failover), p, st, id, gw, s, failover)
  {
    AnswerKinds(s);
    if UnknownExit(s.answer, s.valid) || CallFailed(s.answer) {
      UnbelievedIs(p, st, id, gw, s, failover);
    } else if Believed(s, StatusAuthorized) || Believed(s, StatusCaptured) {
      WonIs(p, st, id, gw, s, failover);
    } else if Believed(s, StatusPending) || Believed(s, StatusRequiresAction) {
      ParkedIs(p, st, id, gw, s, failover);
    } else {
      TurnedDownIs(p, st, id, gw, s, failover);
    }
  }

  lemma CloseStores(w: World, id: nat, e: Ending, step: Step, s: Script, failover: bool)
    ensures Close(w, id, e, step, s, failover).w.row == if step.refused.None? && s.commit then step.p else w.row
  {
  }

  lemma CallStores(w: World, p: Payment, st: State, gw: GatewayId, s: Script, failover: bool, id: nat)
    requires Startable(p) && st == StateWhileCalling(p.state)
    requires w.pay == w.row == Filed(p, st, p.authorized, p.captured, id, gw, Plain(OutcomePending))
    ensures CallGateway(w, gw, s, failover).w.row == OnFile(p, id, gw, s, failover)
  {
    var i, q := |p.attempts|, InFlightAs(p, st, id, gw);
    ResolvedIs(p, st, id, gw, OutcomePending, Dispatched);
    CallGatewayIs(w, gw, s, failover, i, q);
    AdvanceIs(p, st, id, gw, s, failover);
    var e := Classify(s.answer, s.valid);
    var (success, counted) := Health(e);
    var w1 := Note(w.(pay := q), Called(gw, OpAuthorize, id, s.answer, s.valid));
    CloseStores(Note(w1, Recorded(gw, OpAuthorize, success, counted)), id, e,
                Advance(q, i, s.answer, e, failover), s, failover);
  }

  lemma TransmitStores(w: World, gw: GatewayId, s: Script, failover: bool)
    ensures Transmit(w, gw, s, failover).w.row ==
      if s.saveFirst && Startable(w.pay) then OnFile(w.pay, w.nextId, gw, s, failover) else w.row
  {
    var c := Started(w.pay, w.nextId, gw);
    TransmitIs(w, gw, s, failover, c);
    if Startable(w.pay) {
      StartedIs(w.pay, w.nextId, gw);
      var w1 := w.(pay := c.p, nextId := w.nextId + 1);
      CallStores(Save(w1), w.pay, StateWhileCalling(w.pay.state), gw, s, failover, w.nextId);
    }
  }

  /** What an attempt leaves in the store, for every answer and every failure. */
  lemma AttemptStores(w: World, gw: GatewayId, s: Script, failover: bool)
    ensures AttemptOnce(w, gw, s, failover).w.row ==
      if Reaches(s) && Startable(w.pay) then OnFile(w.pay, w.nextId, gw, s, failover) else w.row
  {
    TransmitStores(Note(Note(w, Permitted(gw, OpAuthorize)), Acquired(gw)), gw, s, failover);
  }

  // ----- what the loop hears -----

  /** Another gateway is to be tried: this one did not act, or declined softly and failover is on. */
  predicate TriesNext(s: Script, failover: bool) {
    CallFailed(s.answer) || (Believed(s, StatusDeclined) && SoftDecline(s.answer.resp.value) && failover)
  }

  /** The loop is to end with the payment, to go on, or is told of an error. */
  predicate Tells(t: Tried, ends: bool, goesOn: bool) {
    && (t.Gave? && t.verdict.terminal <==> ends)
    && (t.Gave? && !t.verdict.terminal <==> goesOn)
  }

  lemma TriesNextIs(s: Script, failover: bool)
    ensures LeavesLoopRunning(Classify(s.answer, s.valid), failover) <==> TriesNext(s, failover)
  {
  }

  lemma CloseTells(w: World, id: nat, e: Ending, step: Step, s: Script, failover: bool, goes: bool)
    requires goes == LeavesLoopRunning(e, failover)
    ensures var done := step.refused.None? && s.commit;
      Tells(Close(w, id, e, step, s, failover).tried, done && !goes && s.reload, done && goes)
  {
  }

  lemma CallTells(w: World, p: Payment, st: State, gw: GatewayId, s: Script, failover: bool, id: nat)
    requires Startable(p) && st == StateWhileCalling(p.state)
    requires w.pay == Filed(p, st, p.authorized, p.captured, id, gw, Plain(OutcomePending))
    ensures var done, goes := s.commit && Accepted(p, st, s, failover), TriesNext(s, failover);
      Tells(CallGateway(w, gw, s, failover).tried, done && !goes && s.reload, done && goes)
  {
    var i, q := |p.attempts|, InFlightAs(p, st, id, gw);
    ResolvedIs(p, st, id, gw, OutcomePending, Dispatched);
    CallGatewayIs(w, gw, s, failover, i, q);
    AdvanceIs(p, st, id, gw, s, failover);
    TriesNextIs(s, failover);
    var e := Classify(s.answer, s.valid);
    var (success, counted) := Health(e);
    var w1 := Note(w.(pay := q), Called(gw, OpAuthorize, id, s.answer, s.valid));
    CloseTells(Note(w1, Recorded(gw, OpAuthorize, success, counted)), id, e,
               Advance(q, i, s.answer, e, failover), s, failover, TriesNext(s, failover));
  }

  lemma TransmitTells(w: World, gw: GatewayId, s: Script, failover: bool)
    ensures var st, goes := StateWhileCalling(w.pay.state), TriesNext(s, failover);
      var done := s.saveFirst && Startable(w.pay) && s.commit && Accepted(w.pay, st, s, failover);
      Tells(Transmit(w, gw, s, failover).tried, done && !goes && s.reload, done && goes)
  {
    var c := Started(w.pay, w.nextId, gw);
    TransmitIs(w, gw, s, failover, c);
    if Startable(w.pay) {
      StartedIs(w.pay, w.nextId, gw);
      var w1 := w.(pay := c.p, nextId := w.nextId + 1);
      CallTells(Save(w1), w.pay, StateWhileCalling(w.pay.state), gw, s, failover, w.nextId);
    }
  }

  /**
   * An attempt ends the loop with the payment exactly if its call was answered, the aggregate took the answer, it was
   * stored and read back, and no other gateway is to be tried. It lets the loop go on exactly if one is. In every other
   * case it reports an error.
   */
  lemma AttemptTellsIff(w: World, gw: GatewayId, s: Script, failover: bool)
    ensures var st, goes := StateWhileCalling(w.pay.state), TriesNext(s, failover);
      var done := Reaches(s) && Startable(w.pay) && s.commit && Accepted(w.pay, st, s, failover);
      Tells(AttemptOnce(w, gw, s, failover).tried, done && !goes && s.reload, done && goes)
  {
    TransmitTells(Note(Note(w, Permitted(gw, OpAuthorize)), Acquired(gw)), gw, s, failover);
  }

  // ----- read the other way -----

  function Newest(p: Payment): Attempt
    requires |p.attempts| > 0
  {
    p.attempts[|p.attempts| - 1]
  }

  /** The outcome on file says exactly which answers it may have come from. */
  predicate SaysOf(a: Attempt, p: Payment, s: Script, failover: bool) {
    var taken := s.commit && Accepted(p, StateWhileCalling(p.state), s, failover);
    && (a.outcome == Success <==> taken && (Believed(s, StatusAuthorized) || Believed(s, StatusCaptured)))
    && (a.outcome == Declined <==> taken && Believed(s, StatusDeclined))
    && (a.outcome == TimeoutUnknown <==> s.commit && UnknownExit(s.answer, s.valid))
    && (a.outcome == Error <==> s.commit && CallFailed(s.answer))
    && (a.outcome == Dispatched <==> taken && (Believed(s, StatusPending) || Believed(s, StatusRequiresAction)))
    && (a.outcome == OutcomePending <==> !taken)
  }

  lemma OnFileSays(p: Payment, id: nat, gw: GatewayId, s: Script, failover: bool)
    ensures var q := OnFile(p, id, gw, s, failover);
      |q.attempts| > 0 && SaysOf(Newest(q), p, s, failover)
  {
    AnswerKinds(s);
  }

  /** For each outcome of the attempt, exactly the answers after which it is on file. */
  lemma OutcomeIff(w: World, gw: GatewayId, s: Script, failover: bool, row: Payment)
    requires Reaches(s) && Startable(w.pay) && row == AttemptOnce(w, gw, s, failover).w.row
    ensures |row.attempts| > 0 && SaysOf(Newest(row), w.pay, s, failover)
  {
    AttemptStores(w, gw, s, failover);
    OnFileSays(w.pay, w.nextId, gw, s, failover);
  }

  /**
   * Money moves on file exactly on a valid AUTHORIZED or CAPTURED answer that the aggregate takes and that is
   * committed: the one sets the authorized amount to what the gateway said, the other adds that to the captured one.
   */
  lemma MoneyMovesIff(w: World, gw: GatewayId, s: Script, failover: bool, row: Payment)
    requires Reaches(s) && Startable(w.pay) && row == AttemptOnce(w, gw, s, failover).w.row
    ensures var p, st := w.pay, StateWhileCalling(w.pay.state);
      && (row.captured != p.captured <==> s.commit && Believed(s, StatusCaptured) && Accepted(p, st, s, failover))
      && (row.captured != p.captured ==>
            row.captured.amount == p.captured.amount + Said(s.answer.resp.value.capturedAmount, p).amount)
      && (s.commit && Believed(s, StatusAuthorized) && Accepted(p, st, s, failover) ==>
            row.authorized == Said(s.answer.resp.value.authorizedAmount, p) && row.state == Authorized)
      && (row.authorized != p.authorized ==> s.commit && Believed(s, StatusAuthorized))
      && row.refunded == p.refunded && row.refunds == p.refunds && row.amount == p.amount
  {
    AttemptStores(w, gw, s, failover);
    AnswerKinds(s);
  }
}
