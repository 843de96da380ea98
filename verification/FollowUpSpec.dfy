/** Capture, void and refund against the gateway that holds the money (orchestrator.go, followUp and RefundExisting). */
module FollowUpSpec {
  import opened MoneyArithmetic
  import opened PaymentAggregate
  import opened DispatchSpec
  import opened Options

  function FirstSuccess(attempts: seq<Attempt>): Option<Attempt> {
    if attempts == [] then None
    else if attempts[0].outcome == Success then Some(attempts[0])
    else FirstSuccess(attempts[1..])
  }

  function SuccessfulAttempt(p: Payment): Option<Attempt> {
    FirstSuccess(p.attempts)
  }

  /** How a follow-up call is read: no status is consulted, only whether the response is valid. */
  datatype Reading = Lost | Broken | Believed

  function Read(a: Answer, valid: bool): Reading {
    match a.err
    case Some(e) => if e.unknown || e.timeout then Lost else Broken
    case None => if a.resp.None? || !valid then Lost else Believed
  }

  /** Commit what is in memory and read the row back. */
  function Finish(w: World, s: Script): Attempted {
    if !s.commit then Attempted(w, Erred(StoreFailed))
    else if !s.reload then Attempted(Save(w), Erred(StoreFailed))
    else Attempted(Save(w), Gave(Verdict(true, Some(w.pay), None)))
  }

  function FinishStep(w: World, step: Step, s: Script): Attempted {
    var w1 := w.(pay := step.p);
    if step.refused.Some? then Attempted(w1, Erred(Refusal(step.refused.value))) else Finish(w1, s)
  }

  function Book(p: Payment, i: nat, op: Operation, amount: Money, a: Answer, r: Reading): Step
    requires Sent(p, i)
    requires r.Believed? ==> a.resp.Some?
  {
    match r
    case Lost => Step(Resolve(p, i, TimeoutUnknown).p, None)
    case Broken => Step(Resolve(p, i, Error).p, None)
    case Believed =>
      var won := Resolve(p, i, Success).p;
      Then(if op == OpVoid then Void(won)
           else MarkCaptured(won,
                  if a.resp.value.capturedAmount.Some? then a.resp.value.capturedAmount.value else amount),
           won)
  }

  function FollowCall(w: World, gw: GatewayId, op: Operation, amount: Money, s: Script): Attempted
    requires Ready(w.pay)
  {
    var i := |w.pay.attempts| - 1;
    var r := Read(s.answer, s.valid);
    var p := Resolve(w.pay, i, Dispatched).p;
    var w1 := Note(w.(pay := p), Called(gw, op, w.pay.attempts[i].id, s.answer, s.valid));
    FinishStep(Note(w1, Recorded(gw, op, r.Believed?, true)), Book(p, i, op, amount, s.answer, r), s)
  }

  /** Only the new attempt row is written before the call; the payment's row is not. */
  function SaveAttempt(w: World, a: Attempt): World {
    var row := w.row.(attempts := w.row.attempts + [a]);
    Note(w.(row := row), Saved(row))
  }

  function FollowSend(w: World, gw: GatewayId, op: Operation, amount: Money, s: Script): Attempted {
    var c := StartAttempt(w.pay, w.nextId, gw, op);
    if c.Refused? then Abandon(w, gw, op, Refusal(c.code)) else
    var w1 := w.(pay := c.p, nextId := w.nextId + 1);
    if !s.saveFirst then Abandon(w1, gw, op, StoreFailed) else
    var done := FollowCall(SaveAttempt(w1, c.p.attempts[|c.p.attempts| - 1]), gw, op, amount, s);
    done.(w := Note(done.w, Released(gw)))
  }

  function FollowUp(w: World, op: Operation, amount: Money, s: Script): Attempted {
    var holder := SuccessfulAttempt(w.pay);
    if holder.None? then Attempted(w, Erred(Refusal(InvalidTransition))) else
    var gw := holder.value.gateway;
    if !s.allow then Attempted(w, Erred(GatewayBusy)) else
    var w1 := Note(w, Permitted(gw, op));
    if !s.acquire then Attempted(Note(w1, Recorded(gw, op, false, false)), Erred(GatewayBusy)) else
    var w2 := Note(w1, Acquired(gw));
    if !s.resolve then Abandon(w2, gw, op, GatewayBusy) else FollowSend(w2, gw, op, amount, s)
  }

  // ----- refund -----

  /** What the gateway's answer does to refund i; an unknown outcome leaves it PENDING. */
  function BookRefund(p: Payment, i: nat, a: Answer): Step
    requires i < |p.refunds|
  {
    match a.err
    case Some(e) => if e.unknown || e.timeout then Step(p, None) else Then(AdvanceRefund(p, i, RefundFailed), p)
    case None =>
      if a.resp.None? then Step(p, None) else
      match a.resp.value.status
      case StatusRefundAccepted => Then(AdvanceRefund(p, i, RefundSubmitted), p)
      case StatusPending => Then(AdvanceRefund(p, i, RefundSubmitted), p)
      case StatusRefunded =>
        var c := AdvanceRefund(p, i, RefundSubmitted);
        if c.Refused? then Step(p, Some(c.code)) else Then(ConfirmRefund(c.p, i), c.p)
      case _ => Then(AdvanceRefund(p, i, RefundFailed), p)
  }

  function RefundCall(w: World, gw: GatewayId, s: Script): Attempted
    requires |w.pay.refunds| > 0
  {
    var i := |w.pay.refunds| - 1;
    FinishStep(Note(w, Called(gw, OpRefund, w.pay.refunds[i].id, s.answer, s.valid)), BookRefund(w.pay, i, s.answer), s)
  }

  function RefundExisting(w: World, amount: Money, s: Script): Attempted {
    var holder := SuccessfulAttempt(w.pay);
    if holder.None? then Attempted(w, Erred(Refusal(InvalidTransition))) else
    var c := AddRefund(w.pay, w.nextId, amount);
    if c.Refused? then Attempted(w, Erred(Refusal(c.code))) else
    var w1 := w.(pay := c.p, nextId := w.nextId + 1);
    if !s.saveFirst then Attempted(w1, Erred(StoreFailed))
    else if !s.resolve then Attempted(Save(w1), Erred(GatewayBusy))
    else RefundCall(Save(w1), holder.value.gateway, s)
  }

  lemma RefundCallIs(w: World, gw: GatewayId, s: Script, i: nat)
    requires i == |w.pay.refunds| - 1
    ensures RefundCall(w, gw, s) ==
      FinishStep(Note(w, Called(gw, OpRefund, w.pay.refunds[i].id, s.answer, s.valid)),
          BookRefund(w.pay, i, s.answer), s)
  {
  }

  lemma FollowCallIs(w: World, gw: GatewayId, op: Operation, amount: Money, s: Script, i: nat, r: Reading, p: Payment)
    requires Ready(w.pay) && i == |w.pay.attempts| - 1 && r == Read(s.answer, s.valid)
    requires p == Resolve(w.pay, i, Dispatched).p
    ensures Sent(p, i)
    ensures var called := Called(gw, op, w.pay.attempts[i].id, s.answer, s.valid);
      FollowCall(w, gw, op, amount, s) ==
        FinishStep(Note(Note(w.(pay := p), called), Recorded(gw, op, r.Believed?, true)),
                   Book(p, i, op, amount, s.answer, r), s)
  {
  }

  lemma FollowSendIs(w: World, gw: GatewayId, op: Operation, amount: Money, s: Script, c: Change)
    requires c == StartAttempt(w.pay, w.nextId, gw, op)
    ensures c.Refused? ==> FollowSend(w, gw, op, amount, s) == Abandon(w, gw, op, Refusal(c.code))
    ensures c.Changed? ==>
      var w1, n := w.(pay := c.p, nextId := w.nextId + 1), |c.p.attempts|;
      && Ready(c.p)
      && var done := FollowCall(SaveAttempt(w1, c.p.attempts[n - 1]), gw, op, amount, s);
         FollowSend(w, gw, op, amount, s) ==
           if s.saveFirst then done.(w := Note(done.w, Released(gw))) else Abandon(w1, gw, op, StoreFailed)
  {
  }

  lemma RefundExistingIs(w: World, amount: Money, s: Script, holder: Attempt, c: Change)
    requires SuccessfulAttempt(w.pay) == Some(holder) && c == AddRefund(w.pay, w.nextId, amount) && c.Changed?
    ensures var w1 := w.(pay := c.p, nextId := w.nextId + 1);
      && |c.p.refunds| > 0
      && RefundExisting(w, amount, s) ==
           if !s.saveFirst then Attempted(w1, Erred(StoreFailed))
           else if !s.resolve then Attempted(Save(w1), Erred(GatewayBusy))
           else RefundCall(Save(w1), holder.gateway, s)
  {
  }
}
