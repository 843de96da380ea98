/** What a refund's answer leaves in the store, from the fields of the answer and the payment before it. */
module RefundTheorems {
  import opened Int64
  import opened MoneyArithmetic
  import opened PaymentAggregate
  import opened DispatchSpec
  import opened FollowUpSpec
  import opened FollowUpTheorems
  import opened MoneySafety
  import opened Options

  // ----- how the answer to a refund is to be read -----

  predicate Answered(a: Answer, statuses: set<Status>) {
    a.err.None? && a.resp.Some? && a.resp.value.status in statuses
  }

  /** Whether the payer was refunded cannot be told. */
  predicate LeavesOpen(a: Answer) {
    if a.err.Some? then a.err.value.unknown || a.err.value.timeout else a.resp.None?
  }

  predicate SaysPaid(a: Answer) {
    Answered(a, {StatusRefunded})
  }

  predicate SaysSubmitted(a: Answer) {
    Answered(a, {StatusRefundAccepted, StatusPending})
  }

  /** Every other error and every other status. */
  predicate SaysFailed(a: Answer) {
    || (a.err.Some? && !a.err.value.unknown && !a.err.value.timeout)
    || Answered(a, {StatusAuthorized, StatusCaptured, StatusRequiresAction, StatusDeclined, StatusVoided, StatusFailed,
                    StatusOther})
  }

  // ----- what should be on file -----

  /** p with one refund more. */
  function Filed(p: Payment, id: nat, amount: Money, status: RefundStatus): Payment {
    p.(refunds := p.refunds + [Refund(id, amount, status)])
  }

  function StateOnceRefunded(p: Payment, total: int): State {
    if total >= p.captured.amount then Refunded else PartiallyRefunded
  }

  /** The refunded total can take the amount: one currency, no overflow, and a state to go to. */
  predicate Confirmable(p: Payment, amount: Money) {
    var total := p.refunded.amount + amount.amount;
    && p.refunded.currency == amount.currency == p.captured.currency
    && Fits(total) && CanMove(p.state, StateOnceRefunded(p, total))
  }

  /** The payment on file after a refund that was recorded. */
  function OnFile(p: Payment, id: nat, amount: Money, s: Script): Payment {
    if !s.resolve || !s.commit || LeavesOpen(s.answer) then Filed(p, id, amount, RefundPending)
    else if SaysSubmitted(s.answer) then Filed(p, id, amount, RefundSubmitted)
    else if SaysFailed(s.answer) then Filed(p, id, amount, RefundFailed)
    else if !Confirmable(p, amount) then Filed(p, id, amount, RefundPending)
    else
      var total := p.refunded.amount + amount.amount;
      Filed(p, id, amount, RefundSucceeded)
        .(refunded := Money(total, amount.currency), state := StateOnceRefunded(p, total))
  }

  // ----- and is -----

  lemma LastReplaced(before: seq<Refund>, a: Refund, b: Refund)
    ensures (before + [a])[|before| := b] == before + [b]
  {
  }

  lemma AdvancedIs(p: Payment, id: nat, amount: Money, from: RefundStatus, to: RefundStatus)
    requires CanAdvance(from, to)
    ensures AdvanceRefund(Filed(p, id, amount, from), |p.refunds|, to) == Changed(Filed(p, id, amount, to))
  {
    LastReplaced(p.refunds, Refund(id, amount, from), Refund(id, amount, to));
  }

  lemma ConfirmedIs(p: Payment, id: nat, amount: Money)
    ensures var c := ConfirmRefund(Filed(p, id, amount, RefundSubmitted), |p.refunds|);
      var total := p.refunded.amount + amount.amount;
      && (c.Changed? <==> Confirmable(p, amount))
      && (c.Changed? ==> c.p == Filed(p, id, amount, RefundSucceeded)
            .(refunded := Money(total, amount.currency), state := StateOnceRefunded(p, total)))
  {
    AdvancedIs(p, id, amount, RefundSubmitted, RefundSucceeded);
  }

  lemma AnswerKinds(a: Answer)
    ensures LeavesOpen(a) || SaysPaid(a) || SaysSubmitted(a) || SaysFailed(a)
  {
    if a.err.None? && a.resp.Some? {
      StatusKinds(a.resp.value.status);
    }
  }

  lemma StatusKinds(status: Status)
    ensures status in {StatusRefunded, StatusRefundAccepted, StatusPending} ||
      status in {StatusAuthorized, StatusCaptured, StatusRequiresAction, StatusDeclined, StatusVoided, StatusFailed,
                 StatusOther}
  {
    match status
    case StatusAuthorized =>
    case StatusCaptured =>
    case _ =>
  }

  lemma BookedIs(p: Payment, id: nat, amount: Money, s: Script)
    requires s.resolve && s.commit
    ensures var step := BookRefund(Filed(p, id, amount, RefundPending), |p.refunds|, s.answer);
      && (step.refused.None? <==> (SaysPaid(s.answer) ==> Confirmable(p, amount)))
      && if step.refused.None? then step.p == OnFile(p, id, amount, s)
         else OnFile(p, id, amount, s) == Filed(p, id, amount, RefundPending)
  {
    AnswerKinds(s.answer);
    AdvancedIs(p, id, amount, RefundPending, RefundSubmitted);
    AdvancedIs(p, id, amount, RefundPending, RefundFailed);
    ConfirmedIs(p, id, amount);
  }

  lemma FinishStores(w: World, step: Step, s: Script)
    ensures FinishStep(w, step, s).w.row == if step.refused.None? && s.commit then step.p else w.row
  {
  }

  lemma CallStores(w: World, p: Payment, id: nat, amount: Money, gw: GatewayId, s: Script)
    requires w.pay == w.row == Filed(p, id, amount, RefundPending) && s.resolve
    ensures RefundCall(w, gw, s).w.row == OnFile(p, id, amount, s)
    ensures Replies(RefundCall(w, gw, s), (SaysPaid(s.answer) ==> Confirmable(p, amount)) && s.commit && s.reload)
  {
    var i := |p.refunds|;
    RefundCallIs(w, gw, s, i);
    FinishStores(Note(w, Called(gw, OpRefund, id, s.answer, s.valid)), BookRefund(w.pay, i, s.answer), s);
    FinishReplies(Note(w, Called(gw, OpRefund, id, s.answer, s.valid)), BookRefund(w.pay, i, s.answer), s);
    BookedIs(p, id, amount, s.(commit := true));
  }

  /** A refund is recorded: an attempt holds the money, the aggregate takes the refund, and the write succeeds. */
  predicate TakesRefund(p: Payment, amount: Money, s: Script) {
    HasSuccess(p) && AddRefund(p, 0, amount).Changed? && s.saveFirst
  }

  lemma AddedIs(p: Payment, id: nat, amount: Money)
    ensures AddRefund(p, id, amount).Changed? <==> AddRefund(p, 0, amount).Changed?
    ensures AddRefund(p, id, amount).Changed? ==> AddRefund(p, id, amount).p == Filed(p, id, amount, RefundPending)
  {
  }

  /** What a refund leaves in the store, for every answer and every failure. */
  lemma RefundStores(w: World, amount: Money, s: Script)
    ensures RefundExisting(w, amount, s).w.row ==
      if TakesRefund(w.pay, amount, s) then OnFile(w.pay, w.nextId, amount, s) else w.row
  {
    var holder, c := SuccessfulAttempt(w.pay), AddRefund(w.pay, w.nextId, amount);
    HolderIs(w.pay.attempts);
    AddedIs(w.pay, w.nextId, amount);
    if holder.Some? && c.Changed? {
      RefundExistingIs(w, amount, s, holder.value, c);
      if s.saveFirst && s.resolve {
        CallStores(Save(w.(pay := c.p, nextId := w.nextId + 1)), w.pay, w.nextId, amount, holder.value.gateway, s);
      }
    }
  }

  /**
   * The caller of a refund gets the payment exactly if the refund is recorded and sent, the aggregate confirms it where
   * the gateway says it was paid, and the result is stored and read back.
   */
  lemma RefundRepliesIff(w: World, amount: Money, s: Script)
    ensures Replies(RefundExisting(w, amount, s),
      && TakesRefund(w.pay, amount, s) && s.resolve
      && (SaysPaid(s.answer) ==> Confirmable(w.pay, amount)) && s.commit && s.reload)
  {
    var holder, c := SuccessfulAttempt(w.pay), AddRefund(w.pay, w.nextId, amount);
    HolderIs(w.pay.attempts);
    AddedIs(w.pay, w.nextId, amount);
    if holder.Some? && c.Changed? {
      RefundExistingIs(w, amount, s, holder.value, c);
      if s.saveFirst && s.resolve {
        CallStores(Save(w.(pay := c.p, nextId := w.nextId + 1)), w.pay, w.nextId, amount, holder.value.gateway, s);
      }
    }
  }

  // ----- read the other way -----

  /**
   * For each status of the new refund, exactly the answers after which it is on file; and the refunded total and the
   * state move exactly with a success.
   */
  lemma RefundBookedIff(w: World, amount: Money, s: Script, row: Payment)
    requires TakesRefund(w.pay, amount, s) && row == RefundExisting(w, amount, s).w.row
    ensures |row.refunds| == |w.pay.refunds| + 1
    ensures var p, r, told := w.pay, row.refunds[|w.pay.refunds|], s.resolve && s.commit;
      var paid := told && SaysPaid(s.answer) && Confirmable(p, amount);
      && r.id == w.nextId && r.amount == amount && row.refunds[..|p.refunds|] == p.refunds
      && (r.status == RefundSucceeded <==> paid)
      && (r.status == RefundSubmitted <==> told && SaysSubmitted(s.answer))
      && (r.status == RefundFailed <==> told && SaysFailed(s.answer))
      && (r.status == RefundPending <==> !paid && !(told && (SaysSubmitted(s.answer) || SaysFailed(s.answer))))
      && row.refunded.amount == p.refunded.amount + (if paid then amount.amount else 0)
      && row.state == (if paid then StateOnceRefunded(p, row.refunded.amount) else p.state)
      && row.captured == p.captured && row.authorized == p.authorized && row.attempts == p.attempts
  {
    RefundStores(w, amount, s);
    AnswerKinds(s.answer);
  }

  // ----- payments whose books are in order -----

  /** A refund is taken exactly if it fits what is captured and neither refunded nor held for other refunds. */
  lemma RefundTakenIff(p: Payment, id: nat, m: Money)
    requires Solvent(p)
    ensures AddRefund(p, id, m).Changed? <==>
      && p.state in {Captured, Settled, PartiallyRefunded}
      && m.currency == p.amount.currency && m.amount > 0
      && p.refunded.amount + Held(p.refunds, |p.refunds|) + m.amount <= p.captured.amount
  {
    CommittedIsHeld(p, |p.refunds|);
    HeldAtLeastZero(p, |p.refunds|);
  }

  /** And a gateway's word that such a refund was paid is never refused. */
  lemma PaidRefundSucceeds(p: Payment, id: nat, m: Money)
    requires Solvent(p) && AddRefund(p, id, m).Changed?
    ensures Confirmable(p, m)
  {
    RefundTakenIff(p, id, m);
    HeldAtLeastZero(p, |p.refunds|);
  }
}
