/** Captures stay within the authorization and refunds within the captures, over every run and crash. */
module MoneySafety {
  import opened MoneyArithmetic
  import opened PaymentAggregate
  import opened DispatchSpec
  import opened FollowUpSpec
  import opened ProtocolTheorems

  predicate InFlight(r: Refund) {
    r.status == RefundPending || r.status == RefundSubmitted
  }

  /** What the first k refunds still hold in flight. */
  function Held(refunds: seq<Refund>, k: nat): int
    requires k <= |refunds|
  {
    if k == 0 then 0
    else Held(refunds, k - 1) + if InFlight(refunds[k - 1]) then refunds[k - 1].amount.amount else 0
  }

  /** Nothing has been taken from the payer yet in these states. */
  predicate BeforeCapture(s: State) {
    s in {Created, RequiresAction, Processing, Pending, Authorized}
  }

  predicate OneCurrency(p: Payment) {
    var c := p.amount.currency;
    && p.authorized.currency == c && p.captured.currency == c && p.refunded.currency == c
    && forall i :: 0 <= i < |p.refunds| ==> p.refunds[i].amount.currency == c && p.refunds[i].amount.amount > 0
  }

  /** Authorized within the amount, captured within the ceiling, refunded and in flight within the captured. */
  predicate Solvent(p: Payment) {
    && OneCurrency(p)
    && 0 <= p.authorized.amount <= p.amount.amount
    && 0 <= p.captured.amount <= CaptureCeiling(p).amount
    && 0 <= p.refunded.amount
    && p.refunded.amount + Held(p.refunds, |p.refunds|) <= p.captured.amount
    && (BeforeCapture(p.state) ==> p.captured.amount == 0)
  }

  lemma {:induction false} HeldNonNegative(p: Payment, k: nat)
    requires OneCurrency(p) && k <= |p.refunds|
    ensures 0 <= Held(p.refunds, k) <= Held(p.refunds, |p.refunds|)
    decreases |p.refunds| - k
  {
    if k < |p.refunds| {
      HeldNonNegative(p, k + 1);
    }
    HeldAtLeastZero(p, k);
  }

  lemma {:induction false} HeldAtLeastZero(p: Payment, k: nat)
    requires OneCurrency(p) && k <= |p.refunds|
    ensures 0 <= Held(p.refunds, k)
  {
    if k > 0 {
      HeldAtLeastZero(p, k - 1);
    }
  }

  /** The running total AddRefund forms is exact: it cannot overflow below the captured amount. */
  lemma {:induction false} CommittedIsHeld(p: Payment, k: nat)
    requires Solvent(p) && k <= |p.refunds|
    ensures var c := PaymentAggregate.Committed(p, k);
            c.Ok? && c.value.amount == p.refunded.amount + Held(p.refunds, k) && c.value.currency == p.amount.currency
  {
    HeldNonNegative(p, k);
    if k > 0 {
      CommittedIsHeld(p, k - 1);
      HeldNonNegative(p, k - 1);
    }
  }

  lemma {:induction false} HeldPrefix(a: seq<Refund>, b: seq<Refund>, k: nat)
    requires k <= |a| && k <= |b| && a[..k] == b[..k]
    ensures Held(a, k) == Held(b, k)
  {
    if k > 0 {
      assert a[..k][k - 1] == b[..k][k - 1];
      assert a[..k - 1] == a[..k][..k - 1] && b[..k - 1] == b[..k][..k - 1];
      HeldPrefix(a, b, k - 1);
    }
  }

  /** Changing refund i's status changes what is held by refund i alone. */
  lemma {:induction false} HeldUpdate(refunds: seq<Refund>, i: nat, to: RefundStatus, k: nat)
    requires i < |refunds| && k <= |refunds|
    ensures var r := refunds[i].(status := to);
            Held(refunds[i := r], k) == Held(refunds, k)
            + if i < k then (if InFlight(r) then r.amount.amount else 0)
                            - (if InFlight(refunds[i]) then refunds[i].amount.amount else 0)
              else 0
  {
    if k > 0 {
      HeldUpdate(refunds, i, to, k - 1);
    }
  }

  // ----- every step of the aggregate -----

  lemma AddRefundSolvent(p: Payment, id: nat, m: Money)
    requires Solvent(p) && AddRefund(p, id, m).Changed?
    ensures Solvent(AddRefund(p, id, m).p)
  {
    CommittedIsHeld(p, |p.refunds|);
    var q := AddRefund(p, id, m).p;
    assert q.refunds[..|p.refunds|] == p.refunds[..|p.refunds|];
    HeldPrefix(q.refunds, p.refunds, |p.refunds|);
  }

  lemma AdvanceRefundSolvent(p: Payment, i: nat, to: RefundStatus)
    requires Solvent(p) && i < |p.refunds| && to != RefundPending && AdvanceRefund(p, i, to).Changed?
    ensures Solvent(AdvanceRefund(p, i, to).p)
  {
    HeldUpdate(p.refunds, i, to, |p.refunds|);
  }

  lemma ConfirmRefundSolvent(p: Payment, i: nat)
    requires Solvent(p) && i < |p.refunds| && ConfirmRefund(p, i).Changed?
    ensures Solvent(ConfirmRefund(p, i).p)
  {
    HeldUpdate(p.refunds, i, RefundSucceeded, |p.refunds|);
  }

  lemma BookRefundSolvent(p: Payment, i: nat, a: Answer)
    requires Solvent(p) && i < |p.refunds|
    ensures Solvent(BookRefund(p, i, a).p)
  {
    if AdvanceRefund(p, i, RefundFailed).Changed? {
      AdvanceRefundSolvent(p, i, RefundFailed);
    }
    var c := AdvanceRefund(p, i, RefundSubmitted);
    if c.Changed? {
      AdvanceRefundSolvent(p, i, RefundSubmitted);
      if ConfirmRefund(c.p, i).Changed? {
        ConfirmRefundSolvent(c.p, i);
      }
    }
  }

  /** A step that moves no money may only leave the states before capture, never enter them. */
  lemma MoveSolvent(p: Payment, q: Payment)
    requires Solvent(p) && q == p.(state := q.state, attempts := q.attempts)
    requires BeforeCapture(q.state) ==> BeforeCapture(p.state)
    ensures Solvent(q)
  {
  }

  lemma MarkAuthorizedSolvent(p: Payment, m: Money)
    requires Solvent(p)
    ensures MarkAuthorized(p, m).Changed? ==> Solvent(MarkAuthorized(p, m).p)
  {
  }

  lemma MarkCapturedSolvent(p: Payment, m: Money)
    requires Solvent(p)
    ensures MarkCaptured(p, m).Changed? ==> Solvent(MarkCaptured(p, m).p)
  {
  }

  lemma AdvanceSolvent(p: Payment, i: nat, a: Answer, valid: bool, failover: bool)
    requires Sent(p, i) && Solvent(p)
    ensures Solvent(Advance(p, i, a, Classify(a, valid), failover).p)
  {
    var e := Classify(a, valid);
    var q := Advance(p, i, a, e, failover).p;
    match e
    case Approved =>
      var won := Resolve(p, i, Success).p;
      MoveSolvent(p, won);
      MarkAuthorizedSolvent(won,
          if a.resp.value.authorizedAmount.Some? then a.resp.value.authorizedAmount.value else p.amount);
    case Taken =>
      var won := Resolve(p, i, Success).p;
      MoveSolvent(p, won);
      MarkCapturedSolvent(won,
          if a.resp.value.capturedAmount.Some? then a.resp.value.capturedAmount.value else p.amount);
    case _ =>
      MoveSolvent(p, q);
  }

  lemma BookSolvent(p: Payment, i: nat, op: Operation, amount: Money, a: Answer, valid: bool)
    requires Sent(p, i) && Solvent(p)
    ensures Solvent(Book(p, i, op, amount, a, Read(a, valid)).p)
  {
    var r := Read(a, valid);
    if r.Believed? && op != OpVoid {
      var won := Resolve(p, i, Success).p;
      MoveSolvent(p, won);
      MarkCapturedSolvent(won, if a.resp.value.capturedAmount.Some? then a.resp.value.capturedAmount.value else amount);
    } else {
      MoveSolvent(p, Book(p, i, op, amount, a, r).p);
    }
  }

  // ----- every operation, every run -----

  predicate SolventLog(log: Log) {
    match log
    case Quiet => true
    case Past(before, e) => SolventLog(before) && (e.Saved? ==> Solvent(e.p))
  }

  predicate SolventWorld(w: World) {
    Solvent(w.pay) && Solvent(w.row) && SolventLog(w.log)
  }

  lemma FinishStepSolvent(w: World, step: Step, s: Script)
    requires SolventWorld(w) && Solvent(step.p)
    ensures SolventWorld(FinishStep(w, step, s).w)
  {
  }

  lemma ChangeSolvent(w: World, p: Payment, id: nat)
    requires SolventWorld(w) && Solvent(p)
    ensures SolventWorld(w.(pay := p)) && SolventWorld(w.(pay := p, nextId := id))
  {
  }

  lemma CloseSolvent(w: World, id: nat, e: Ending, step: Step, s: Script, failover: bool)
    requires SolventWorld(w) && Solvent(step.p)
    ensures SolventWorld(Close(w, id, e, step, s, failover).w)
  {
    ChangeSolvent(w, step.p, 0);
    var w1 := w.(pay := step.p);
    SaveSolvent(w1);
    NoteSolvent(w1, Concluded(id, false));
    NoteSolvent(Save(w1), Concluded(id, false));
    NoteSolvent(Save(w1), Concluded(id, true));
  }

  lemma AnswerSolvent(w: World, p: Payment, i: nat, id: nat, s: Script, failover: bool)
    requires SolventWorld(w) && Solvent(p) && Sent(p, i)
    ensures var e := Classify(s.answer, s.valid);
      SolventWorld(Close(w, id, e, Advance(p, i, s.answer, e, failover), s, failover).w)
  {
    var e := Classify(s.answer, s.valid);
    AdvanceSolvent(p, i, s.answer, s.valid, failover);
    CloseSolvent(w, id, e, Advance(p, i, s.answer, e, failover), s, failover);
  }

  lemma SettleSolvent(w: World, gw: GatewayId, i: nat, s: Script, failover: bool)
    requires Sent(w.pay, i) && SolventWorld(w)
    ensures SolventWorld(Settle(w, gw, i, s, failover).w)
  {
    var (success, counted) := Health(Classify(s.answer, s.valid));
    NoteSolvent(w, Recorded(gw, OpAuthorize, success, counted));
    AnswerSolvent(Note(w, Recorded(gw, OpAuthorize, success, counted)), w.pay, i, w.pay.attempts[i].id, s, failover);
  }

  lemma StartedSolvent(p: Payment, id: nat, gw: GatewayId)
    requires Solvent(p) && Started(p, id, gw).Changed?
    ensures Solvent(Started(p, id, gw).p)
  {
  }

  lemma DispatchedSolvent(w: World, i: nat) returns (p: Payment)
    requires SolventWorld(w) && i < |w.pay.attempts|
    requires w.pay.attempts[i].outcome == OutcomePending
    ensures p == Resolve(w.pay, i, Dispatched).p && Solvent(p) && SolventWorld(w.(pay := p))
  {
    p := Resolve(w.pay, i, Dispatched).p;
    MoveSolvent(w.pay, p);
  }

  lemma CallSolvent(w: World, gw: GatewayId, s: Script, failover: bool)
    requires Ready(w.pay) && SolventWorld(w)
    ensures SolventWorld(CallGateway(w, gw, s, failover).w)
  {
    var i := |w.pay.attempts| - 1;
    var p := DispatchedSolvent(w, i);
    var called := Called(gw, OpAuthorize, w.pay.attempts[i].id, s.answer, s.valid);
    CallGatewayIs(w, gw, s, failover, i, p);
    NoteSolvent(w.(pay := p), called);
    SettleSolvent(Note(w.(pay := p), called), gw, i, s, failover);
    NoteSolvent(Settle(Note(w.(pay := p), called), gw, i, s, failover).w, Released(gw));
  }

  lemma TransmitSolvent(w: World, gw: GatewayId, s: Script, failover: bool)
    requires SolventWorld(w)
    ensures SolventWorld(Transmit(w, gw, s, failover).w)
  {
    var c := Started(w.pay, w.nextId, gw);
    TransmitIs(w, gw, s, failover, c);
    if c.Refused? {
      AbandonSolvent(w, gw, OpAuthorize, Refusal(c.code));
    } else {
      StartedSolvent(w.pay, w.nextId, gw);
      SendSolvent(w.(pay := c.p, nextId := w.nextId + 1), gw, s, failover);
    }
  }

  lemma SendSolvent(w: World, gw: GatewayId, s: Script, failover: bool)
    requires SolventWorld(w) && Ready(w.pay)
    ensures SolventWorld(Abandon(w, gw, OpAuthorize, StoreFailed).w)
    ensures SolventWorld(CallGateway(Save(w), gw, s, failover).w)
  {
    AbandonSolvent(w, gw, OpAuthorize, StoreFailed);
    SaveSolvent(w);
    CallSolvent(Save(w), gw, s, failover);
  }

  lemma AbandonSolvent(w: World, gw: GatewayId, op: Operation, f: Fault)
    requires SolventWorld(w)
    ensures SolventWorld(Abandon(w, gw, op, f).w)
  {
  }

  lemma SaveSolvent(w: World)
    requires SolventWorld(w)
    ensures SolventWorld(Save(w))
  {
  }

  lemma IterateSolvent(l: Loop, plan: seq<GatewayId>, s: Script, failover: bool)
    requires SolventWorld(l.w)
    ensures SolventWorld(Iterate(l, plan, s, failover).w)
  {
    var next := Next(plan, l.tried);
    if next.Some? {
      var gw := next.value;
      TransmitSolvent(Note(Note(l.w, Permitted(gw, OpAuthorize)), Acquired(gw)), gw, s, failover);
    }
  }

  lemma DispatchSolvent(w: World, plan: seq<GatewayId>, env: nat -> Script, settings: Settings)
    requires SolventWorld(w)
    ensures SolventWorld(Run(w, plan, env, settings).w)
  {
    var step := Stepping(plan, env, settings.failover);
    forall m: Loop, i | SolventWorld(m.w)
      ensures SolventWorld(step(m, i).w)
    {
      IterateSolvent(m, plan, env(i), settings.failover);
    }
    RepeatKeeps(step, Start(w), Budget(settings), (m: Loop) => SolventWorld(m.w));
  }

  lemma FollowUpSolvent(w: World, op: Operation, amount: Money, s: Script)
    requires SolventWorld(w)
    ensures SolventWorld(FollowUp(w, op, amount, s).w)
  {
    var holder := SuccessfulAttempt(w.pay);
    if holder.Some? {
      FollowSendSolvent(Note(Note(w, Permitted(holder.value.gateway, op)), Acquired(holder.value.gateway)),
                        holder.value.gateway, op, amount, s);
    }
  }

  lemma SaveAttemptSolvent(w: World, a: Attempt)
    requires SolventWorld(w)
    ensures SolventWorld(SaveAttempt(w, a))
  {
    MoveSolvent(w.row, w.row.(attempts := w.row.attempts + [a]));
  }

  lemma FollowStepSolvent(w: World, p: Payment, i: nat, op: Operation, amount: Money, s: Script)
    requires SolventWorld(w) && Solvent(p) && Sent(p, i)
    ensures SolventWorld(FinishStep(w, Book(p, i, op, amount, s.answer, Read(s.answer, s.valid)), s).w)
  {
    BookSolvent(p, i, op, amount, s.answer, s.valid);
    FinishStepSolvent(w, Book(p, i, op, amount, s.answer, Read(s.answer, s.valid)), s);
  }

  lemma FollowCallSolvent(w: World, gw: GatewayId, op: Operation, amount: Money, s: Script)
    requires SolventWorld(w) && Ready(w.pay)
    ensures SolventWorld(FollowCall(w, gw, op, amount, s).w)
  {
    var i := |w.pay.attempts| - 1;
    var r := Read(s.answer, s.valid);
    var p := DispatchedSolvent(w, i);
    var called := Called(gw, op, w.pay.attempts[i].id, s.answer, s.valid);
    var recorded := Recorded(gw, op, r.Believed?, true);
    FollowCallIs(w, gw, op, amount, s, i, r, p);
    NoteSolvent(w.(pay := p), called);
    NoteSolvent(Note(w.(pay := p), called), recorded);
    FollowStepSolvent(Note(Note(w.(pay := p), called), recorded), p, i, op, amount, s);
  }

  lemma FollowSendSolvent(w: World, gw: GatewayId, op: Operation, amount: Money, s: Script)
    requires SolventWorld(w)
    ensures SolventWorld(FollowSend(w, gw, op, amount, s).w)
  {
    var c := StartAttempt(w.pay, w.nextId, gw, op);
    FollowSendIs(w, gw, op, amount, s, c);
    if c.Refused? {
      AbandonSolvent(w, gw, op, Refusal(c.code));
    } else {
      MoveSolvent(w.pay, c.p);
      ChangeSolvent(w, c.p, w.nextId + 1);
      var w1, a := w.(pay := c.p, nextId := w.nextId + 1), c.p.attempts[|c.p.attempts| - 1];
      AbandonSolvent(w1, gw, op, StoreFailed);
      SaveAttemptSolvent(w1, a);
      FollowCallSolvent(SaveAttempt(w1, a), gw, op, amount, s);
      NoteSolvent(FollowCall(SaveAttempt(w1, a), gw, op, amount, s).w, Released(gw));
    }
  }

  lemma RefundSolvent(w: World, amount: Money, s: Script)
    requires SolventWorld(w)
    ensures SolventWorld(RefundExisting(w, amount, s).w)
  {
    var holder, c := SuccessfulAttempt(w.pay), AddRefund(w.pay, w.nextId, amount);
    if holder.Some? && c.Changed? {
      AddRefundSolvent(w.pay, w.nextId, amount);
      RefundExistingIs(w, amount, s, holder.value, c);
      ChangeSolvent(w, c.p, w.nextId + 1);
      SaveSolvent(w.(pay := c.p, nextId := w.nextId + 1));
      RefundCallSolvent(Save(w.(pay := c.p, nextId := w.nextId + 1)), holder.value.gateway, s);
    }
  }

  lemma RefundCallSolvent(w: World, gw: GatewayId, s: Script)
    requires SolventWorld(w) && |w.pay.refunds| > 0
    ensures SolventWorld(RefundCall(w, gw, s).w)
  {
    var i := |w.pay.refunds| - 1;
    var called := Called(gw, OpRefund, w.pay.refunds[i].id, s.answer, s.valid);
    RefundCallIs(w, gw, s, i);
    NoteSolvent(w, called);
    RefundStepSolvent(Note(w, called), w.pay, i, s);
  }

  lemma NoteSolvent(w: World, e: Event)
    requires SolventWorld(w) && !e.Saved?
    ensures SolventWorld(Note(w, e)) && Note(w, e).pay == w.pay
  {
  }

  lemma RefundStepSolvent(w: World, p: Payment, i: nat, s: Script)
    requires SolventWorld(w) && Solvent(p) && i < |p.refunds|
    ensures SolventWorld(FinishStep(w, BookRefund(p, i, s.answer), s).w)
  {
    BookRefundSolvent(p, i, s.answer);
    FinishStepSolvent(w, BookRefund(p, i, s.answer), s);
  }

  lemma {:induction false} SurvivesSolvent(log: Log, lost: nat)
    requires SolventLog(log)
    ensures SolventLog(Survives(log, lost))
  {
    if lost > 0 && log.Past? {
      SurvivesSolvent(log.before, lost - 1);
    }
  }

  lemma {:induction false} StoredSolvent(log: Log, p: Payment)
    requires SolventLog(log) && Solvent(p)
    ensures Solvent(Stored(log, p))
  {
    if log.Past? {
      StoredSolvent(log.before, p);
    }
  }

  /**
   * From a new payment, over every sequence of authorizations, captures, voids, refunds and crashes,
   * whatever amounts the gateways report: what is stored never shows more captured than authorized,
   * nor more refunded or being refunded than captured.
   */
  lemma {:induction false} AlwaysSolvent(p: Payment, acts: seq<Act>)
    requires Solvent(p)
    ensures SolventWorld(History(p, acts))
  {
    if acts != [] {
      var w := History(p, acts[..|acts| - 1]);
      AlwaysSolvent(p, acts[..|acts| - 1]);
      var loaded := w.(pay := w.row);
      match acts[|acts| - 1]
      case Authorize(plan, env, settings) => DispatchSolvent(loaded, plan, env, settings);
      case Capture(amount, s) => FollowUpSolvent(loaded, OpCapture, amount, s);
      case VoidAct(s) => FollowUpSolvent(loaded, OpVoid, w.row.amount, s);
      case Refund(amount, s) => RefundSolvent(loaded, amount, s);
      case Crash(lost) =>
        SurvivesSolvent(w.log, lost);
        StoredSolvent(Survives(w.log, lost), p);
    }
  }
}
