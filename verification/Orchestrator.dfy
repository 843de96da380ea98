/** The orchestrator itself: its steps change the aggregate, the stored row and the log in place. */
module Orchestrator {
  import opened MoneyArithmetic
  import opened PaymentAggregate
  import opened DispatchSpec
  import opened FollowUpSpec
  import opened Options

  predicate IsTimeout(e: Option<CallError>) {
    e.Some? && e.value.timeout
  }

  predicate IsUnknown(e: Option<CallError>) {
    e.Some? && e.value.unknown
  }

  method NextGateway(plan: seq<GatewayId>, tried: seq<GatewayId>) returns (r: Option<GatewayId>)
    ensures r == Next(plan, tried)
  {
    var i := 0;
    while i < |plan|
      invariant 0 <= i <= |plan|
      invariant Next(plan, tried) == Next(plan[i..], tried)
    {
      assert plan[i..][1..] == plan[i + 1..];
      if plan[i] !in tried {
        return Some(plan[i]);
      }
      i := i + 1;
    }
    return None;
  }

  class Orchestrator {
    const settings: Settings
    var pay: Payment
    var row: Payment
    var log: Log
    var nextId: nat

    constructor (settings: Settings, p: Payment, log: Log, nextId: nat)
      ensures this.settings == settings && View() == World(p, p, log, nextId)
    {
      this.settings := settings;
      this.pay, this.row, this.log, this.nextId := p, p, log, nextId;
    }

    ghost function View(): World
      reads this
    {
      World(pay, row, log, nextId)
    }

    method Emit(e: Event)
      modifies this`log
      ensures View() == Note(old(View()), e)
    {
      log := Past(log, e);
    }

    /** One atomic transaction writing attempt, payment and events: all of it or none of it. */
    method Commit(ok: bool) returns (done: bool)
      modifies this`log, this`row
      ensures done == ok
      ensures View() == if ok then Save(old(View())) else old(View())
    {
      if ok {
        row := pay;
        log := Past(log, Saved(pay));
      }
      return ok;
    }

    /** Ends the settlement of a payment that goes no further: commit, then read back the stored row. */
    method Finish(s: Script) returns (t: Tried)
      modifies this`log, this`row
      ensures View() == if s.commit then Save(old(View())) else old(View())
      ensures t == if s.commit && s.reload then Gave(Verdict(true, Some(pay), None)) else Erred(StoreFailed)
    {
      var ok := Commit(s.commit);
      if !ok || !s.reload {
        return Erred(StoreFailed);
      }
      return Gave(Verdict(true, Some(row), None));
    }

    /** Takes an aggregate step, then ends the settlement; a refused step ends it at once. */
    method StepAndFinish(c: Change, s: Script) returns (t: Tried)
      modifies this`pay, this`log, this`row
      ensures var step := Then(c, old(pay));
              var w := old(View()).(pay := step.p);
              && View() == (if step.refused.None? && s.commit then Save(w) else w)
              && t == (if step.refused.Some? then Erred(Refusal(step.refused.value))
                       else if s.commit && s.reload then Gave(Verdict(true, Some(step.p), None))
                       else Erred(StoreFailed))
    {
      match c
      case Refused(code) =>
        return Erred(Refusal(code));
      case Changed(p) =>
        pay := p;
        t := Finish(s);
    }

    method ParkUnknown(gw: GatewayId, i: nat, s: Script) returns (t: Tried)
      requires Sent(pay, i)
      requires Classify(s.answer, s.valid) == Unknown
      modifies this
      ensures Concluding(old(View()), gw, i, s, settings.failover, View(), t)
    {
      Emit(Recorded(gw, OpAuthorize, false, true));
      pay := Resolve(pay, i, TimeoutUnknown).p;
      t := Finish(s);
    }

    /** Settle up to, but not including, the note that it concluded. */
    static ghost predicate Concluding(w: World, gw: GatewayId, i: nat, s: Script, failover: bool, w': World, t: Tried)
      requires Sent(w.pay, i)
    {
      DispatchSpec.Settle(w, gw, i, s, failover)
      == Attempted(Note(w', DispatchSpec.Event.Concluded(w.pay.attempts[i].id, t.Gave?)), t)
    }

    method Classified(gw: GatewayId, i: nat, s: Script) returns (t: Tried)
      requires Sent(pay, i)
      modifies this
      ensures Concluding(old(View()), gw, i, s, settings.failover, View(), t)
    {
      var resp, callErr := s.answer.resp, s.answer.err;
      if IsUnknown(callErr) || (resp.None? && IsTimeout(callErr)) {
        t := ParkUnknown(gw, i, s);
      } else if callErr.Some? {
        Emit(Recorded(gw, OpAuthorize, false, true));
        pay := Resolve(pay, i, Error).p;
        var ok := Commit(s.commit);
        t := if !ok then Erred(StoreFailed)
             else Gave(Verdict(!PermitsFailover(pay.attempts[i]), None, Some(TransportFault)));
      } else if resp.None? {
        t := ParkUnknown(gw, i, s);
      } else if !s.valid {
        t := ParkUnknown(gw, i, s);
      } else {
        t := Outcome(gw, i, s);
      }
    }

    /** The business outcome of a validated response. */
    method Outcome(gw: GatewayId, i: nat, s: Script) returns (t: Tried)
      requires Sent(pay, i)
      requires s.answer.err.None? && s.answer.resp.Some? && s.valid
      modifies this
      ensures Concluding(old(View()), gw, i, s, settings.failover, View(), t)
    {
      match s.answer.resp.value.status
      case StatusAuthorized =>
        t := Won(gw, i, s);
      case StatusCaptured =>
        t := Won(gw, i, s);
      case StatusRequiresAction =>
        Emit(Recorded(gw, OpAuthorize, true, true));
        t := StepAndFinish(MoveTo(pay, RequiresAction), s);
      case StatusPending =>
        Emit(Recorded(gw, OpAuthorize, true, true));
        t := StepAndFinish(MoveTo(pay, Pending), s);
      case StatusDeclined =>
        t := TurnedAway(gw, i, s);
      case _ =>
        t := ParkUnknown(gw, i, s);
    }

    method Won(gw: GatewayId, i: nat, s: Script) returns (t: Tried)
      requires Sent(pay, i) && Classify(s.answer, s.valid) in {Approved, Taken}
      modifies this
      ensures Concluding(old(View()), gw, i, s, settings.failover, View(), t)
    {
      var resp := s.answer.resp.value;
      Emit(Recorded(gw, OpAuthorize, true, true));
      pay := Resolve(pay, i, Success).p;
      if resp.status == StatusAuthorized {
        var amt := if resp.authorizedAmount.Some? then resp.authorizedAmount.value else pay.amount;
        t := StepAndFinish(MarkAuthorized(pay, amt), s);
      } else {
        var amt := if resp.capturedAmount.Some? then resp.capturedAmount.value else pay.amount;
        t := StepAndFinish(MarkCaptured(pay, amt), s);
      }
    }

    method TurnedAway(gw: GatewayId, i: nat, s: Script) returns (t: Tried)
      requires Sent(pay, i) && Classify(s.answer, s.valid).TurnedDown?
      modifies this
      ensures Concluding(old(View()), gw, i, s, settings.failover, View(), t)
    {
      var resp := s.answer.resp.value;
      // A decline says nothing of the gateway's health, so it is not counted.
      Emit(Recorded(gw, OpAuthorize, false, false));
      pay := Decline(pay, i, resp.reason, resp.noRetry).p;
      if PermitsFailover(pay.attempts[i]) && settings.failover {
        var ok := Commit(s.commit);
        t := if ok then Gave(Verdict(false, None, Some(DeclineFault))) else Erred(StoreFailed);
      } else {
        t := StepAndFinish(MarkFailed(pay), s);
      }
    }

    method Settle(gw: GatewayId, i: nat, s: Script) returns (t: Tried)
      requires Sent(pay, i)
      modifies this
      ensures DispatchSpec.Settle(old(View()), gw, i, s, settings.failover) == Attempted(View(), t)
    {
      var id := pay.attempts[i].id;
      t := Classified(gw, i, s);
      Emit(Event.Concluded(id, t.Gave?));
    }

    method Abandon(gw: GatewayId, op: Operation, f: Fault) returns (t: Tried)
      modifies this`log
      ensures DispatchSpec.Abandon(old(View()), gw, op, f) == Attempted(View(), t)
    {
      Emit(Recorded(gw, op, false, false));
      Emit(Released(gw));
      return Erred(f);
    }

    method AttemptOnce(gw: GatewayId, s: Script) returns (t: Tried)
      modifies this
      ensures DispatchSpec.AttemptOnce(old(View()), gw, s, settings.failover) == Attempted(View(), t)
    {
      if !s.allow {
        return Erred(GatewayBusy);
      }
      Emit(Permitted(gw, OpAuthorize));
      if !s.acquire {
        Emit(Recorded(gw, OpAuthorize, false, false));
        return Erred(GatewayBusy);
      }
      Emit(Acquired(gw));
      if !s.resolve {
        t := Abandon(gw, OpAuthorize, GatewayBusy);
      } else {
        t := Transmit(gw, s);
      }
    }

    method Transmit(gw: GatewayId, s: Script) returns (t: Tried)
      modifies this
      ensures DispatchSpec.Transmit(old(View()), gw, s, settings.failover) == Attempted(View(), t)
    {
      var fault := Begin(gw, s.saveFirst);
      if fault.Some? {
        t := Abandon(gw, OpAuthorize, fault.value);
      } else {
        t := CallGateway(gw, s);
      }
    }

    /** The attempt row is created, and committed, before the call. */
    method Begin(gw: GatewayId, save: bool) returns (fault: Option<Fault>)
      modifies this
      ensures var w, c := old(View()), Started(old(pay), old(nextId), gw);
              if c.Refused? then View() == w && fault == Some(Refusal(c.code)) else
              var w1 := w.(pay := c.p, nextId := w.nextId + 1);
              && Ready(pay)
              && View() == (if save then Save(w1) else w1)
              && fault == (if save then None else Some(StoreFailed))
    {
      var started := StartAttempt(pay, nextId, gw, OpAuthorize);
      if started.Refused? {
        return Some(Refusal(started.code));
      }
      pay, nextId := started.p, nextId + 1;
      // A refusal here is the state machine declining a no-op or a parked payment: it is swallowed.
      var processing := MoveTo(pay, Processing);
      if processing.Changed? {
        pay := processing.p;
      }
      var saved := Commit(save);
      return if saved then None else Some(StoreFailed);
    }

    method CallGateway(gw: GatewayId, s: Script) returns (t: Tried)
      requires Ready(pay)
      modifies this
      ensures DispatchSpec.CallGateway(old(View()), gw, s, settings.failover) == Attempted(View(), t)
    {
      var i := |pay.attempts| - 1;
      pay := Resolve(pay, i, Dispatched).p;
      Emit(Called(gw, OpAuthorize, pay.attempts[i].id, s.answer, s.valid));
      t := Settle(gw, i, s);
      Emit(Released(gw));
    }

    /** Runs the authorization, failing over through the plan as the outcomes permit. */
    method Dispatch(plan: seq<GatewayId>, env: nat -> Script, reload: bool) returns (r: Reply)
      modifies this
      ensures var l := Run(old(View()), plan, env, settings);
              View() == l.w && r == Conclude(l, reload)
    {
      var tried, lastErr, stop, answer := TryPlan(plan, env);
      r := Answer(Loop(View(), tried, lastErr, stop, answer), answer, lastErr, reload);
    }

    /** The loop over the plan. */
    method TryPlan(plan: seq<GatewayId>, env: nat -> Script)
      returns (tried: seq<GatewayId>, lastErr: Option<Fault>, stop: bool, answer: Option<Payment>)
      modifies this
      ensures Run(old(View()), plan, env, settings) == Loop(View(), tried, lastErr, stop, answer)
    {
      tried, lastErr, stop, answer := [], None, false, None;
      ghost var w, l := View(), Start(View());
      var i := 0;
      while i < settings.maxAttempts && !stop && answer.None?
        invariant 0 <= i <= Budget(settings)
        invariant Prefix(w, plan, env, settings.failover, i) == l
        invariant l == Loop(View(), tried, lastErr, stop, answer)
      {
        l, tried, lastErr, stop, answer := TryNext(w, l, plan, env, i, tried, lastErr);
        i := i + 1;
      }
      RunEnds(w, plan, env, settings, i, l);
    }

    /** Iteration i of the run begun in world w. */
    method TryNext(ghost w: World, ghost l: Loop, plan: seq<GatewayId>, env: nat -> Script, i: nat,
                   tried: seq<GatewayId>, lastErr: Option<Fault>)
      returns (ghost l': Loop,
               tried': seq<GatewayId>, lastErr': Option<Fault>, stop: bool, answer: Option<Payment>)
      requires Prefix(w, plan, env, settings.failover, i) == l == Loop(View(), tried, lastErr, false, None)
      modifies this
      ensures Prefix(w, plan, env, settings.failover, i + 1) == l' == Loop(View(), tried', lastErr', stop, answer)
    {
      RunGoesOn(w, plan, env, settings.failover, i, l);
      tried', lastErr', stop, answer := Iteration(plan, tried, lastErr, env(i));
      l' := Loop(View(), tried', lastErr', stop, answer);
    }

    /** What follows the loop: the answer it returned, or the reloaded payment if it is in flight, or the last error. */
    method Answer(ghost l: Loop, answer: Option<Payment>, lastErr: Option<Fault>, reload: bool) returns (r: Reply)
      requires l.w == View() && l.answer == answer && l.lastErr == lastErr
      ensures r == Conclude(l, reload)
    {
      if answer.Some? {
        return Reply(answer, None);
      }
      if !reload {
        return Reply(None, Some(StoreFailed));
      }
      if IsInFlight(row.state) {
        return Reply(Some(row), None);
      }
      if lastErr.Some? {
        return Reply(None, lastErr);
      }
      return Reply(Some(row), None);
    }

    /** The body of the loop; `stop` is its break, `answer` its return. */
    method Iteration(plan: seq<GatewayId>, tried: seq<GatewayId>, lastErr: Option<Fault>, s: Script)
      returns (tried': seq<GatewayId>, lastErr': Option<Fault>, stop: bool, answer: Option<Payment>)
      modifies this
      ensures Iterate(Loop(old(View()), tried, lastErr, false, None), plan, s, settings.failover)
              == Loop(View(), tried', lastErr', stop, answer)
    {
      tried', lastErr', stop, answer := tried, lastErr, false, None;
      var sel := NextGateway(plan, tried);
      if sel.None? {
        stop := true;
        return;
      }
      tried' := tried + [sel.value];
      var t := AttemptOnce(sel.value, s);
      match t
      case Erred(f) =>
        // A failure before the call leaves the gateway untouched, so the next one may be tried.
        lastErr', stop := Some(f), !settings.failover;
      case Gave(v) =>
        if v.terminal {
          answer := v.result;
        } else if !settings.failover {
          stop := true;
        } else {
          lastErr' := v.err;
        }
    }

    // ----- capture, void and refund -----

    method FollowUp(op: Operation, amount: Money, s: Script) returns (t: Tried)
      requires op == OpCapture || op == OpVoid
      modifies this
      ensures FollowUpSpec.FollowUp(old(View()), op, amount, s) == Attempted(View(), t)
    {
      var holder := SuccessfulAttempt(pay);
      if holder.None? {
        return Erred(Refusal(InvalidTransition));
      }
      var gw := holder.value.gateway;
      if !s.allow {
        return Erred(GatewayBusy);
      }
      Emit(Permitted(gw, op));
      if !s.acquire {
        Emit(Recorded(gw, op, false, false));
        return Erred(GatewayBusy);
      }
      Emit(Acquired(gw));
      if !s.resolve {
        t := Abandon(gw, op, GatewayBusy);
        return;
      }
      t := FollowSend(gw, op, amount, s);
    }

    /** The attempt is recorded, and its row committed, before the call. */
    method FollowSend(gw: GatewayId, op: Operation, amount: Money, s: Script) returns (t: Tried)
      requires op == OpCapture || op == OpVoid
      modifies this
      ensures FollowUpSpec.FollowSend(old(View()), gw, op, amount, s) == Attempted(View(), t)
    {
      var started := StartAttempt(pay, nextId, gw, op);
      FollowSendIs(View(), gw, op, amount, s, started);
      if started.Refused? {
        t := Abandon(gw, op, Refusal(started.code));
        return;
      }
      pay, nextId := started.p, nextId + 1;
      if !s.saveFirst {
        t := Abandon(gw, op, StoreFailed);
        return;
      }
      var i := |pay.attempts| - 1;
      row := row.(attempts := row.attempts + [pay.attempts[i]]);
      Emit(Saved(row));
      t := FollowCall(gw, op, amount, i, s);
      Emit(Released(gw));
    }

    method FollowCall(gw: GatewayId, op: Operation, amount: Money, i: nat, s: Script) returns (t: Tried)
      requires op == OpCapture || op == OpVoid
      requires i == |pay.attempts| - 1 && Ready(pay)
      modifies this
      ensures FollowUpSpec.FollowCall(old(View()), gw, op, amount, s) == Attempted(View(), t)
    {
      pay := Resolve(pay, i, Dispatched).p;
      Emit(Called(gw, op, pay.attempts[i].id, s.answer, s.valid));
      t := BookAnswer(gw, op, amount, i, s);
    }

    /** Records the answer with the breaker and the attempt, applies it if it is believed, and commits. */
    method BookAnswer(gw: GatewayId, op: Operation, amount: Money, i: nat, s: Script) returns (t: Tried)
      requires Sent(pay, i) && (op == OpCapture || op == OpVoid)
      modifies this
      ensures var r := Read(s.answer, s.valid);
              FinishStep(Note(old(View()), Recorded(gw, op, r.Believed?, true)),
                         Book(old(pay), i, op, amount, s.answer, r), s) == Attempted(View(), t)
    {
      var resp, callErr := s.answer.resp, s.answer.err;
      if IsUnknown(callErr) || IsTimeout(callErr) || (resp.None? && callErr.None?) {
        Emit(Recorded(gw, op, false, true));
        pay := Resolve(pay, i, TimeoutUnknown).p;
      } else if callErr.Some? {
        Emit(Recorded(gw, op, false, true));
        pay := Resolve(pay, i, Error).p;
      } else if !s.valid {
        Emit(Recorded(gw, op, false, true));
        pay := Resolve(pay, i, TimeoutUnknown).p;
      } else {
        Emit(Recorded(gw, op, true, true));
        pay := Resolve(pay, i, Success).p;
        t := StepAndFinish(
          if op == OpVoid then Void(pay)
          else MarkCaptured(pay, if resp.value.capturedAmount.Some? then resp.value.capturedAmount.value else amount),
          s);
        return;
      }
      t := Finish(s);
    }

    method RefundExisting(amount: Money, s: Script) returns (t: Tried)
      modifies this
      ensures FollowUpSpec.RefundExisting(old(View()), amount, s) == Attempted(View(), t)
    {
      var holder := SuccessfulAttempt(pay);
      if holder.None? {
        return Erred(Refusal(InvalidTransition));
      }
      var gw := holder.value.gateway;
      // The refund is created, and committed, before the call.
      var added := AddRefund(pay, nextId, amount);
      if added.Refused? {
        return Erred(Refusal(added.code));
      }
      pay, nextId := added.p, nextId + 1;
      var saved := Commit(s.saveFirst);
      if !saved {
        return Erred(StoreFailed);
      }
      if !s.resolve {
        return Erred(GatewayBusy);
      }
      t := RefundCall(gw, s);
    }

    method RefundCall(gw: GatewayId, s: Script) returns (t: Tried)
      requires |pay.refunds| > 0
      modifies this
      ensures FollowUpSpec.RefundCall(old(View()), gw, s) == Attempted(View(), t)
    {
      var i := |pay.refunds| - 1;
      Emit(Called(gw, OpRefund, pay.refunds[i].id, s.answer, s.valid));
      var resp, callErr := s.answer.resp, s.answer.err;
      if IsUnknown(callErr) || IsTimeout(callErr) {
        t := Finish(s);
      } else if callErr.Some? {
        t := StepAndFinish(AdvanceRefund(pay, i, RefundFailed), s);
      } else if resp.None? {
        t := Finish(s);
      } else if resp.value.status == StatusRefundAccepted || resp.value.status == StatusPending {
        t := StepAndFinish(AdvanceRefund(pay, i, RefundSubmitted), s);
      } else if resp.value.status == StatusRefunded {
        var submitted := AdvanceRefund(pay, i, RefundSubmitted);
        if submitted.Refused? {
          return Erred(Refusal(submitted.code));
        }
        pay := submitted.p;
        t := StepAndFinish(ConfirmRefund(pay, i), s);
      } else {
        t := StepAndFinish(AdvanceRefund(pay, i, RefundFailed), s);
      }
    }
  }
}
