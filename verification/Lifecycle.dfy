/** Which states a payment can get to from which, and that what is stored never leaves that order, in any run. */
module Lifecycle {
  import opened MoneyArithmetic
  import opened PaymentAggregate
  import opened DispatchSpec
  import opened FollowUpSpec
  import opened ProtocolTheorems

  // ----- walks through the state machine -----

  /** The payment passes through these states, one permitted transition at a time. */
  predicate IsWalk(path: seq<State>) {
    |path| > 0 && forall i :: 0 <= i < |path| - 1 ==> CanMove(path[i], path[i + 1])
  }

  predicate Leads(path: seq<State>, a: State, b: State) {
    IsWalk(path) && path[0] == a && path[|path| - 1] == b
  }

  ghost predicate LeadsTo(a: State, b: State) {
    exists path :: Leads(path, a, b)
  }

  /** How far a payment has got: open, awaiting, held, taken, or over. */
  function Stage(s: State): nat {
    match s
    case Created => 0
    case RequiresAction => 1
    case Processing => 1
    case Pending => 2
    case Authorized => 3
    case Captured => 4
    case Settled => 4
    case PartiallyRefunded => 4
    case Refunded => 4
    case Disputed => 4
    case _ => 5
  }

  /**
   * b is no earlier than a: they are the same, or among the states of a payer at work, or among those of money taken;
   * or b is at a later stage, which it cannot be once money is taken. Only before a gateway accepts can b be CANCELED.
   */
  predicate Follows(a: State, b: State) {
    || a == b
    || (Stage(a) == Stage(b) && Stage(a) in {1, 4})
    || (Stage(a) < Stage(b) && Stage(a) != 4 && (b == Canceled ==> Stage(a) <= 1))
  }

  lemma FollowsOn(a: State, b: State, c: State)
    requires Follows(a, b) && Follows(b, c)
    ensures Follows(a, c)
  {
  }

  lemma MoveFollows(a: State, b: State)
    requires CanMove(a, b)
    ensures Follows(a, b)
  {
  }

  lemma {:induction false} WalkFollows(path: seq<State>)
    requires IsWalk(path)
    ensures Follows(path[0], path[|path| - 1])
  {
    var n := |path| - 1;
    if n > 0 {
      WalkFollows(path[..n]);
      MoveFollows(path[n - 1], path[n]);
      FollowsOn(path[0], path[n - 1], path[n]);
    }
  }

  lemma StandsStill(a: State)
    ensures LeadsTo(a, a)
  {
    assert Leads([a], a, a);
  }

  lemma Moves(a: State, b: State)
    requires CanMove(a, b)
    ensures LeadsTo(a, b)
  {
    assert Leads([a, b], a, b);
  }

  lemma LeadsOn(a: State, b: State, c: State)
    requires LeadsTo(a, b) && LeadsTo(b, c)
    ensures LeadsTo(a, c)
  {
    var x :| Leads(x, a, b);
    var y :| Leads(y, b, c);
    var path := x + y[1..];
    assert forall i :: |x| - 1 <= i < |path| ==> path[i] == y[i - |x| + 1];
    assert Leads(path, a, c);
  }

  lemma MovesOn(a: State, b: State, c: State)
    requires CanMove(a, b) && LeadsTo(b, c)
    ensures LeadsTo(a, c)
  {
    Moves(a, b);
    LeadsOn(a, b, c);
  }

  /** Between any two states of money taken there is a way, by a dispute if need be. */
  lemma TakenLeads(a: State, b: State)
    requires Stage(a) == 4 && Stage(b) == 4
    ensures LeadsTo(a, b)
  {
    if b == Captured || b == Settled || b == Refunded {
      Moves(Disputed, b);
    } else if b == Disputed {
      StandsStill(Disputed);
    } else {
      Moves(Captured, PartiallyRefunded);
      MovesOn(Disputed, Captured, PartiallyRefunded);
    }
    if a != Disputed {
      MovesOn(a, Disputed, b);
    }
  }

  lemma HeldLeads(b: State)
    requires Follows(Authorized, b)
    ensures LeadsTo(Authorized, b)
  {
    if b == Authorized {
      StandsStill(b);
    } else if Stage(b) == 4 {
      TakenLeads(Captured, b);
      MovesOn(Authorized, Captured, b);
    } else {
      Moves(Authorized, b);
    }
  }

  lemma AwaitingLeads(b: State)
    requires Follows(Pending, b)
    ensures LeadsTo(Pending, b)
  {
    if b == Pending {
      StandsStill(b);
    } else {
      HeldLeads(b);
      MovesOn(Pending, Authorized, b);
    }
  }

  lemma AtWorkLeads(b: State)
    requires b != Created
    ensures LeadsTo(Processing, b)
  {
    if b == Processing {
      StandsStill(b);
    } else if b == RequiresAction {
      Moves(Processing, b);
    } else if b == Canceled {
      Moves(RequiresAction, b);
      MovesOn(Processing, RequiresAction, b);
    } else {
      AwaitingLeads(b);
      MovesOn(Processing, Pending, b);
    }
  }

  /** A payment can get from a to b exactly if b follows a. */
  lemma LeadsToIff(a: State, b: State)
    ensures LeadsTo(a, b) <==> Follows(a, b)
  {
    if LeadsTo(a, b) {
      var path :| Leads(path, a, b);
      WalkFollows(path);
    }
    if Follows(a, b) {
      if a == b {
        StandsStill(a);
      } else if Stage(a) == 4 {
        TakenLeads(a, b);
      } else if a == Authorized {
        HeldLeads(b);
      } else if a == Pending {
        AwaitingLeads(b);
      } else {
        AtWorkLeads(b);
        if a != Processing {
          MovesOn(a, Processing, b);
        }
      }
    }
  }

  /** The states declared terminal are exactly those a payment cannot leave, and none of them follows a capture. */
  lemma TerminalIff(a: State)
    ensures IsTerminal(a) <==> forall b :: LeadsTo(a, b) ==> b == a
    ensures Stage(a) == 4 ==> forall b :: LeadsTo(a, b) ==> !IsTerminal(b)
  {
    forall b
      ensures LeadsTo(a, b) <==> Follows(a, b)
    {
      LeadsToIff(a, b);
    }
    if !IsTerminal(a) {
      assert Follows(a, if Stage(a) != 4 then Failed else if a == Disputed then Captured else Disputed);
    }
  }

  // ----- what is stored, over every run and crash -----

  /** s follows the state the payment came with and every state saved since. */
  predicate FollowsAll(log: Log, p: Payment, s: State) {
    match log
    case Quiet => Follows(p.state, s)
    case Past(before, e) => FollowsAll(before, p, s) && (e.Saved? ==> Follows(e.p.state, s))
  }

  /** Every state saved follows all those saved before it. */
  predicate Orderly(log: Log, p: Payment) {
    match log
    case Quiet => true
    case Past(before, e) => Orderly(before, p) && (e.Saved? ==> FollowsAll(before, p, e.p.state))
  }

  /** The saves are in order, the row is the last of them, and the payment in memory is no earlier. */
  predicate Tidy(w: World, p: Payment) {
    Orderly(w.log, p) && FollowsAll(w.log, p, w.row.state) && w.row == Stored(w.log, p)
    && Follows(w.row.state, w.pay.state)
  }

  lemma {:induction false} FollowsAllOn(log: Log, p: Payment, s: State, t: State)
    requires FollowsAll(log, p, s) && Follows(s, t)
    ensures FollowsAll(log, p, t)
  {
    match log
    case Quiet => FollowsOn(p.state, s, t);
    case Past(before, e) =>
      FollowsAllOn(before, p, s, t);
      if e.Saved? {
        FollowsOn(e.p.state, s, t);
      }
  }

  lemma NoteTidy(w: World, e: Event, p: Payment)
    requires Tidy(w, p) && !e.Saved?
    ensures Tidy(Note(w, e), p)
  {
  }

  lemma ChangeTidy(w: World, q: Payment, id: nat, p: Payment)
    requires Tidy(w, p) && Follows(w.pay.state, q.state)
    ensures Tidy(w.(pay := q), p) && Tidy(w.(pay := q, nextId := id), p)
  {
    FollowsOn(w.row.state, w.pay.state, q.state);
  }

  lemma SaveTidy(w: World, p: Payment)
    requires Tidy(w, p)
    ensures Tidy(Save(w), p)
  {
    FollowsAllOn(w.log, p, w.row.state, w.pay.state);
  }

  lemma SaveAttemptTidy(w: World, a: Attempt, p: Payment)
    requires Tidy(w, p)
    ensures Tidy(SaveAttempt(w, a), p)
  {
  }

  lemma AbandonTidy(w: World, gw: GatewayId, op: Operation, f: Fault, p: Payment)
    requires Tidy(w, p)
    ensures Tidy(Abandon(w, gw, op, f).w, p)
  {
    NoteTidy(w, Recorded(gw, op, false, false), p);
  }

  // ----- one authorization attempt -----

  lemma AdvanceFollows(q: Payment, i: nat, a: Answer, valid: bool, failover: bool)
    requires Sent(q, i)
    ensures Follows(q.state, Advance(q, i, a, Classify(a, valid), failover).p.state)
  {
  }

  lemma CloseTidy(w: World, id: nat, e: Ending, step: Step, s: Script, failover: bool, p: Payment)
    requires Tidy(w, p) && Follows(w.pay.state, step.p.state)
    ensures Tidy(Close(w, id, e, step, s, failover).w, p)
  {
    ChangeTidy(w, step.p, 0, p);
    var w1 := w.(pay := step.p);
    SaveTidy(w1, p);
    NoteTidy(w1, Concluded(id, false), p);
    NoteTidy(Save(w1), Concluded(id, false), p);
    NoteTidy(Save(w1), Concluded(id, true), p);
  }

  lemma SettleTidy(w: World, gw: GatewayId, i: nat, s: Script, failover: bool, p: Payment)
    requires Sent(w.pay, i) && Tidy(w, p)
    ensures Tidy(Settle(w, gw, i, s, failover).w, p)
  {
    var e := Classify(s.answer, s.valid);
    var (success, counted) := Health(e);
    var w1 := Note(w, Recorded(gw, OpAuthorize, success, counted));
    NoteTidy(w, Recorded(gw, OpAuthorize, success, counted), p);
    AdvanceFollows(w.pay, i, s.answer, s.valid, failover);
    CloseTidy(w1, w.pay.attempts[i].id, e, Advance(w.pay, i, s.answer, e, failover), s, failover, p);
  }

  lemma CallTidy(w: World, gw: GatewayId, s: Script, failover: bool, p: Payment)
    requires Ready(w.pay) && Tidy(w, p)
    ensures Tidy(CallGateway(w, gw, s, failover).w, p)
  {
    var i := |w.pay.attempts| - 1;
    var q := Resolve(w.pay, i, Dispatched).p;
    var called := Called(gw, OpAuthorize, w.pay.attempts[i].id, s.answer, s.valid);
    CallGatewayIs(w, gw, s, failover, i, q);
    ChangeTidy(w, q, 0, p);
    NoteTidy(w.(pay := q), called, p);
    SettleTidy(Note(w.(pay := q), called), gw, i, s, failover, p);
    NoteTidy(Settle(Note(w.(pay := q), called), gw, i, s, failover).w, Released(gw), p);
  }

  lemma StartedFollows(q: Payment, id: nat, gw: GatewayId)
    requires Started(q, id, gw).Changed?
    ensures Follows(q.state, Started(q, id, gw).p.state)
  {
  }

  lemma TransmitTidy(w: World, gw: GatewayId, s: Script, failover: bool, p: Payment)
    requires Tidy(w, p)
    ensures Tidy(Transmit(w, gw, s, failover).w, p)
  {
    var c := Started(w.pay, w.nextId, gw);
    TransmitIs(w, gw, s, failover, c);
    if c.Refused? {
      AbandonTidy(w, gw, OpAuthorize, Refusal(c.code), p);
    } else {
      StartedFollows(w.pay, w.nextId, gw);
      ChangeTidy(w, c.p, w.nextId + 1, p);
      var w1 := w.(pay := c.p, nextId := w.nextId + 1);
      AbandonTidy(w1, gw, OpAuthorize, StoreFailed, p);
      SaveTidy(w1, p);
      CallTidy(Save(w1), gw, s, failover, p);
    }
  }

  lemma IterateTidy(l: Loop, plan: seq<GatewayId>, s: Script, failover: bool, p: Payment)
    requires Tidy(l.w, p)
    ensures Tidy(Iterate(l, plan, s, failover).w, p)
  {
    var next := Next(plan, l.tried);
    if next.Some? {
      var gw := next.value;
      NoteTidy(l.w, Permitted(gw, OpAuthorize), p);
      NoteTidy(Note(l.w, Permitted(gw, OpAuthorize)), Acquired(gw), p);
      TransmitTidy(Note(Note(l.w, Permitted(gw, OpAuthorize)), Acquired(gw)), gw, s, failover, p);
    }
  }

  lemma DispatchTidy(w: World, plan: seq<GatewayId>, env: nat -> Script, settings: Settings, p: Payment)
    requires Tidy(w, p)
    ensures Tidy(Run(w, plan, env, settings).w, p)
  {
    var step := Stepping(plan, env, settings.failover);
    forall m: Loop, i | Tidy(m.w, p)
      ensures Tidy(step(m, i).w, p)
    {
      IterateTidy(m, plan, env(i), settings.failover, p);
    }
    RepeatKeeps(step, Start(w), Budget(settings), (m: Loop) => Tidy(m.w, p));
  }

  // ----- captures, voids and refunds -----

  lemma FinishStepTidy(w: World, step: Step, s: Script, p: Payment)
    requires Tidy(w, p) && Follows(w.pay.state, step.p.state)
    ensures Tidy(FinishStep(w, step, s).w, p)
  {
    ChangeTidy(w, step.p, 0, p);
    SaveTidy(w.(pay := step.p), p);
  }

  lemma BookFollows(q: Payment, i: nat, op: Operation, amount: Money, a: Answer, valid: bool)
    requires Sent(q, i)
    ensures Follows(q.state, Book(q, i, op, amount, a, Read(a, valid)).p.state)
  {
  }

  lemma FollowCallTidy(w: World, gw: GatewayId, op: Operation, amount: Money, s: Script, p: Payment)
    requires Tidy(w, p) && Ready(w.pay)
    ensures Tidy(FollowCall(w, gw, op, amount, s).w, p)
  {
    var i := |w.pay.attempts| - 1;
    var r := Read(s.answer, s.valid);
    var q := Resolve(w.pay, i, Dispatched).p;
    var called := Called(gw, op, w.pay.attempts[i].id, s.answer, s.valid);
    var recorded := Recorded(gw, op, r.Believed?, true);
    FollowCallIs(w, gw, op, amount, s, i, r, q);
    ChangeTidy(w, q, 0, p);
    NoteTidy(w.(pay := q), called, p);
    NoteTidy(Note(w.(pay := q), called), recorded, p);
    BookFollows(q, i, op, amount, s.answer, s.valid);
    FinishStepTidy(Note(Note(w.(pay := q), called), recorded), Book(q, i, op, amount, s.answer, r), s, p);
  }

  lemma FollowSendTidy(w: World, gw: GatewayId, op: Operation, amount: Money, s: Script, p: Payment)
    requires Tidy(w, p)
    ensures Tidy(FollowSend(w, gw, op, amount, s).w, p)
  {
    var c := StartAttempt(w.pay, w.nextId, gw, op);
    FollowSendIs(w, gw, op, amount, s, c);
    if c.Refused? {
      AbandonTidy(w, gw, op, Refusal(c.code), p);
    } else {
      ChangeTidy(w, c.p, w.nextId + 1, p);
      var w1, a := w.(pay := c.p, nextId := w.nextId + 1), c.p.attempts[|c.p.attempts| - 1];
      AbandonTidy(w1, gw, op, StoreFailed, p);
      SaveAttemptTidy(w1, a, p);
      FollowCallTidy(SaveAttempt(w1, a), gw, op, amount, s, p);
      NoteTidy(FollowCall(SaveAttempt(w1, a), gw, op, amount, s).w, Released(gw), p);
    }
  }

  lemma FollowUpTidy(w: World, op: Operation, amount: Money, s: Script, p: Payment)
    requires Tidy(w, p)
    ensures Tidy(FollowUp(w, op, amount, s).w, p)
  {
    var holder := SuccessfulAttempt(w.pay);
    if holder.Some? {
      var gw := holder.value.gateway;
      NoteTidy(w, Permitted(gw, op), p);
      NoteTidy(Note(w, Permitted(gw, op)), Acquired(gw), p);
      FollowSendTidy(Note(Note(w, Permitted(gw, op)), Acquired(gw)), gw, op, amount, s, p);
    }
  }

  lemma BookRefundFollows(q: Payment, i: nat, a: Answer)
    requires i < |q.refunds|
    ensures Follows(q.state, BookRefund(q, i, a).p.state)
  {
  }

  lemma RefundCallTidy(w: World, gw: GatewayId, s: Script, p: Payment)
    requires Tidy(w, p) && |w.pay.refunds| > 0
    ensures Tidy(RefundCall(w, gw, s).w, p)
  {
    var i := |w.pay.refunds| - 1;
    var called := Called(gw, OpRefund, w.pay.refunds[i].id, s.answer, s.valid);
    RefundCallIs(w, gw, s, i);
    NoteTidy(w, called, p);
    BookRefundFollows(w.pay, i, s.answer);
    FinishStepTidy(Note(w, called), BookRefund(w.pay, i, s.answer), s, p);
  }

  lemma RefundTidy(w: World, amount: Money, s: Script, p: Payment)
    requires Tidy(w, p)
    ensures Tidy(RefundExisting(w, amount, s).w, p)
  {
    var holder, c := SuccessfulAttempt(w.pay), AddRefund(w.pay, w.nextId, amount);
    if holder.Some? && c.Changed? {
      RefundExistingIs(w, amount, s, holder.value, c);
      ChangeTidy(w, c.p, w.nextId + 1, p);
      var w1 := w.(pay := c.p, nextId := w.nextId + 1);
      SaveTidy(w1, p);
      RefundCallTidy(Save(w1), holder.value.gateway, s, p);
    }
  }

  // ----- every run -----

  lemma {:induction false} SurvivesOrderly(log: Log, lost: nat, p: Payment)
    requires Orderly(log, p)
    ensures Orderly(Survives(log, lost), p)
  {
    if lost > 0 && log.Past? {
      SurvivesOrderly(log.before, lost - 1, p);
    }
  }

  lemma {:induction false} StoredFollows(log: Log, p: Payment)
    requires Orderly(log, p)
    ensures FollowsAll(log, p, Stored(log, p).state)
  {
    if log.Past? {
      StoredFollows(log.before, p);
    }
  }

  /**
   * Over every sequence of authorizations, captures, voids, refunds and crashes, against every environment, each state
   * saved follows all those saved before it and not lost in a crash. So a payment stored as terminal keeps that state,
   * and one stored as captured is never stored as failed, voided, canceled or expired.
   */
  lemma {:induction false} StatesStayInOrder(p: Payment, acts: seq<Act>)
    ensures Tidy(History(p, acts), p)
  {
    if acts != [] {
      var w := History(p, acts[..|acts| - 1]);
      StatesStayInOrder(p, acts[..|acts| - 1]);
      var loaded := w.(pay := w.row);
      match acts[|acts| - 1]
      case Authorize(plan, env, settings) => DispatchTidy(loaded, plan, env, settings, p);
      case Capture(amount, s) => FollowUpTidy(loaded, OpCapture, amount, s, p);
      case VoidAct(s) => FollowUpTidy(loaded, OpVoid, w.row.amount, s, p);
      case Refund(amount, s) => RefundTidy(loaded, amount, s, p);
      case Crash(lost) =>
        SurvivesOrderly(w.log, lost, p);
        StoredFollows(Survives(w.log, lost), p);
    }
  }
}
