/** No charge is unknown to the store: the row of every call made is still there, after any run and any crash. */
module StoreTheorems {
  import opened MoneyArithmetic
  import opened PaymentAggregate
  import opened DispatchSpec
  import opened FollowUpSpec
  import opened ProtocolTheorems

  // ----- the aggregate never drops a row -----

  /** q has every attempt and refund of p, under the same identifier and at the same place. */
  ghost predicate KeepsRows(p: Payment, q: Payment) {
    && |p.attempts| <= |q.attempts| && |p.refunds| <= |q.refunds|
    && (forall i :: 0 <= i < |p.attempts| ==> p.attempts[i].id == q.attempts[i].id)
    && (forall i :: 0 <= i < |p.refunds| ==> p.refunds[i].id == q.refunds[i].id)
  }

  /** Every row of a is a row of b. */
  ghost predicate Covers(a: Payment, b: Payment) {
    forall op, id :: HasRow(a, op, id) ==> HasRow(b, op, id)
  }

  lemma KeptIsCovered(a: Payment, p: Payment, q: Payment)
    requires Covers(a, p) && KeepsRows(p, q)
    ensures Covers(a, q)
  {
    forall op, id | HasRow(a, op, id) ensures HasRow(q, op, id) {
      assert HasRow(p, op, id);
      if op == OpRefund {
        var i :| 0 <= i < |p.refunds| && p.refunds[i].id == id;
        assert q.refunds[i].id == id;
      } else {
        var i :| 0 <= i < |p.attempts| && p.attempts[i].id == id;
        assert q.attempts[i].id == id;
      }
    }
  }

  lemma AdvanceKeepsRows(p: Payment, i: nat, a: Answer, valid: bool, failover: bool)
    requires Sent(p, i)
    ensures KeepsRows(p, Advance(p, i, a, Classify(a, valid), failover).p)
  {
  }

  lemma BookKeepsRows(p: Payment, i: nat, op: Operation, amount: Money, a: Answer, valid: bool)
    requires Sent(p, i)
    ensures KeepsRows(p, Book(p, i, op, amount, a, Read(a, valid)).p)
  {
  }

  lemma BookRefundKeepsRows(p: Payment, i: nat, a: Answer)
    requires i < |p.refunds|
    ensures KeepsRows(p, BookRefund(p, i, a).p)
  {
  }

  // ----- the store never drops a row -----

  /** Each call names a row the store holds, and each write keeps every row the store holds. */
  ghost predicate Kept(log: Log, p: Payment) {
    match log
    case Quiet => true
    case Past(before, e) =>
      && Kept(before, p)
      && (e.Called? ==> HasRow(Stored(before, p), e.op, e.row))
      && (e.Saved? ==> Covers(Stored(before, p), e.p))
  }

  predicate CalledIn(log: Log, op: Operation, id: nat) {
    match log
    case Quiet => false
    case Past(before, e) => (e.Called? && e.op == op && e.row == id) || CalledIn(before, op, id)
  }

  lemma {:induction false} KeptHoldsCalls(log: Log, p: Payment, op: Operation, id: nat)
    requires Kept(log, p) && CalledIn(log, op, id)
    ensures HasRow(Stored(log, p), op, id)
  {
    var e := log.last;
    if !(e.Called? && e.op == op && e.row == id) {
      KeptHoldsCalls(log.before, p, op, id);
    }
  }

  /** The log is kept, the row is what it says is stored, and memory lacks no stored row. */
  ghost predicate InStep(w: World, p: Payment) {
    Kept(w.log, p) && w.row == Stored(w.log, p) && Covers(w.row, w.pay)
  }

  lemma NoteInStep(w: World, p: Payment, e: Event)
    requires InStep(w, p) && !e.Saved? && (e.Called? ==> HasRow(w.row, e.op, e.row))
    ensures InStep(Note(w, e), p)
  {
  }

  lemma SaveInStep(w: World, p: Payment)
    requires InStep(w, p)
    ensures InStep(Save(w), p)
  {
  }

  lemma ChangeInStep(w: World, p: Payment, q: Payment)
    requires InStep(w, p) && KeepsRows(w.pay, q)
    ensures InStep(w.(pay := q), p)
  {
    KeptIsCovered(w.row, w.pay, q);
  }

  lemma SaveAttemptInStep(w: World, p: Payment, a: Attempt)
    requires InStep(w, p) && a in w.pay.attempts
    ensures InStep(SaveAttempt(w, a), p) && HasRow(SaveAttempt(w, a).row, OpCapture, a.id)
  {
    var row := w.row.(attempts := w.row.attempts + [a]);
    assert KeepsRows(w.row, row);
    KeptIsCovered(w.row, w.row, row);
    assert row.attempts[|w.row.attempts|] == a;
    forall op, id | HasRow(row, op, id) ensures HasRow(w.pay, op, id) {
      if op != OpRefund && id != a.id {
        var i :| 0 <= i < |row.attempts| && row.attempts[i].id == id;
        assert w.row.attempts[i].id == id;
        assert HasRow(w.row, op, id);
      } else if op == OpRefund {
        assert HasRow(w.row, op, id);
      } else {
        var i :| 0 <= i < |w.pay.attempts| && w.pay.attempts[i] == a;
        assert w.pay.attempts[i].id == id;
      }
    }
  }

  lemma AbandonInStep(w: World, p: Payment, gw: GatewayId, op: Operation, f: Fault)
    requires InStep(w, p)
    ensures InStep(Abandon(w, gw, op, f).w, p)
  {
    NoteInStep(w, p, Recorded(gw, op, false, false));
    NoteInStep(Note(w, Recorded(gw, op, false, false)), p, Released(gw));
  }

  // ----- authorization -----

  lemma CloseInStep(w: World, p: Payment, id: nat, e: Ending, step: Step, s: Script, failover: bool)
    requires InStep(w, p) && KeepsRows(w.pay, step.p)
    ensures InStep(Close(w, id, e, step, s, failover).w, p)
  {
    var w1 := w.(pay := step.p);
    ChangeInStep(w, p, step.p);
    SaveInStep(w1, p);
    NoteInStep(w1, p, Concluded(id, false));
    NoteInStep(Save(w1), p, Concluded(id, true));
    NoteInStep(Save(w1), p, Concluded(id, false));
  }

  lemma SettleInStep(w: World, p: Payment, gw: GatewayId, i: nat, s: Script, failover: bool)
    requires InStep(w, p) && Sent(w.pay, i)
    ensures InStep(Settle(w, gw, i, s, failover).w, p)
  {
    var e := Classify(s.answer, s.valid);
    var (success, counted) := Health(e);
    var recorded := Recorded(gw, OpAuthorize, success, counted);
    AdvanceKeepsRows(w.pay, i, s.answer, s.valid, failover);
    NoteInStep(w, p, recorded);
    CloseInStep(Note(w, recorded), p, w.pay.attempts[i].id, e, Advance(w.pay, i, s.answer, e, failover), s, failover);
  }

  lemma CallInStep(w: World, p: Payment, gw: GatewayId, s: Script, failover: bool)
    requires InStep(w, p) && Ready(w.pay) && HasRow(w.row, OpAuthorize, w.pay.attempts[|w.pay.attempts| - 1].id)
    ensures InStep(CallGateway(w, gw, s, failover).w, p)
  {
    var i := |w.pay.attempts| - 1;
    var sent := Resolve(w.pay, i, Dispatched).p;
    var called := Called(gw, OpAuthorize, w.pay.attempts[i].id, s.answer, s.valid);
    CallGatewayIs(w, gw, s, failover, i, sent);
    ChangeInStep(w, p, sent);
    NoteInStep(w.(pay := sent), p, called);
    var w1 := Note(w.(pay := sent), called);
    SettleInStep(w1, p, gw, i, s, failover);
    NoteInStep(Settle(w1, gw, i, s, failover).w, p, Released(gw));
  }

  lemma StartedKeepsRows(p: Payment, id: nat, gw: GatewayId)
    requires Started(p, id, gw).Changed?
    ensures var q := Started(p, id, gw).p;
      KeepsRows(p, q) && Ready(q) && q.attempts[|q.attempts| - 1].id == id && HasRow(q, OpAuthorize, id)
  {
    var q := Started(p, id, gw).p;
    assert q.attempts[|q.attempts| - 1].id == id;
  }

  lemma TransmitInStep(w: World, p: Payment, gw: GatewayId, s: Script, failover: bool)
    requires InStep(w, p)
    ensures InStep(Transmit(w, gw, s, failover).w, p)
  {
    var c := Started(w.pay, w.nextId, gw);
    TransmitIs(w, gw, s, failover, c);
    if c.Refused? {
      AbandonInStep(w, p, gw, OpAuthorize, Refusal(c.code));
    } else {
      StartedKeepsRows(w.pay, w.nextId, gw);
      ChangeInStep(w, p, c.p);
      var w1 := w.(pay := c.p, nextId := w.nextId + 1);
      assert InStep(w1, p);
      AbandonInStep(w1, p, gw, OpAuthorize, StoreFailed);
      SaveInStep(w1, p);
      CallInStep(Save(w1), p, gw, s, failover);
    }
  }

  lemma IterateInStep(l: Loop, p: Payment, plan: seq<GatewayId>, s: Script, failover: bool)
    requires InStep(l.w, p)
    ensures InStep(Iterate(l, plan, s, failover).w, p)
  {
    var next := Next(plan, l.tried);
    if next.Some? {
      AttemptInStep(l.w, p, next.value, s, failover);
    }
  }

  lemma AttemptInStep(w: World, p: Payment, gw: GatewayId, s: Script, failover: bool)
    requires InStep(w, p)
    ensures InStep(AttemptOnce(w, gw, s, failover).w, p)
  {
    NoteInStep(w, p, Permitted(gw, OpAuthorize));
    var w1 := Note(w, Permitted(gw, OpAuthorize));
    NoteInStep(w1, p, Recorded(gw, OpAuthorize, false, false));
    NoteInStep(w1, p, Acquired(gw));
    AbandonInStep(Note(w1, Acquired(gw)), p, gw, OpAuthorize, GatewayBusy);
    TransmitInStep(Note(w1, Acquired(gw)), p, gw, s, failover);
  }

  lemma DispatchInStep(w: World, p: Payment, plan: seq<GatewayId>, env: nat -> Script, settings: Settings)
    requires InStep(w, p)
    ensures InStep(Run(w, plan, env, settings).w, p)
  {
    var step := Stepping(plan, env, settings.failover);
    forall m: Loop, i | InStep(m.w, p)
      ensures InStep(step(m, i).w, p)
    {
      IterateInStep(m, p, plan, env(i), settings.failover);
    }
    RepeatKeeps(step, Start(w), Budget(settings), (m: Loop) => InStep(m.w, p));
  }

  // ----- capture, void and refund -----

  lemma FinishStepInStep(w: World, p: Payment, step: Step, s: Script)
    requires InStep(w, p) && KeepsRows(w.pay, step.p)
    ensures InStep(FinishStep(w, step, s).w, p)
  {
    ChangeInStep(w, p, step.p);
    SaveInStep(w.(pay := step.p), p);
  }

  lemma FollowCallInStep(w: World, p: Payment, gw: GatewayId, op: Operation, amount: Money, s: Script)
    requires InStep(w, p) && Ready(w.pay) && op != OpRefund
    requires HasRow(w.row, op, w.pay.attempts[|w.pay.attempts| - 1].id)
    ensures InStep(FollowCall(w, gw, op, amount, s).w, p)
  {
    var i := |w.pay.attempts| - 1;
    var r, sent := Read(s.answer, s.valid), Resolve(w.pay, i, Dispatched).p;
    var called := Called(gw, op, w.pay.attempts[i].id, s.answer, s.valid);
    var recorded := Recorded(gw, op, r.Believed?, true);
    FollowCallIs(w, gw, op, amount, s, i, r, sent);
    ChangeInStep(w, p, sent);
    NoteInStep(w.(pay := sent), p, called);
    NoteInStep(Note(w.(pay := sent), called), p, recorded);
    BookKeepsRows(sent, i, op, amount, s.answer, s.valid);
    FinishStepInStep(Note(Note(w.(pay := sent), called), recorded), p, Book(sent, i, op, amount, s.answer, r), s);
  }

  lemma FollowSendInStep(w: World, p: Payment, gw: GatewayId, op: Operation, amount: Money, s: Script)
    requires InStep(w, p) && op != OpRefund
    ensures InStep(FollowSend(w, gw, op, amount, s).w, p)
  {
    var c := StartAttempt(w.pay, w.nextId, gw, op);
    FollowSendIs(w, gw, op, amount, s, c);
    if c.Refused? {
      AbandonInStep(w, p, gw, op, Refusal(c.code));
    } else {
      ChangeInStep(w, p, c.p);
      var w1, a := w.(pay := c.p, nextId := w.nextId + 1), c.p.attempts[|c.p.attempts| - 1];
      assert InStep(w1, p);
      AbandonInStep(w1, p, gw, op, StoreFailed);
      SaveAttemptInStep(w1, p, a);
      FollowCallInStep(SaveAttempt(w1, a), p, gw, op, amount, s);
      NoteInStep(FollowCall(SaveAttempt(w1, a), gw, op, amount, s).w, p, Released(gw));
    }
  }

  lemma FollowUpInStep(w: World, p: Payment, op: Operation, amount: Money, s: Script)
    requires InStep(w, p) && op != OpRefund
    ensures InStep(FollowUp(w, op, amount, s).w, p)
  {
    var holder := SuccessfulAttempt(w.pay);
    if holder.Some? {
      var gw := holder.value.gateway;
      var w1 := Note(w, Permitted(gw, op));
      NoteInStep(w, p, Permitted(gw, op));
      NoteInStep(w1, p, Recorded(gw, op, false, false));
      NoteInStep(w1, p, Acquired(gw));
      AbandonInStep(Note(w1, Acquired(gw)), p, gw, op, GatewayBusy);
      FollowSendInStep(Note(w1, Acquired(gw)), p, gw, op, amount, s);
    }
  }

  lemma RefundCallInStep(w: World, p: Payment, gw: GatewayId, s: Script)
    requires InStep(w, p) && |w.pay.refunds| > 0 && HasRow(w.row, OpRefund, w.pay.refunds[|w.pay.refunds| - 1].id)
    ensures InStep(RefundCall(w, gw, s).w, p)
  {
    var i := |w.pay.refunds| - 1;
    RefundCallIs(w, gw, s, i);
    var called := Called(gw, OpRefund, w.pay.refunds[i].id, s.answer, s.valid);
    NoteInStep(w, p, called);
    BookRefundKeepsRows(w.pay, i, s.answer);
    FinishStepInStep(Note(w, called), p, BookRefund(w.pay, i, s.answer), s);
  }

  lemma RefundInStep(w: World, p: Payment, amount: Money, s: Script)
    requires InStep(w, p)
    ensures InStep(RefundExisting(w, amount, s).w, p)
  {
    var holder, c := SuccessfulAttempt(w.pay), AddRefund(w.pay, w.nextId, amount);
    if holder.Some? && c.Changed? {
      RefundExistingIs(w, amount, s, holder.value, c);
      ChangeInStep(w, p, c.p);
      var w1 := w.(pay := c.p, nextId := w.nextId + 1);
      assert InStep(w1, p);
      SaveInStep(w1, p);
      assert c.p.refunds[|c.p.refunds| - 1].id == w.nextId;
      RefundCallInStep(Save(w1), p, holder.value.gateway, s);
    }
  }

  // ----- every run, every crash point -----

  lemma {:induction false} SurvivesKept(log: Log, p: Payment, lost: nat)
    requires Kept(log, p)
    ensures Kept(Survives(log, lost), p)
  {
    if lost > 0 && log.Past? {
      SurvivesKept(log.before, p, lost - 1);
    }
  }

  lemma PerformInStep(w: World, p: Payment, a: Act)
    requires InStep(w, p)
    ensures InStep(Perform(w, p, a), p)
  {
    var loaded := w.(pay := w.row);
    assert InStep(loaded, p);
    match a
    case Authorize(plan, env, settings) => DispatchInStep(loaded, p, plan, env, settings);
    case Capture(amount, s) => FollowUpInStep(loaded, p, OpCapture, amount, s);
    case VoidAct(s) => FollowUpInStep(loaded, p, OpVoid, w.row.amount, s);
    case Refund(amount, s) => RefundInStep(loaded, p, amount, s);
    case Crash(lost) => SurvivesKept(w.log, p, lost);
  }

  lemma {:induction false} HistoryInStep(p: Payment, acts: seq<Act>)
    ensures InStep(History(p, acts), p)
  {
    if acts != [] {
      HistoryInStep(p, acts[..|acts| - 1]);
      PerformInStep(History(p, acts[..|acts| - 1]), p, acts[|acts| - 1]);
    }
  }

  lemma {:induction false} CallsWithin(log: Log, first: nat, n: nat, op: Operation, id: nat)
    requires Within(log, first, n) && CalledIn(log, op, id)
    ensures first <= id < n
  {
    var e := log.last;
    if !(e.Called? && e.op == op && e.row == id) {
      CallsWithin(log.before, first, n, op, id);
    }
  }

  /**
   * Over every sequence of authorizations, captures, voids, refunds and crashes, against every environment: every call
   * the gateways have seen has its row in the store at the end, and that row is not one the payment came with. So no
   * charge is unknown to the store.
   */
  lemma NoUnknownCharge(p: Payment, acts: seq<Act>, op: Operation, id: nat)
    requires CalledIn(History(p, acts).log, op, id)
    ensures HasRow(History(p, acts).row, op, id) && !HasRow(p, op, id)
  {
    HistoryInStep(p, acts);
    KeptHoldsCalls(History(p, acts).log, p, op, id);
    NoUnrecordedCall(p, acts);
    CallsWithin(History(p, acts).log, FirstFree(p), History(p, acts).nextId, op, id);
    if HasRow(p, op, id) {
      OldRowsAreBelow(p, op, id);
    }
  }
}
