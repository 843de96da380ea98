/** When a capture or a void is booked, and when it is booked although the gateway did not say so. */
module FollowUpTheorems {
  import opened MoneyArithmetic
  import opened PaymentAggregate
  import opened DispatchSpec
  import opened DispatchTheorems
  import opened FollowUpSpec
  import opened ResponseRules
  import opened Options

  /**
   * The stored payment lets the call go out: a holder, no final state, no unknown attempt, all steps before the call
   * fine.
   */
  predicate Sends(row: Payment, s: Script) {
    Reaches(s) && SuccessfulAttempt(row).Some? && !IsTerminal(row.state) && !HasUnresolved(row)
  }

  /** The world a follow-up starts in: the payment has just been read. */
  function Loaded(w: World): World {
    w.(pay := w.row)
  }

  /** What the call does to the payment, before the attempt rows are looked at. */
  function Applied(p: Payment, op: Operation, amount: Money, s: Script): Change
    requires s.answer.resp.Some?
  {
    if op == OpVoid then Void(p)
    else MarkCaptured(p,
           if s.answer.resp.value.capturedAmount.Some? then s.answer.resp.value.capturedAmount.value else amount)
  }

  /** q is p with other attempt rows. */
  predicate SameButAttempts(p: Payment, q: Payment) {
    q == p.(attempts := q.attempts)
  }

  lemma AppliedAlike(p: Payment, q: Payment, op: Operation, amount: Money, s: Script)
    requires SameButAttempts(p, q) && s.answer.resp.Some?
    ensures Applied(p, op, amount, s).Changed? <==> Applied(q, op, amount, s).Changed?
    ensures Applied(p, op, amount, s).Changed?
        ==> SameButAttempts(Applied(p, op, amount, s).p, Applied(q, op, amount, s).p)
  {
  }

  /** Booking changes more than the attempt rows exactly if the answer is believed and the aggregate agrees. */
  predicate Books(row: Payment, op: Operation, amount: Money, s: Script) {
    Believable(s) && Applied(row, op, amount, s).Changed?
  }

  /** The stored payment afterwards, attempt rows aside. */
  function StoredAfter(row: Payment, op: Operation, amount: Money, s: Script): Payment {
    if Sends(row, s) && Books(row, op, amount, s) && s.commit then Applied(row, op, amount, s).p else row
  }

  lemma BookIs(row: Payment, p: Payment, i: nat, op: Operation, amount: Money, s: Script)
    requires Sent(p, i) && SameButAttempts(row, p)
    ensures var step := Book(p, i, op, amount, s.answer, Read(s.answer, s.valid));
      && (step.refused.None? <==> !Believable(s) || Books(row, op, amount, s))
      && SameButAttempts(if Books(row, op, amount, s) then Applied(row, op, amount, s).p else row, step.p)
  {
    if Believable(s) {
      AppliedAlike(row, Resolve(p, i, Success).p, op, amount, s);
    }
  }

  lemma FollowCallBooks(w: World, row: Payment, gw: GatewayId, op: Operation, amount: Money, s: Script)
    requires Ready(w.pay) && SameButAttempts(row, w.pay) && SameButAttempts(row, w.row)
    ensures var done := FollowCall(w, gw, op, amount, s).w;
      SameButAttempts(if Books(row, op, amount, s) && s.commit then Applied(row, op, amount, s).p else row, done.row)
  {
    var i := |w.pay.attempts| - 1;
    var r, sent := Read(s.answer, s.valid), Resolve(w.pay, i, Dispatched).p;
    FollowCallIs(w, gw, op, amount, s, i, r, sent);
    BookIs(row, sent, i, op, amount, s);
  }

  lemma FollowSendBooks(w: World, row: Payment, gw: GatewayId, op: Operation, amount: Money, s: Script)
    requires w.pay == w.row == row && op != OpAuthorize
    ensures var done := FollowSend(w, gw, op, amount, s).w;
      SameButAttempts(
        if s.saveFirst && !IsTerminal(row.state) && !HasUnresolved(row) && Books(row, op, amount, s) && s.commit
        then Applied(row, op, amount, s).p else row, done.row)
  {
    var c := StartAttempt(w.pay, w.nextId, gw, op);
    FollowSendIs(w, gw, op, amount, s, c);
    if c.Changed? {
      var w1 := w.(pay := c.p, nextId := w.nextId + 1);
      FollowCallBooks(SaveAttempt(w1, c.p.attempts[|c.p.attempts| - 1]), row, gw, op, amount, s);
    }
  }

  /** What a capture or void leaves in the store, attempt rows aside. */
  lemma FollowUpBooks(w: World, op: Operation, amount: Money, s: Script)
    requires op != OpAuthorize
    ensures SameButAttempts(StoredAfter(w.row, op, amount, s), FollowUp(Loaded(w), op, amount, s).w.row)
  {
    var holder := SuccessfulAttempt(w.row);
    if holder.Some? {
      var gw := holder.value.gateway;
      FollowSendBooks(Note(Note(Loaded(w), Permitted(gw, op)), Acquired(gw)), w.row, gw, op, amount, s);
    }
  }

  // ----- booked, exactly when -----

  predicate VoidBooked(w: World, s: Script) {
    w.row.state != Voided && FollowUp(Loaded(w), OpVoid, w.row.amount, s).w.row.state == Voided
  }

  predicate CaptureBooked(w: World, amount: Money, s: Script) {
    FollowUp(Loaded(w), OpCapture, amount, s).w.row.captured != w.row.captured
  }

  function Reported(amount: Money, r: Response): Money {
    if r.capturedAmount.Some? then r.capturedAmount.value else amount
  }

  /**
   * A void is booked exactly if the payment is AUTHORIZED with nothing captured, the call goes out, its answer is
   * error-free and valid, and the commit succeeds. Nothing is asked of the status itself.
   */
  lemma VoidBookedIff(w: World, s: Script)
    ensures VoidBooked(w, s) <==>
      w.row.state == Authorized && w.row.captured.amount == 0 && Sends(w.row, s) && Believable(s) && s.commit
  {
    FollowUpBooks(w, OpVoid, w.row.amount, s);
  }

  /** A capture likewise, if the aggregate takes the reported amount; the captured total grows by that amount. */
  lemma CaptureBookedIff(w: World, amount: Money, s: Script)
    ensures CaptureBooked(w, amount, s) <==>
      && Sends(w.row, s) && Believable(s) && s.commit
      && MarkCaptured(w.row, Reported(amount, s.answer.resp.value)).Changed?
    ensures CaptureBooked(w, amount, s) ==>
      var row := FollowUp(Loaded(w), OpCapture, amount, s).w.row;
      row.state == Captured && Add(w.row.captured, Reported(amount, s.answer.resp.value)) == Ok(row.captured)
  {
    FollowUpBooks(w, OpCapture, amount, s);
  }

  // ----- booked, although the gateway did not say so -----

  /** The answer echoes the payment's amount under a reference. */
  predicate Echoes(op: Operation, p: Payment, r: Response) {
    r.ref != "" && Echo(op, p, r) == p.amount
  }

  /** Answers to a void that pass the validator without saying VOIDED: FAILED, and three statuses of a success. */
  predicate VoidMisread(p: Payment, r: Response) {
    || r.status == StatusFailed
    || (r.status in {StatusAuthorized, StatusCaptured, StatusRefundAccepted} && Echoes(OpVoid, p, r))
  }

  /** Everything around the answer lets a void be booked. */
  predicate VoidOpen(w: World, s: Script) {
    w.row.state == Authorized && w.row.captured.amount == 0 && Sends(w.row, s) && s.answer.err.None? && s.commit
  }

  /** With the platform's validator, a void is booked against the gateway's word exactly on these answers. */
  lemma VoidPromiseIff(w: World, s: Script)
    requires s.answer.resp.Some? && Judged(OpVoid, w.row, s)
    ensures (VoidBooked(w, s) ==> s.answer.resp.value.status == StatusVoided)
            <==> !(VoidOpen(w, s) && VoidMisread(w.row, s.answer.resp.value))
    ensures s.answer.resp.value.status == StatusVoided ==>
            (VoidBooked(w, s) <==> VoidOpen(w, s) && Echoes(OpVoid, w.row, s.answer.resp.value))
  {
    VoidBookedIff(w, s);
    if w.row.state == Authorized {
      VoidAccepted(w.row, s.answer.resp.value);
    }
  }

  lemma VoidAccepted(p: Payment, r: Response)
    requires p.state == Authorized
    ensures Accepts(OpVoid, p, r) <==> VoidMisread(p, r) || (r.status == StatusVoided && Echoes(OpVoid, p, r))
  {
  }

  /** Answers to a capture that pass the validator without saying CAPTURED. */
  predicate CaptureMisread(p: Payment, r: Response) {
    && WithinAuthorized(p, r)
    && (|| r.status == StatusFailed
        || (r.status == StatusPending && r.ref != "" && p.state in {Pending, Processing})
        || (Echoes(OpCapture, p, r)
            && (|| r.status == StatusRefundAccepted
                || (r.status == StatusAuthorized && p.state in {Authorized, Pending, Processing})
                || (r.status == StatusVoided && p.state == Authorized)
                || (r.status == StatusRefunded && p.state == Disputed))))
  }

  predicate CaptureOpen(w: World, amount: Money, s: Script)
    requires s.answer.resp.Some?
  {
    && Sends(w.row, s) && s.answer.err.None? && s.commit
    && MarkCaptured(w.row, Reported(amount, s.answer.resp.value)).Changed?
  }

  /** The answer reports the payment's full amount as captured, within what was authorized. */
  predicate CapturedInFull(p: Payment, r: Response) {
    Echoes(OpCapture, p, r) && WithinAuthorized(p, r)
  }

  /**
   * With the platform's validator, a capture is booked against the gateway's word exactly on these answers; and one the
   * gateway confirms is booked exactly if it echoes the payment's whole amount: a partial capture never is.
   */
  lemma CapturePromiseIff(w: World, amount: Money, s: Script)
    requires s.answer.resp.Some? && Judged(OpCapture, w.row, s)
    ensures (CaptureBooked(w, amount, s) ==> s.answer.resp.value.status == StatusCaptured)
            <==> !(CaptureOpen(w, amount, s) && CaptureMisread(w.row, s.answer.resp.value))
    ensures s.answer.resp.value.status == StatusCaptured ==>
            (CaptureBooked(w, amount, s) <==> CaptureOpen(w, amount, s) && CapturedInFull(w.row, s.answer.resp.value))
  {
    CaptureBookedIff(w, amount, s);
    if CaptureOpen(w, amount, s) {
      CaptureAccepted(w.row, s.answer.resp.value);
    }
  }

  lemma CaptureAccepted(p: Payment, r: Response)
    requires CanMove(p.state, Captured)
    ensures Accepts(OpCapture, p, r) <==> CaptureMisread(p, r) || (r.status == StatusCaptured && CapturedInFull(p, r))
  {
  }

  /** So a capture the gateway confirms for another amount than the payment's is not booked, but parked as unknown. */
  lemma PartialCaptureIsParked(w: World, amount: Money, s: Script)
    requires s.answer.resp.Some? && s.answer.resp.value.status == StatusCaptured && Judged(OpCapture, w.row, s)
    requires w.row.authorized.currency != "" && Reported(amount, s.answer.resp.value) != w.row.amount
    ensures !CaptureBooked(w, amount, s)
    ensures s.answer.err.None? ==> Read(s.answer, s.valid) == Lost
  {
    CapturePromiseIff(w, amount, s);
  }

  /**
   * A void the gateway answers FAILED, on an authorized payment: booked as VOIDED, although the hold is still there.
   */
  lemma FailedVoidIsBooked(w: World, failed: Response)
    requires w.row.state == Authorized && w.row.captured.amount == 0
    requires w.row.attempts == [Attempt(0, "a", OpAuthorize, Success, Unclassified, false)]
    requires failed == Response(StatusFailed, "", None, None, Unclassified, false)
    ensures Accepts(OpVoid, w.row, failed)
    ensures var s := Script(true, true, true, true, Answer(Some(failed), None), true, true, true);
      FollowUp(Loaded(w), OpVoid, w.row.amount, s).w.row.state == Voided
  {
    VoidAccepted(w.row, failed);
    VoidBookedIff(w, Script(true, true, true, true, Answer(Some(failed), None), true, true, true));
  }

  // ----- the attempt on file -----

  /** The call went out and its answer tells nothing: unknown, a timeout, no response, or one the validator refuses. */
  predicate Inconclusive(s: Script) {
    if s.answer.err.Some? then s.answer.err.value.unknown || s.answer.err.value.timeout
    else s.answer.resp.None? || !s.valid
  }

  /** The outcome on file of the attempt of a capture or void that goes out. */
  function OutcomeOnFile(row: Payment, op: Operation, amount: Money, s: Script): PaymentAggregate.Outcome {
    if !s.commit || (Believable(s) && Applied(row, op, amount, s).Refused?) then OutcomePending
    else if Inconclusive(s) then TimeoutUnknown
    else if s.answer.err.Some? then Error
    else Success
  }

  function NewAttempt(id: nat, gw: GatewayId, op: Operation, outcome: PaymentAggregate.Outcome): Attempt {
    Attempt(id, gw, op, outcome, Unclassified, false)
  }

  lemma LastReplaced(before: seq<Attempt>, a: Attempt, b: Attempt)
    ensures (before + [a])[|before| := b] == before + [b]
  {
  }

  lemma BookAttempts(
      row: Payment, p: Payment, before: seq<Attempt>, a: Attempt, op: Operation, amount: Money, s: Script)
    requires p.attempts == before + [a.(outcome := Dispatched)] && SameButAttempts(row, p) && !a.noRetry
    ensures Sent(p, |before|)
    ensures var step := Book(p, |before|, op, amount, s.answer, Read(s.answer, s.valid));
      step.refused.None? ==>
        step.p.attempts == before + [a.(outcome := OutcomeOnFile(row, op, amount, s.(commit := true)))]
  {
    BookIs(row, p, |before|, op, amount, s);
    LastReplaced(before, a.(outcome := Dispatched), a.(outcome := TimeoutUnknown));
    LastReplaced(before, a.(outcome := Dispatched), a.(outcome := Error));
    LastReplaced(before, a.(outcome := Dispatched), a.(outcome := Success));
  }

  lemma FollowCallAttempts(w: World, row: Payment, gw: GatewayId, op: Operation, amount: Money, s: Script, a: Attempt)
    requires w.pay == w.row == row.(attempts := row.attempts + [a]) && a.outcome == OutcomePending && !a.noRetry
    ensures var done := FollowCall(w, gw, op, amount, s).w;
      done.row.attempts == row.attempts + [a.(outcome := OutcomeOnFile(row, op, amount, s))]
  {
    var i := |w.pay.attempts| - 1;
    var r, sent := Read(s.answer, s.valid), Resolve(w.pay, i, Dispatched).p;
    LastReplaced(row.attempts, a, a.(outcome := Dispatched));
    FollowCallIs(w, gw, op, amount, s, i, r, sent);
    BookIs(row, sent, i, op, amount, s);
    BookAttempts(row, sent, row.attempts, a, op, amount, s);
  }

  lemma FollowSendAttempts(w: World, row: Payment, gw: GatewayId, op: Operation, amount: Money, s: Script)
    requires w.pay == w.row == row && op != OpAuthorize
    ensures FollowSend(w, gw, op, amount, s).w.row.attempts ==
      if s.saveFirst && !IsTerminal(row.state) && !HasUnresolved(row)
      then row.attempts + [NewAttempt(w.nextId, gw, op, OutcomeOnFile(row, op, amount, s))] else row.attempts
  {
    var c := StartAttempt(w.pay, w.nextId, gw, op);
    FollowSendIs(w, gw, op, amount, s, c);
    if c.Changed? {
      var w1 := w.(pay := c.p, nextId := w.nextId + 1);
      FollowCallAttempts(SaveAttempt(w1, c.p.attempts[|c.p.attempts| - 1]), row, gw, op, amount, s,
                         NewAttempt(w.nextId, gw, op, OutcomePending));
    }
  }

  /**
   * A capture or void that goes out leaves one attempt more, on the gateway of an attempt that succeeded; its outcome
   * is SUCCESS, ERROR or unknown as the answer calls for, and PENDING if the aggregate or the store refuses it.
   */
  lemma FollowUpAttempt(w: World, op: Operation, amount: Money, s: Script) returns (holder: Attempt)
    requires op != OpAuthorize && Sends(w.row, s)
    ensures holder in w.row.attempts && holder.outcome == Success
    ensures FollowUp(Loaded(w), op, amount, s).w.row.attempts ==
      w.row.attempts + [NewAttempt(w.nextId, holder.gateway, op, OutcomeOnFile(w.row, op, amount, s))]
  {
    HolderIs(w.row.attempts);
    holder := SuccessfulAttempt(w.row).value;
    var gw := holder.gateway;
    FollowSendAttempts(Note(Note(Loaded(w), Permitted(gw, op)), Acquired(gw)), w.row, gw, op, amount, s);
  }

  // ----- what the caller is told -----

  /** The caller gets the payment as stored if ok, and an error otherwise. */
  predicate Replies(a: Attempted, ok: bool) {
    if ok then a.tried == Gave(Verdict(true, Some(a.w.row), None)) else a.tried.Erred?
  }

  lemma FinishReplies(w: World, step: Step, s: Script)
    ensures Replies(FinishStep(w, step, s), step.refused.None? && s.commit && s.reload)
  {
  }

  lemma FollowCallReplies(w: World, row: Payment, gw: GatewayId, op: Operation, amount: Money, s: Script)
    requires Ready(w.pay) && SameButAttempts(row, w.pay)
    ensures Replies(FollowCall(w, gw, op, amount, s),
      (Believable(s) ==> Books(row, op, amount, s)) && s.commit && s.reload)
  {
    var i := |w.pay.attempts| - 1;
    var r, sent := Read(s.answer, s.valid), Resolve(w.pay, i, Dispatched).p;
    FollowCallIs(w, gw, op, amount, s, i, r, sent);
    BookIs(row, sent, i, op, amount, s);
    var w1 := Note(w.(pay := sent), Called(gw, op, w.pay.attempts[i].id, s.answer, s.valid));
    FinishReplies(Note(w1, Recorded(gw, op, r.Believed?, true)), Book(sent, i, op, amount, s.answer, r), s);
  }

  lemma FollowSendReplies(w: World, gw: GatewayId, op: Operation, amount: Money, s: Script)
    requires op != OpAuthorize
    ensures Replies(FollowSend(w, gw, op, amount, s),
      && s.saveFirst && !IsTerminal(w.pay.state) && !HasUnresolved(w.pay)
      && (Believable(s) ==> Books(w.pay, op, amount, s)) && s.commit && s.reload)
  {
    var c := StartAttempt(w.pay, w.nextId, gw, op);
    FollowSendIs(w, gw, op, amount, s, c);
    if c.Changed? {
      var w1 := w.(pay := c.p, nextId := w.nextId + 1);
      FollowCallReplies(SaveAttempt(w1, c.p.attempts[|c.p.attempts| - 1]), w.pay, gw, op, amount, s);
    }
  }

  /**
   * The caller of a capture or void gets the payment exactly if the call goes out, the aggregate books a believed
   * answer and the result is stored and read back. An answer that is not believed is no error to the caller.
   */
  lemma FollowUpRepliesIff(w: World, op: Operation, amount: Money, s: Script)
    requires op != OpAuthorize
    ensures Replies(FollowUp(Loaded(w), op, amount, s),
      Sends(w.row, s) && (Believable(s) ==> Books(w.row, op, amount, s)) && s.commit && s.reload)
  {
    var holder := SuccessfulAttempt(w.row);
    if holder.Some? {
      var gw := holder.value.gateway;
      FollowSendReplies(Note(Note(Loaded(w), Permitted(gw, op)), Acquired(gw)), gw, op, amount, s);
    }
  }

  // ----- the gateway that is called -----

  lemma {:induction false} HolderIs(attempts: seq<Attempt>)
    ensures FirstSuccess(attempts).Some? <==> exists i :: 0 <= i < |attempts| && attempts[i].outcome == Success
    ensures FirstSuccess(attempts).Some? ==>
      FirstSuccess(attempts).value in attempts && FirstSuccess(attempts).value.outcome == Success
  {
    if attempts != [] && attempts[0].outcome != Success {
      HolderIs(attempts[1..]);
      assert attempts == [attempts[0]] + attempts[1..];
    }
  }

  /** Every call in the log after `base` goes to this gateway. */
  predicate CallsOnly(base: Log, log: Log, gw: GatewayId) {
    log == base || (log.Past? && CallsOnly(base, log.before, gw) && (log.last.Called? ==> log.last.gw == gw))
  }

  /** All of them go to the gateway of an attempt of p that succeeded. */
  ghost predicate CallsHolder(p: Payment, base: Log, log: Log) {
    exists i :: 0 <= i < |p.attempts| && p.attempts[i].outcome == Success && CallsOnly(base, log, p.attempts[i].gateway)
  }

  lemma FollowCallCalls(w: World, base: Log, gw: GatewayId, op: Operation, amount: Money, s: Script)
    requires Ready(w.pay) && CallsOnly(base, w.log, gw)
    ensures CallsOnly(base, FollowCall(w, gw, op, amount, s).w.log, gw)
  {
    var i := |w.pay.attempts| - 1;
    var r, sent := Read(s.answer, s.valid), Resolve(w.pay, i, Dispatched).p;
    FollowCallIs(w, gw, op, amount, s, i, r, sent);
    var w1 := Note(w.(pay := sent), Called(gw, op, w.pay.attempts[i].id, s.answer, s.valid));
    assert CallsOnly(base, w1.log, gw);
    FinishCalls(Note(w1, Recorded(gw, op, r.Believed?, true)), base, gw, Book(sent, i, op, amount, s.answer, r), s);
  }

  lemma FinishCalls(w: World, base: Log, gw: GatewayId, step: Step, s: Script)
    requires CallsOnly(base, w.log, gw)
    ensures CallsOnly(base, FinishStep(w, step, s).w.log, gw)
  {
  }

  lemma AbandonCalls(w: World, base: Log, gw: GatewayId, op: Operation, f: Fault)
    requires CallsOnly(base, w.log, gw)
    ensures CallsOnly(base, Abandon(w, gw, op, f).w.log, gw)
  {
  }

  lemma FollowSendCalls(w: World, base: Log, gw: GatewayId, op: Operation, amount: Money, s: Script)
    requires CallsOnly(base, w.log, gw)
    ensures CallsOnly(base, FollowSend(w, gw, op, amount, s).w.log, gw)
  {
    var c := StartAttempt(w.pay, w.nextId, gw, op);
    FollowSendIs(w, gw, op, amount, s, c);
    if c.Refused? {
      AbandonCalls(w, base, gw, op, Refusal(c.code));
    } else {
      var w1 := w.(pay := c.p, nextId := w.nextId + 1);
      AbandonCalls(w1, base, gw, op, StoreFailed);
      FollowCallCalls(SaveAttempt(w1, c.p.attempts[|c.p.attempts| - 1]), base, gw, op, amount, s);
    }
  }

  /** Capture and void call no gateway but that of an attempt that succeeded, and none if there is no such attempt. */
  lemma FollowUpCallsHolder(w: World, op: Operation, amount: Money, s: Script)
    ensures var log := FollowUp(w, op, amount, s).w.log;
      log == w.log || CallsHolder(w.pay, w.log, log)
  {
    var holder := SuccessfulAttempt(w.pay);
    HolderIs(w.pay.attempts);
    if holder.Some? {
      var gw := holder.value.gateway;
      var w1 := Note(w, Permitted(gw, op));
      var w2 := Note(w1, Acquired(gw));
      assert CallsOnly(w.log, w.log, gw);
      assert CallsOnly(w.log, w1.log, gw);
      assert CallsOnly(w.log, w2.log, gw);
      assert CallsOnly(w.log, Note(w1, Recorded(gw, op, false, false)).log, gw);
      AbandonCalls(w2, w.log, gw, op, GatewayBusy);
      FollowSendCalls(w2, w.log, gw, op, amount, s);
    }
  }

  /** So does a refund. */
  lemma RefundCallsHolder(w: World, amount: Money, s: Script)
    ensures var log := RefundExisting(w, amount, s).w.log;
      log == w.log || CallsHolder(w.pay, w.log, log)
  {
    var holder, c := SuccessfulAttempt(w.pay), AddRefund(w.pay, w.nextId, amount);
    HolderIs(w.pay.attempts);
    if holder.Some? && c.Changed? {
      var gw, w1 := holder.value.gateway, Save(w.(pay := c.p, nextId := w.nextId + 1));
      var i := |w1.pay.refunds| - 1;
      RefundExistingIs(w, amount, s, holder.value, c);
      RefundCallIs(w1, gw, s, i);
      var called := Called(gw, OpRefund, w1.pay.refunds[i].id, s.answer, s.valid);
      assert CallsOnly(w.log, w1.log, gw);
      FinishCalls(Note(w1, called), w.log, gw, BookRefund(w1.pay, i, s.answer), s);
    }
  }
}
