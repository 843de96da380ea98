/** The write-ahead discipline and the resource discipline, over every run of the orchestrator's operations. */
module ProtocolTheorems {
  import opened MoneyArithmetic
  import opened PaymentAggregate
  import opened DispatchSpec
  import opened FollowUpSpec
  import opened DispatchTheorems

  // ----- every call is preceded by a committed row of its own -----

  predicate HasRow(p: Payment, op: Operation, id: nat) {
    if op == OpRefund then exists i :: 0 <= i < |p.refunds| && p.refunds[i].id == id
    else exists i :: 0 <= i < |p.attempts| && p.attempts[i].id == id
  }

  /** Some committed transaction in the log wrote the row. */
  predicate RowWritten(log: Log, op: Operation, id: nat) {
    match log
    case Quiet => false
    case Past(before, e) => (e.Saved? && HasRow(e.p, op, id)) || RowWritten(before, op, id)
  }

  predicate SentIn(log: Log, id: nat) {
    match log
    case Quiet => false
    case Past(before, e) => (e.Called? && e.row == id) || SentIn(before, id)
  }

  /** Each call names a row committed before it and never sent before it. */
  predicate WriteAhead(log: Log) {
    match log
    case Quiet => true
    case Past(before, e) =>
      && WriteAhead(before)
      && (e.Called? ==> RowWritten(before, e.op, e.row) && !SentIn(before, e.row))
  }

  /** Every call is for a row numbered from `first` on and below n. */
  predicate Within(log: Log, first: nat, n: nat) {
    match log
    case Quiet => true
    case Past(before, e) => Within(before, first, n) && (e.Called? ==> first <= e.row < n)
  }

  /** Calls follow their rows, and the rows called and those to come are numbered from `first` on. */
  predicate Sound(w: World, first: nat) {
    WriteAhead(w.log) && Within(w.log, first, w.nextId) && first <= w.nextId
  }

  lemma WithinGrows(log: Log, first: nat, n: nat, m: nat)
    requires Within(log, first, n) && n <= m
    ensures Within(log, first, m) && !SentIn(log, m)
  {
  }

  lemma NoteCall(w: World, e: Event, first: nat)
    requires e.Called? && WriteAhead(w.log) && Within(w.log, first, e.row) && first <= e.row < w.nextId
    requires w.log.Past? && w.log.last.Saved? && HasRow(w.log.last.p, e.op, e.row)
    ensures Sound(Note(w, e), first)
  {
    WithinGrows(w.log, first, e.row, e.row);
    WithinGrows(w.log, first, e.row, w.nextId);
  }

  lemma SettleKeeps(w: World, gw: GatewayId, i: nat, s: Script, failover: bool, first: nat)
    requires Sent(w.pay, i) && Sound(w, first)
    ensures Sound(Settle(w, gw, i, s, failover).w, first)
  {
  }

  lemma TransmitKeeps(w: World, gw: GatewayId, s: Script, failover: bool, first: nat)
    requires Sound(w, first)
    ensures Sound(Transmit(w, gw, s, failover).w, first)
  {
    var c := Started(w.pay, w.nextId, gw);
    if c.Changed? && s.saveFirst {
      var w1 := Save(w.(pay := c.p, nextId := w.nextId + 1));
      var i := |w1.pay.attempts| - 1;
      assert w1.pay.attempts[i].id == w.nextId;
      var w2 := w1.(pay := Resolve(w1.pay, i, Dispatched).p);
      var called := Called(gw, OpAuthorize, w.nextId, s.answer, s.valid);
      assert WriteAhead(w1.log) && Within(w1.log, first, w.nextId);
      NoteCall(w2, called, first);
      SettleKeeps(Note(w2, called), gw, i, s, failover, first);
    } else if c.Changed? {
      WithinGrows(w.log, first, w.nextId, w.nextId + 1);
    }
  }

  lemma AttemptKeeps(w: World, gw: GatewayId, s: Script, failover: bool, first: nat)
    requires Sound(w, first)
    ensures Sound(AttemptOnce(w, gw, s, failover).w, first)
  {
    TransmitKeeps(Note(Note(w, Permitted(gw, OpAuthorize)), Acquired(gw)), gw, s, failover, first);
  }

  lemma IterateSound(l: Loop, plan: seq<GatewayId>, s: Script, failover: bool, first: nat)
    requires Sound(l.w, first)
    ensures Sound(Iterate(l, plan, s, failover).w, first)
  {
    var next := Next(plan, l.tried);
    if next.Some? {
      AttemptKeeps(l.w, next.value, s, failover, first);
    }
  }

  lemma DispatchKeeps(w: World, plan: seq<GatewayId>, env: nat -> Script, settings: Settings, first: nat)
    requires Sound(w, first)
    ensures Sound(Run(w, plan, env, settings).w, first)
  {
    var step := Stepping(plan, env, settings.failover);
    forall m: Loop, i | Sound(m.w, first)
      ensures Sound(step(m, i).w, first)
    {
      IterateSound(m, plan, env(i), settings.failover, first);
    }
    RepeatKeeps(step, Start(w), Budget(settings), (m: Loop) => Sound(m.w, first));
  }

  lemma FollowCallKeeps(w: World, gw: GatewayId, op: Operation, amount: Money, s: Script, first: nat)
    requires Ready(w.pay) && op != OpRefund
    requires var id := w.pay.attempts[|w.pay.attempts| - 1].id;
             && WriteAhead(w.log) && Within(w.log, first, id) && first <= id < w.nextId
             && w.log.Past? && w.log.last.Saved? && HasRow(w.log.last.p, op, id)
    ensures Sound(FollowCall(w, gw, op, amount, s).w, first)
  {
    var i := |w.pay.attempts| - 1;
    var w1 := w.(pay := Resolve(w.pay, i, Dispatched).p);
    var called := Called(gw, op, w.pay.attempts[i].id, s.answer, s.valid);
    NoteCall(w1, called, first);
    assert Sound(Note(Note(w1, called), Recorded(gw, op, Read(s.answer, s.valid).Believed?, true)), first);
  }

  lemma FollowSendKeeps(w: World, gw: GatewayId, op: Operation, amount: Money, s: Script, first: nat)
    requires Sound(w, first) && op != OpRefund
    ensures Sound(FollowSend(w, gw, op, amount, s).w, first)
  {
    var c := StartAttempt(w.pay, w.nextId, gw, op);
    if c.Changed? {
      WithinGrows(w.log, first, w.nextId, w.nextId + 1);
      var w1 := SaveAttempt(w.(pay := c.p, nextId := w.nextId + 1), c.p.attempts[|c.p.attempts| - 1]);
      assert w1.row.attempts[|w1.row.attempts| - 1].id == w.nextId;
      FollowCallKeeps(w1, gw, op, amount, s, first);
    }
  }

  lemma FollowUpKeeps(w: World, op: Operation, amount: Money, s: Script, first: nat)
    requires Sound(w, first) && op != OpRefund
    ensures Sound(FollowUp(w, op, amount, s).w, first)
  {
    var holder := SuccessfulAttempt(w.pay);
    if holder.Some? {
      var w1 := Note(Note(w, Permitted(holder.value.gateway, op)), Acquired(holder.value.gateway));
      assert Sound(w1, first);
      FollowSendKeeps(w1, holder.value.gateway, op, amount, s, first);
    }
  }

  lemma RefundKeeps(w: World, amount: Money, s: Script, first: nat)
    requires Sound(w, first)
    ensures Sound(RefundExisting(w, amount, s).w, first)
  {
    var holder, c := SuccessfulAttempt(w.pay), AddRefund(w.pay, w.nextId, amount);
    if holder.Some? && c.Changed? {
      WithinGrows(w.log, first, w.nextId, w.nextId + 1);
      var w1 := Save(w.(pay := c.p, nextId := w.nextId + 1));
      var i := |w1.pay.refunds| - 1;
      assert w1.pay.refunds[i].id == w.nextId;
      var called := Called(holder.value.gateway, OpRefund, w.nextId, s.answer, s.valid);
      NoteCall(w1, called, first);
      assert Sound(Note(w1, called), first);
    }
  }

  // ----- every run, every crash point -----

  /** An operation works on the payment as stored; a crash loses the last `lost` events and all memory. */
  datatype Act =
    | Authorize(plan: seq<GatewayId>, env: nat -> Script, settings: Settings)
    | Capture(amount: Money, script: Script)
    | VoidAct(script: Script)
    | Refund(amount: Money, script: Script)
    | Crash(lost: nat)

  function Survives(log: Log, lost: nat): Log {
    if lost == 0 || log.Quiet? then log else Survives(log.before, lost - 1)
  }

  /** What the store holds after a log that began with row p. */
  function Stored(log: Log, p: Payment): Payment {
    match log
    case Quiet => p
    case Past(before, e) => if e.Saved? then e.p else Stored(before, p)
  }

  function Perform(w: World, p: Payment, a: Act): World {
    var loaded := w.(pay := w.row);
    match a
    case Authorize(plan, env, settings) => Run(loaded, plan, env, settings).w
    case Capture(amount, s) => FollowUp(loaded, OpCapture, amount, s).w
    case VoidAct(s) => FollowUp(loaded, OpVoid, w.row.amount, s).w
    case Refund(amount, s) => RefundExisting(loaded, amount, s).w
    case Crash(lost) =>
      var log := Survives(w.log, lost);
      World(Stored(log, p), Stored(log, p), log, w.nextId)
  }

  /** A number above those of all the attempts, and one above those of all the refunds. */
  function AboveAttempts(attempts: seq<Attempt>): (n: nat)
    ensures forall i :: 0 <= i < |attempts| ==> attempts[i].id < n
  {
    if attempts == [] then 0
    else
      var last, n := attempts[|attempts| - 1].id, AboveAttempts(attempts[..|attempts| - 1]);
      if last < n then n else last + 1
  }

  function AboveRefunds(refunds: seq<PaymentAggregate.Refund>): (n: nat)
    ensures forall i :: 0 <= i < |refunds| ==> refunds[i].id < n
  {
    if refunds == [] then 0
    else
      var last, n := refunds[|refunds| - 1].id, AboveRefunds(refunds[..|refunds| - 1]);
      if last < n then n else last + 1
  }

  /** The first identifier a payment does not use: those of its rows are all below. */
  function FirstFree(p: Payment): nat {
    var a, r := AboveAttempts(p.attempts), AboveRefunds(p.refunds);
    if a < r then r else a
  }

  lemma OldRowsAreBelow(p: Payment, op: Operation, id: nat)
    requires HasRow(p, op, id)
    ensures id < FirstFree(p)
  {
  }

  /** New rows are numbered above those the payment came with. */
  function History(p: Payment, acts: seq<Act>): World {
    if acts == [] then World(p, p, Quiet, FirstFree(p))
    else Perform(History(p, acts[..|acts| - 1]), p, acts[|acts| - 1])
  }

  lemma {:induction false} SurvivesKeeps(log: Log, lost: nat, n: nat, first: nat)
    requires WriteAhead(log) && Within(log, first, n)
    ensures WriteAhead(Survives(log, lost)) && Within(Survives(log, lost), first, n)
  {
    if lost > 0 && log.Past? {
      SurvivesKeeps(log.before, lost - 1, n, first);
    }
  }

  lemma PerformKeeps(w: World, p: Payment, a: Act, first: nat)
    requires Sound(w, first)
    ensures Sound(Perform(w, p, a), first)
  {
    var loaded := w.(pay := w.row);
    match a
    case Authorize(plan, env, settings) => DispatchKeeps(loaded, plan, env, settings, first);
    case Capture(amount, s) => FollowUpKeeps(loaded, OpCapture, amount, s, first);
    case VoidAct(s) => FollowUpKeeps(loaded, OpVoid, w.row.amount, s, first);
    case Refund(amount, s) => RefundKeeps(loaded, amount, s, first);
    case Crash(lost) => SurvivesKeeps(w.log, lost, w.nextId, first);
  }

  /**
   * Over every sequence of authorizations, captures, voids, refunds and crashes, against every
   * environment: no call goes out before a row of its own is committed, no row is sent twice, and none is a row the
   * payment came with.
   */
  lemma {:induction false} NoUnrecordedCall(p: Payment, acts: seq<Act>)
    ensures Sound(History(p, acts), FirstFree(p))
  {
    if acts != [] {
      NoUnrecordedCall(p, acts[..|acts| - 1]);
      PerformKeeps(History(p, acts[..|acts| - 1]), p, acts[|acts| - 1], FirstFree(p));
    }
  }

  // ----- permits and slots -----

  /** How often each kind of event occurs, and how many records count toward the breaker's rate and report health. */
  datatype Tally = Tally(permits: nat, records: nat, counted: nat, healthy: nat, slots: nat, released: nat)

  function Plus(t: Tally, e: Event): Tally {
    match e
    case Permitted(_, _) => t.(permits := t.permits + 1)
    case Recorded(_, _, success, counted) =>
      t.(records := t.records + 1, counted := t.counted + (if counted then 1 else 0),
         healthy := t.healthy + (if success then 1 else 0))
    case Acquired(_) => t.(slots := t.slots + 1)
    case Released(_) => t.(released := t.released + 1)
    case _ => t
  }

  function Count(log: Log): Tally {
    match log
    case Quiet => Tally(0, 0, 0, 0, 0, 0)
    case Past(before, e) => Plus(Count(before), e)
  }

  function Bump(t: Tally, permit: bool, counted: bool, healthy: bool, slot: bool): Tally {
    var p, q := if permit then 1 else 0, if slot then 1 else 0;
    Tally(t.permits + p, t.records + p, t.counted + (if counted then 1 else 0), t.healthy + (if healthy then 1 else 0),
          t.slots + q, t.released + q)
  }

  /** An error-free, valid answer with one of these statuses. */
  predicate Answers(s: Script, statuses: set<Status>) {
    Believable(s) && s.answer.resp.value.status in statuses
  }

  /** The gateway did its work, whatever it said of the payer; a decline alone says nothing of it. */
  predicate Healthy(s: Script) {
    Answers(s, {StatusAuthorized, StatusCaptured, StatusRequiresAction, StatusPending})
  }

  predicate Declines(s: Script) {
    Answers(s, {StatusDeclined})
  }

  lemma SettleTally(w: World, gw: GatewayId, i: nat, s: Script, failover: bool)
    requires Sent(w.pay, i)
    ensures Count(Settle(w, gw, i, s, failover).w.log)
            == Plus(Count(w.log), Recorded(gw, OpAuthorize, Healthy(s), !Declines(s)))
  {
    var e := Classify(s.answer, s.valid);
    var (success, counted) := Health(e);
    var w1 := Note(w, Recorded(gw, OpAuthorize, success, counted)).(pay := Advance(w.pay, i, s.answer, e, failover).p);
    assert Count(w1.log) == Plus(Count(w.log), Recorded(gw, OpAuthorize, Healthy(s), !Declines(s)));
    assert Count(Save(w1).log) == Count(w1.log);
  }

  lemma TransmitTally(w: World, gw: GatewayId, s: Script, failover: bool)
    ensures var made := s.saveFirst && Startable(w.pay);
            Count(Transmit(w, gw, s, failover).w.log)
            == Plus(Plus(Count(w.log),
                         Recorded(gw, OpAuthorize, made && Healthy(s), made && !Declines(s))),
                    Released(gw))
  {
    var c := Started(w.pay, w.nextId, gw);
    if c.Changed? && s.saveFirst {
      var w1 := Save(w.(pay := c.p, nextId := w.nextId + 1));
      var i := |w1.pay.attempts| - 1;
      var w2 := Note(w1.(pay := Resolve(w1.pay, i, Dispatched).p),
          Called(gw, OpAuthorize, w.nextId, s.answer, s.valid));
      assert Count(w2.log) == Count(w1.log) == Count(w.log);
      SettleTally(w2, gw, i, s, failover);
    }
  }

  /**
   * One attempt records the permit it was granted once and releases the slot it took once; it counts
   * the outcome exactly when the gateway was called and did not answer with a validated decline, and as healthy
   * exactly when the answer was a valid one of the other four.
   */
  lemma AttemptTally(w: World, gw: GatewayId, s: Script, failover: bool)
    ensures Count(AttemptOnce(w, gw, s, failover).w.log)
            == Bump(Count(w.log), s.allow,
                    Reaches(s) && Startable(w.pay) && !Declines(s), Reaches(s) && Startable(w.pay) && Healthy(s),
                    s.allow && s.acquire)
  {
    var w1 := Note(Note(w, Permitted(gw, OpAuthorize)), Acquired(gw));
    assert Count(w1.log) == Plus(Plus(Count(w.log), Permitted(gw, OpAuthorize)), Acquired(gw));
    TransmitTally(w1, gw, s, failover);
  }

  /** A follow-up does the same; it counts the outcome whenever the gateway was called, healthy if it is believed. */
  lemma FollowUpTally(w: World, op: Operation, amount: Money, s: Script)
    ensures var holder := SuccessfulAttempt(w.pay);
            var sent := holder.Some? && Reaches(s) && StartAttempt(w.pay, w.nextId, holder.value.gateway, op).Changed?;
            Count(FollowUp(w, op, amount, s).w.log)
            == Bump(Count(w.log), holder.Some? && s.allow, sent, sent && Believable(s),
                    holder.Some? && s.allow && s.acquire)
  {
    var holder := SuccessfulAttempt(w.pay);
    if holder.Some? {
      var gw := holder.value.gateway;
      var w1 := Note(Note(w, Permitted(gw, op)), Acquired(gw));
      assert Count(w1.log) == Plus(Plus(Count(w.log), Permitted(gw, op)), Acquired(gw));
      FollowSendTally(w1, gw, op, amount, s);
    }
  }

  lemma FollowSendTally(w: World, gw: GatewayId, op: Operation, amount: Money, s: Script)
    ensures var made := s.saveFirst && StartAttempt(w.pay, w.nextId, gw, op).Changed?;
            Count(FollowSend(w, gw, op, amount, s).w.log)
            == Plus(Plus(Count(w.log), Recorded(gw, op, made && Believable(s), made)), Released(gw))
  {
    var c := StartAttempt(w.pay, w.nextId, gw, op);
    if c.Changed? && s.saveFirst {
      var w1 := SaveAttempt(w.(pay := c.p, nextId := w.nextId + 1), c.p.attempts[|c.p.attempts| - 1]);
      assert Count(w1.log) == Count(w.log);
      FollowCallTally(w1, gw, op, amount, s);
    }
  }

  lemma FollowCallTally(w: World, gw: GatewayId, op: Operation, amount: Money, s: Script)
    requires Ready(w.pay)
    ensures Count(FollowCall(w, gw, op, amount, s).w.log) == Plus(Count(w.log), Recorded(gw, op, Believable(s), true))
  {
    var i := |w.pay.attempts| - 1;
    var w1 := Note(w.(pay := Resolve(w.pay, i, Dispatched).p), Called(gw, op, w.pay.attempts[i].id, s.answer, s.valid));
    var w2 := Note(w1, Recorded(gw, op, Read(s.answer, s.valid).Believed?, true));
    assert Count(w1.log) == Count(w.log);
    assert Count(w2.log) == Plus(Count(w.log), Recorded(gw, op, Believable(s), true));
  }

  predicate Balanced(log: Log) {
    Count(log).permits == Count(log).records && Count(log).slots == Count(log).released
  }

  lemma IterateBalanced(l: Loop, plan: seq<GatewayId>, s: Script, failover: bool)
    requires Balanced(l.w.log)
    ensures Balanced(Iterate(l, plan, s, failover).w.log)
  {
    var next := Next(plan, l.tried);
    if next.Some? {
      AttemptTally(l.w, next.value, s, failover);
    }
  }

  /** Hence a whole authorization run leaves no permit unrecorded and no slot held. */
  lemma DispatchBalanced(w: World, plan: seq<GatewayId>, env: nat -> Script, settings: Settings)
    requires Balanced(w.log)
    ensures Balanced(Run(w, plan, env, settings).w.log)
  {
    var step := Stepping(plan, env, settings.failover);
    forall m: Loop, i | Balanced(m.w.log)
      ensures Balanced(step(m, i).w.log)
    {
      IterateBalanced(m, plan, env(i), settings.failover);
    }
    RepeatKeeps(step, Start(w), Budget(settings), (m: Loop) => Balanced(m.w.log));
  }
}
