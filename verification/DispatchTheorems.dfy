/** What holds of every authorization run, against every environment. */
module DispatchTheorems {
  import opened PaymentAggregate
  import opened DispatchSpec
  import opened Options

  // ----- the gateway calls a log shows -----

  /** ok: settling the call returned no error. */
  datatype Call = Call(gw: GatewayId, row: nat, ending: Ending, ok: bool)

  function Seen(calls: seq<Call>, e: Event): seq<Call> {
    match e
    case Called(gw, _, row, answer, valid) => calls + [Call(gw, row, Classify(answer, valid), false)]
    case Concluded(_, ok) =>
      if calls == [] then calls else calls[|calls| - 1 := calls[|calls| - 1].(ok := ok)]
    case _ => calls
  }

  function Calls(log: Log): seq<Call> {
    match log
    case Quiet => []
    case Past(before, e) => Seen(Calls(before), e)
  }

  predicate Reaches(s: Script) {
    s.allow && s.acquire && s.resolve && s.saveFirst
  }

  /** An attempt may still be started: nothing succeeded, nothing is unknown, nothing is final. */
  predicate Startable(p: Payment) {
    !IsTerminal(p.state) && !HasSuccess(p) && !HasUnresolved(p)
  }

  lemma SettleCalls(w: World, gw: GatewayId, i: nat, s: Script, failover: bool)
    requires Sent(w.pay, i)
    ensures var done := Settle(w, gw, i, s, failover);
            Calls(done.w.log) == Seen(Calls(w.log), Concluded(w.pay.attempts[i].id, done.tried.Gave?))
  {
    var e := Classify(s.answer, s.valid);
    var (success, counted) := Health(e);
    var step := Advance(w.pay, i, s.answer, e, failover);
    var w1 := Note(w, Recorded(gw, OpAuthorize, success, counted)).(pay := step.p);
    assert Calls(w1.log) == Calls(w.log);
    assert Calls(Save(w1).log) == Calls(w1.log);
  }

  lemma CallGatewayCalls(w: World, gw: GatewayId, s: Script, failover: bool)
    requires Ready(w.pay)
    ensures var done := CallGateway(w, gw, s, failover);
            Calls(done.w.log) == Calls(w.log) + [Call(gw, w.pay.attempts[|w.pay.attempts| - 1].id,
                                                      Classify(s.answer, s.valid), done.tried.Gave?)]
  {
    var i := |w.pay.attempts| - 1;
    var w1 := w.(pay := Resolve(w.pay, i, Dispatched).p);
    var called := Called(gw, OpAuthorize, w.pay.attempts[i].id, s.answer, s.valid);
    var w2 := Note(w1, called);
    SettleCalls(w2, gw, i, s, failover);
    var done := Settle(w2, gw, i, s, failover);
    SeenConcluded(Calls(w.log), Call(gw, w.pay.attempts[i].id, Classify(s.answer, s.valid), false),
                  w.pay.attempts[i].id, done.tried.Gave?);
  }

  lemma SeenConcluded(calls: seq<Call>, c: Call, row: nat, ok: bool)
    ensures Seen(calls + [c], Concluded(row, ok)) == calls + [c.(ok := ok)]
  {
  }

  lemma AbandonCalls(w: World, gw: GatewayId, f: Fault)
    ensures Calls(Abandon(w, gw, OpAuthorize, f).w.log) == Calls(w.log)
  {
  }

  lemma TransmitCalls(w: World, gw: GatewayId, s: Script, failover: bool)
    ensures var a := Transmit(w, gw, s, failover);
            Calls(a.w.log) ==
            if s.saveFirst && Startable(w.pay)
            then Calls(w.log) + [Call(gw, w.nextId, Classify(s.answer, s.valid), a.tried.Gave?)]
            else Calls(w.log)
  {
    var c := Started(w.pay, w.nextId, gw);
    if c.Refused? {
      AbandonCalls(w, gw, Refusal(c.code));
    } else {
      var w1 := w.(pay := c.p, nextId := w.nextId + 1);
      if !s.saveFirst {
        AbandonCalls(w1, gw, StoreFailed);
      } else {
        CallGatewayCalls(Save(w1), gw, s, failover);
      }
    }
  }

  /** One attempt makes one call exactly when everything before the call goes well. */
  lemma AttemptCalls(w: World, gw: GatewayId, s: Script, failover: bool)
    ensures var a := AttemptOnce(w, gw, s, failover);
            Calls(a.w.log) ==
            if Reaches(s) && Startable(w.pay)
            then Calls(w.log) + [Call(gw, w.nextId, Classify(s.answer, s.valid), a.tried.Gave?)]
            else Calls(w.log)
  {
    var w1 := Note(w, Permitted(gw, OpAuthorize));
    AbandonCalls(Note(w1, Acquired(gw)), gw, GatewayBusy);
    TransmitCalls(Note(w1, Acquired(gw)), gw, s, failover);
  }

  // ----- what a call leaves behind -----

  /** Another call may follow this one without a charge on record being forgotten... */
  predicate MayContinue(c: Call) {
    || c.ending.TransportFailure?
    || c.ending == TurnedDown(true)
    || (!c.ok && c.ending in {Awaiting, ActionNeeded, TurnedDown(false)})
  }

  lemma AdvanceLeaves(p: Payment, i: nat, a: Answer, valid: bool, failover: bool)
    requires Sent(p, i)
    ensures var e := Classify(a, valid);
            var step := Advance(p, i, a, e, failover);
            && (e.Unknown? ==> HasUnresolved(step.p) && step.p == p.(attempts := step.p.attempts))
            && (e in {Approved, Taken} ==> HasSuccess(step.p))
            && (e.TurnedDown? && !LeavesLoopRunning(e, failover) && step.refused.None? ==> IsTerminal(step.p.state))
  {
    var e := Classify(a, valid);
    match e
    case Unknown => assert Resolve(p, i, TimeoutUnknown).p.attempts[i].outcome == TimeoutUnknown;
    case Approved => assert Resolve(p, i, Success).p.attempts[i].outcome == Success;
    case Taken => assert Resolve(p, i, Success).p.attempts[i].outcome == Success;
    case _ =>
  }

  /**
   * After a call that settled, the run either goes on or is answered with the stored row; after one
   * whose settling failed, the aggregate refuses any further attempt unless the call may continue.
   */
  predicate AttemptLeaves(a: Attempted, e: Ending, failover: bool) {
    match a.tried
    case Gave(v) =>
      && v.terminal == !LeavesLoopRunning(e, failover)
      && v.result == (if v.terminal then Some(a.w.row) else None)
      && (v.terminal <==> v.err.None?)
    case Erred(_) =>
      !Startable(a.w.pay) || MayContinue(Call("", 0, e, false))
  }

  lemma SettleLeaves(w: World, gw: GatewayId, i: nat, s: Script, failover: bool)
    requires Sent(w.pay, i)
    ensures var done := Settle(w, gw, i, s, failover);
            var e := Classify(s.answer, s.valid);
            AttemptLeaves(done, e, failover)
  {
    AdvanceLeaves(w.pay, i, s.answer, s.valid, failover);
  }

  lemma TransmitLeaves(w: World, gw: GatewayId, s: Script, failover: bool)
    requires s.saveFirst && Startable(w.pay)
    ensures AttemptLeaves(Transmit(w, gw, s, failover), Classify(s.answer, s.valid), failover)
  {
    var c := Started(w.pay, w.nextId, gw);
    var w1 := Save(w.(pay := c.p, nextId := w.nextId + 1));
    var i := |w1.pay.attempts| - 1;
    var w2 := Note(w1.(pay := Resolve(w1.pay, i, Dispatched).p),
                   Called(gw, OpAuthorize, w1.pay.attempts[i].id, s.answer, s.valid));
    SettleLeaves(w2, gw, i, s, failover);
  }

  // ----- the run -----

  function NewCalls(w: World, l: Loop): seq<Call>
    requires |Calls(w.log)| <= |Calls(l.w.log)|
  {
    Calls(l.w.log)[|Calls(w.log)|..]
  }

  /** Calls to pairwise distinct tried gateways, each but the last of a kind that may continue. */
  ghost predicate Orderly(calls: seq<Call>, tried: seq<GatewayId>, failover: bool) {
    && |calls| <= |tried|
    && (forall i :: 0 <= i < |calls| ==> calls[i].gw in tried)
    && (forall i, j :: 0 <= i < j < |calls| ==> calls[i].gw != calls[j].gw)
    && (forall i :: 0 <= i < |calls| - 1 ==> MayContinue(calls[i]))
    && (!failover ==> |calls| <= 1)
  }

  /** What holds between iterations of a run that has made these calls. */
  ghost predicate LoopOrderly(calls: seq<Call>, l: Loop, failover: bool) {
    && Orderly(calls, l.tried, failover)
    && (!failover && |l.tried| > 0 ==> l.Over())
    && (!l.Over() && calls != [] ==> MayContinue(calls[|calls| - 1]) || !Startable(l.w.pay))
    && (l.answer.Some? ==> l.answer.value == l.w.row)
  }

  /** And of a run begun in world w. */
  ghost predicate RunInvariant(w: World, failover: bool, l: Loop) {
    Calls(w.log) <= Calls(l.w.log) && LoopOrderly(NewCalls(w, l), l, failover)
  }

  lemma OrderlyExtends(calls: seq<Call>, tried: seq<GatewayId>, failover: bool, c: Call)
    requires Orderly(calls, tried, failover) && c.gw !in tried
    requires calls != [] ==> failover && MayContinue(calls[|calls| - 1])
    ensures Orderly(calls + [c], tried + [c.gw], failover)
  {
  }

  lemma {:induction false} NextIsNew(plan: seq<GatewayId>, tried: seq<GatewayId>)
    ensures Next(plan, tried).Some? ==> Next(plan, tried).value in plan && Next(plan, tried).value !in tried
  {
    if plan != [] && plan[0] in tried {
      NextIsNew(plan[1..], tried);
    }
  }

  /** The gateway tried next is the first of the plan not tried yet, and there is none exactly if all were. */
  lemma {:induction false} NextIsFirst(plan: seq<GatewayId>, tried: seq<GatewayId>, i: nat)
    requires i <= |plan| && (forall j :: 0 <= j < i ==> plan[j] in tried) && (i < |plan| ==> plan[i] !in tried)
    ensures Next(plan, tried) == if i < |plan| then Some(plan[i]) else None
    decreases i
  {
    if i > 0 {
      assert plan[0] in tried;
      NextIsFirst(plan[1..], tried, i - 1);
    }
  }

  /** An attempt that makes no call does not make the payment startable again. */
  lemma NoCallNoRevival(w: World, gw: GatewayId, s: Script, failover: bool)
    requires !Startable(w.pay)
    ensures AttemptOnce(w, gw, s, failover).w.pay == w.pay
  {
  }

  lemma AttemptVerdict(w: World, gw: GatewayId, s: Script, failover: bool)
    ensures var a := AttemptOnce(w, gw, s, failover);
            if Reaches(s) && Startable(w.pay)
            then AttemptLeaves(a, Classify(s.answer, s.valid), failover)
            else a.tried.Erred?
  {
    if Reaches(s) && Startable(w.pay) {
      TransmitLeaves(Note(Note(w, Permitted(gw, OpAuthorize)), Acquired(gw)), gw, s, failover);
    }
  }

  lemma AbsorbCalled(calls: seq<Call>, l: Loop, gw: GatewayId, a: Attempted, e: Ending, failover: bool)
    requires LoopOrderly(calls, l, failover) && !l.Over() && gw !in l.tried
    requires Startable(l.w.pay) && AttemptLeaves(a, e, failover)
    ensures LoopOrderly(calls + [Call(gw, l.w.nextId, e, a.tried.Gave?)], Absorb(l, gw, a, failover), failover)
  {
    OrderlyExtends(calls, l.tried, failover, Call(gw, l.w.nextId, e, a.tried.Gave?));
  }

  lemma AbsorbUncalled(calls: seq<Call>, l: Loop, gw: GatewayId, a: Attempted, failover: bool)
    requires LoopOrderly(calls, l, failover) && !l.Over() && a.tried.Erred?
    requires !Startable(l.w.pay) ==> a.w.pay == l.w.pay
    ensures LoopOrderly(calls, Absorb(l, gw, a, failover), failover)
  {
  }

  lemma NewCallsGrow(w: World, l: Loop, l1: Loop, c: Call)
    requires Calls(w.log) <= Calls(l.w.log)
    ensures Calls(l1.w.log) == Calls(l.w.log) ==>
      Calls(w.log) <= Calls(l1.w.log) && NewCalls(w, l1) == NewCalls(w, l)
    ensures Calls(l1.w.log) == Calls(l.w.log) + [c] ==>
      Calls(w.log) <= Calls(l1.w.log) && NewCalls(w, l1) == NewCalls(w, l) + [c]
  {
  }

  lemma IterateKeeps(w: World, l: Loop, plan: seq<GatewayId>, s: Script, failover: bool)
    requires RunInvariant(w, failover, l) && !l.Over()
    ensures RunInvariant(w, failover, Iterate(l, plan, s, failover))
  {
    NextIsNew(plan, l.tried);
    var next := Next(plan, l.tried);
    if next.Some? {
      var gw, e := next.value, Classify(s.answer, s.valid);
      var a := AttemptOnce(l.w, gw, s, failover);
      AttemptCalls(l.w, gw, s, failover);
      AttemptVerdict(l.w, gw, s, failover);
      NewCallsGrow(w, l, Absorb(l, gw, a, failover), Call(gw, l.w.nextId, e, a.tried.Gave?));
      if Reaches(s) && Startable(l.w.pay) {
        AbsorbCalled(NewCalls(w, l), l, gw, a, e, failover);
      } else {
        if !Startable(l.w.pay) {
          NoCallNoRevival(l.w, gw, s, failover);
        }
        AbsorbUncalled(NewCalls(w, l), l, gw, a, failover);
      }
    }
  }

  lemma RunKeeps(w: World, plan: seq<GatewayId>, env: nat -> Script, settings: Settings)
    ensures RunInvariant(w, settings.failover, Run(w, plan, env, settings))
  {
    var f := settings.failover;
    var step := Stepping(plan, env, f);
    forall m, i | RunInvariant(w, f, m) && !m.Over()
      ensures RunInvariant(w, f, step(m, i))
    {
      IterateKeeps(w, m, plan, env(i), f);
    }
    RepeatKeeps(step, Start(w), Budget(settings), m => RunInvariant(w, f, m));
  }

  lemma {:induction false} TriedBounded(step: (Loop, nat) -> Loop, l: Loop, k: nat)
    requires forall m, i :: |step(m, i).tried| <= |m.tried| + 1
    ensures |Repeat(step, l, k).tried| <= |l.tried| + k
  {
    if k > 0 {
      TriedBounded(step, l, k - 1);
    }
  }

  /**
   * In every run: the gateways called are pairwise distinct and at most MaxAttempts, at most one
   * with failover off; and a call is followed by another only if it ended in a transport failure or
   * a soft decline, or if settling it failed and it had ended pending, awaiting the payer, or in a
   * hard decline. An authorized, captured or unknown call is always the last, whatever fails.
   */
  lemma DispatchCalls(w: World, plan: seq<GatewayId>, env: nat -> Script, settings: Settings)
    ensures var l := Run(w, plan, env, settings);
            && Calls(w.log) <= Calls(l.w.log)
            && var calls := NewCalls(w, l);
            && |calls| <= Budget(settings) && (!settings.failover ==> |calls| <= 1)
            && (forall i, j :: 0 <= i < j < |calls| ==> calls[i].gw != calls[j].gw)
            && (forall i :: 0 <= i < |calls| - 1 ==> MayContinue(calls[i]))
  {
    RunKeeps(w, plan, env, settings);
    var step := Stepping(plan, env, settings.failover);
    forall m: Loop, i
      ensures |step(m, i).tried| <= |m.tried| + 1
    {
      IterateTries(m, plan, env(i), settings.failover);
    }
    TriedBounded(step, Start(w), Budget(settings));
  }

  lemma IterateTries(l: Loop, plan: seq<GatewayId>, s: Script, failover: bool)
    ensures |Iterate(l, plan, s, failover).tried| <= |l.tried| + 1
  {
  }

  /** No call that may have charged the payer is followed by another. */
  ghost predicate SingleCharge(calls: seq<Call>) {
    forall i :: 0 <= i < |calls| - 1 ==> !MayCharge(calls[i].ending)
  }

  /** A call whose answer parked the payment and whose settling failed, or one that timed out with a response. */
  predicate Exposes(c: Call) {
    (c.ending in {Awaiting, ActionNeeded} && !c.ok) || c.ending == TransportFailure(true)
  }

  /** The run went on after such a call. */
  ghost predicate Exposed(calls: seq<Call>) {
    exists i :: 0 <= i < |calls| - 1 && Exposes(calls[i])
  }

  /** Two charges for one instruction are possible in exactly these two ways. */
  lemma SingleChargeIff(w: World, plan: seq<GatewayId>, env: nat -> Script, settings: Settings)
    ensures Calls(w.log) <= Calls(Run(w, plan, env, settings).w.log)
    ensures SingleCharge(NewCalls(w, Run(w, plan, env, settings)))
            <==> !Exposed(NewCalls(w, Run(w, plan, env, settings)))
  {
    DispatchCalls(w, plan, env, settings);
  }

  /** No call but the last timed out with a response. */
  ghost predicate NoneLate(calls: seq<Call>) {
    forall i :: 0 <= i < |calls| - 1 ==> calls[i].ending != TransportFailure(true)
  }

  /**
   * In particular, if every call settled without error, or failover is off, every call but the last ended in a
   * transport failure or a soft decline, and there is one charge at most exactly if none of those failures was late.
   */
  lemma SingleChargeWhenSettled(w: World, plan: seq<GatewayId>, env: nat -> Script, settings: Settings)
    requires Calls(w.log) <= Calls(Run(w, plan, env, settings).w.log)
    requires var calls := NewCalls(w, Run(w, plan, env, settings));
             !settings.failover || forall i :: 0 <= i < |calls| ==> calls[i].ok
    ensures var calls := NewCalls(w, Run(w, plan, env, settings));
            && (SingleCharge(calls) <==> NoneLate(calls))
            && forall i :: 0 <= i < |calls| - 1 ==>
                 calls[i].ending.TransportFailure? || calls[i].ending == TurnedDown(true)
  {
    DispatchCalls(w, plan, env, settings);
  }

  /** Dispatch answers with a payment or with an error, never with both and never with neither. */
  lemma DispatchAnswers(w: World, plan: seq<GatewayId>, env: nat -> Script, settings: Settings, reload: bool)
    ensures var l := Run(w, plan, env, settings);
            var r := Conclude(l, reload);
            && (r.result.Some? <==> r.err.None?)
            && (r.result.Some? ==> r.result.value == l.w.row)
  {
    RunKeeps(w, plan, env, settings);
  }

  // ----- when Dispatch answers with an error -----

  /** A loop that has tried a gateway, has no answer and fails over remembers an error; one that tried none does not. */
  predicate Remembers(l: Loop, failover: bool) {
    && (failover && |l.tried| > 0 && l.answer.None? ==> l.lastErr.Some?)
    && (|l.tried| == 0 ==> l.lastErr.None?)
  }

  lemma AttemptJudges(w: World, gw: GatewayId, s: Script, failover: bool)
    ensures var t := AttemptOnce(w, gw, s, failover).tried;
      t.Gave? ==> (if t.verdict.terminal then t.verdict.result.Some? else t.verdict.err.Some?)
  {
  }

  lemma IterateRemembers(l: Loop, plan: seq<GatewayId>, s: Script, failover: bool)
    requires Remembers(l, failover)
    ensures Remembers(Iterate(l, plan, s, failover), failover)
  {
    var next := Next(plan, l.tried);
    if next.Some? {
      AttemptJudges(l.w, next.value, s, failover);
    }
  }

  lemma RunRemembers(w: World, plan: seq<GatewayId>, env: nat -> Script, settings: Settings)
    ensures Remembers(Run(w, plan, env, settings), settings.failover)
  {
    var f := settings.failover;
    var step := Stepping(plan, env, f);
    forall m: Loop, i | Remembers(m, f)
      ensures Remembers(step(m, i), f)
    {
      IterateRemembers(m, plan, env(i), f);
    }
    RepeatKeeps(step, Start(w), Budget(settings), (m: Loop) => Remembers(m, f));
  }

  /** A loop has tried a gateway if it has run and the plan names one. */
  predicate HasTried(l: Loop, plan: seq<GatewayId>, k: nat) {
    (|l.tried| > 0 <==> plan != [] && k > 0) && (l.Over() ==> k > 0)
  }

  lemma IterateHasTried(l: Loop, plan: seq<GatewayId>, s: Script, failover: bool, k: nat)
    requires HasTried(l, plan, k)
    ensures HasTried(Iterate(l, plan, s, failover), plan, k + 1)
  {
  }

  lemma {:induction false} RunTries(w: World, plan: seq<GatewayId>, env: nat -> Script, failover: bool, k: nat)
    ensures HasTried(Prefix(w, plan, env, failover, k), plan, k)
  {
    if k > 0 {
      RunTries(w, plan, env, failover, k - 1);
      var m := Prefix(w, plan, env, failover, k - 1);
      if !m.Over() {
        RunGoesOn(w, plan, env, failover, k - 1, m);
        IterateHasTried(m, plan, env(k - 1), failover, k - 1);
      }
    }
  }

  /** Without failover a run is its first iteration. */
  lemma WithoutFailover(w: World, plan: seq<GatewayId>, env: nat -> Script, settings: Settings)
    requires !settings.failover && plan != [] && settings.maxAttempts > 0
    ensures var a := AttemptOnce(w, plan[0], env(0), false);
      Run(w, plan, env, settings) == Absorb(Start(w), plan[0], a, false)
  {
    AttemptJudges(w, plan[0], env(0), false);
    var l := Prefix(w, plan, env, false, 1);
    RunGoesOn(w, plan, env, false, 0, Start(w));
    assert Next(plan, []) == Some(plan[0]);
    RunEnds(w, plan, env, settings, 1, l);
  }

  /**
   * A run that no attempt ended is answered with an error exactly if the final read fails, or it finds the payment not
   * in flight after an attempt was made; without failover, only if that attempt reported an error.
   */
  lemma DispatchErrsIff(w: World, plan: seq<GatewayId>, env: nat -> Script, settings: Settings, reload: bool)
    ensures var l := Run(w, plan, env, settings);
      Conclude(l, reload).err.Some? <==>
        && l.answer.None?
        && (reload ==>
              && l.w.row.state !in {Processing, Pending, RequiresAction}
              && plan != [] && settings.maxAttempts > 0
              && (settings.failover || AttemptOnce(w, plan[0], env(0), false).tried.Erred?))
  {
    RunRemembers(w, plan, env, settings);
    RunTries(w, plan, env, settings.failover, Budget(settings));
    if !settings.failover && plan != [] && settings.maxAttempts > 0 {
      WithoutFailover(w, plan, env, settings);
    }
  }

  // ----- the unknown exits -----

  /** The gateway answered without error, and the validator let the answer through. */
  predicate Believable(s: Script) {
    s.answer.err.None? && s.answer.resp.Some? && s.valid
  }

  /** The five ways an answer is read as unknown. */
  predicate UnknownExit(a: Answer, valid: bool) {
    || (a.err.Some? && a.err.value.unknown)
    || (a.err.Some? && a.resp.None? && a.err.value.timeout)
    || (a.err.None? && a.resp.None?)
    || (a.err.None? && a.resp.Some? && !valid)
    || (a.err.None? && a.resp.Some? && a.resp.value.status in
          {StatusRefundAccepted, StatusRefunded, StatusVoided, StatusFailed, StatusOther})
  }

  /**
   * They are exactly the answers read as unknown. None of them moves the payment, in memory or in the
   * store: only the attempt is marked, and no further attempt can start.
   */
  lemma UnknownMovesNothing(w: World, gw: GatewayId, i: nat, s: Script, failover: bool)
    requires Sent(w.pay, i)
    ensures UnknownExit(s.answer, s.valid) <==> Classify(s.answer, s.valid).Unknown?
    ensures UnknownExit(s.answer, s.valid) ==>
              var done := Settle(w, gw, i, s, failover).w;
              && done.pay == w.pay.(attempts := w.pay.attempts[i := w.pay.attempts[i].(outcome := TimeoutUnknown)])
              && !Startable(done.pay)
              && done.row == (if s.commit then done.pay else w.row)
  {
    if UnknownExit(s.answer, s.valid) {
      AdvanceLeaves(w.pay, i, s.answer, s.valid, failover);
    }
  }
}
