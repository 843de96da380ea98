/** When one instruction can charge the payer twice, in terms of the plan and of what the environment answers. */
module ChargeTheorems {
  import opened PaymentAggregate
  import opened DispatchSpec
  import opened DispatchTheorems
  import opened Options

  // ----- what one attempt leaves, with failover on -----

  /** PROCESSING if the state machine lets the payment move there, otherwise where it was. */
  function StateWhileCalling(s: State): State {
    if CanMove(s, Processing) then Processing else s
  }

  /** Whether a further attempt can be made, and in which state of the payment. */
  datatype Track = Stopped | Going(state: State)

  /** Settling an answer that parks the payment in `target` leaves no run to go on, unless it fails. */
  function AfterParking(st: State, target: State, s: Script): Track {
    if !CanMove(st, target) then Going(st)
    else if s.commit && s.reload then Stopped
    else Going(target)
  }

  function AfterAnswer(st: State, s: Script): Track {
    match Classify(s.answer, s.valid)
    case TransportFailure(_) => Going(st)
    case Awaiting => AfterParking(st, Pending, s)
    case ActionNeeded => AfterParking(st, RequiresAction, s)
    case TurnedDown(soft) => if soft || !CanMove(st, Failed) then Going(st) else Stopped
    case _ => Stopped
  }

  /** The track after an attempt that meets the answers s. */
  function After(t: Track, s: Script): Track {
    if t.Stopped? || !s.allow || !s.acquire || !s.resolve then t
    else if !s.saveFirst then Going(StateWhileCalling(t.state))
    else AfterAnswer(StateWhileCalling(t.state), s)
  }

  /** The attempt was answered, or the aggregate refuses the next one. */
  predicate Ends(a: Attempted) {
    !Startable(a.w.pay) || (a.tried.Gave? && a.tried.verdict.terminal)
  }

  predicate Follows(a: Attempted, t: Track) {
    if t.Stopped? then Ends(a) else !Ends(a) && a.w.pay.state == t.state
  }

  lemma ResolvedStartable(p: Payment, q: Payment, i: nat)
    requires i < |p.attempts| && !HasSuccess(p) && !HasUnresolved(p)
    requires |q.attempts| == |p.attempts| && q.attempts == p.attempts[i := q.attempts[i]]
    requires q.attempts[i].outcome != Success && q.attempts[i].outcome != TimeoutUnknown
    ensures Startable(q) <==> !IsTerminal(q.state)
    ensures !HasUnresolved(q)
  {
    assert forall k :: 0 <= k < |p.attempts| && k != i ==> q.attempts[k] == p.attempts[k];
  }

  lemma StartedStartable(p: Payment, id: nat, gw: GatewayId)
    requires Startable(p)
    ensures var c := Started(p, id, gw);
      c.Changed? && Ready(c.p) && Startable(c.p) && c.p.state == StateWhileCalling(p.state)
  {
    var q := Started(p, id, gw).p;
    assert forall k :: 0 <= k < |p.attempts| ==> q.attempts[k] == p.attempts[k];
  }

  lemma DeclineTracks(p: Payment, i: nat, s: Script)
    requires Sent(p, i) && Startable(p) && Classify(s.answer, s.valid).TurnedDown?
    ensures var e := Classify(s.answer, s.valid);
      var step := Advance(p, i, s.answer, e, true);
      var goes := e.soft || !CanMove(p.state, Failed);
      && (step.refused.None? <==> e.soft || CanMove(p.state, Failed))
      && (Startable(step.p) <==> goes) && (goes ==> step.p.state == p.state)
  {
    var e := Classify(s.answer, s.valid);
    var lost := Decline(p, i, s.answer.resp.value.reason, s.answer.resp.value.noRetry).p;
    ResolvedStartable(p, lost, i);
    ResolvedStartable(p, lost.(state := Failed), i);
  }

  lemma AdvanceTracks(p: Payment, i: nat, s: Script)
    requires Sent(p, i) && Startable(p)
    ensures var e := Classify(s.answer, s.valid);
      var step := Advance(p, i, s.answer, e, true);
      && (e in {Unknown, Approved, Taken} ==> !Startable(step.p))
      && (e.TransportFailure? ==> step.refused.None? && Startable(step.p) && step.p.state == p.state)
      && (e.Awaiting? ==> step == Then(MoveTo(p, Pending), p))
      && (e.ActionNeeded? ==> step == Then(MoveTo(p, RequiresAction), p))
  {
    AdvanceLeaves(p, i, s.answer, s.valid, true);
    if Classify(s.answer, s.valid).TransportFailure? {
      ResolvedStartable(p, Resolve(p, i, Error).p, i);
    }
  }

  /** Settle, case by case. */
  lemma SettleIs(w: World, gw: GatewayId, i: nat, s: Script, step: Step)
    requires Sent(w.pay, i) && step == Advance(w.pay, i, s.answer, Classify(s.answer, s.valid), true)
    ensures var done := Settle(w, gw, i, s, true);
      && done.w.pay == step.p
      && (done.tried.Gave? && done.tried.verdict.terminal <==>
            step.refused.None? && s.commit && s.reload && !LeavesLoopRunning(Classify(s.answer, s.valid), true))
  {
  }

  lemma SettleTracks(w: World, gw: GatewayId, i: nat, s: Script)
    requires Sent(w.pay, i) && Startable(w.pay)
    ensures Follows(Settle(w, gw, i, s, true), AfterAnswer(w.pay.state, s))
  {
    var e := Classify(s.answer, s.valid);
    SettleIs(w, gw, i, s, Advance(w.pay, i, s.answer, e, true));
    AdvanceTracks(w.pay, i, s);
    if e.TurnedDown? {
      DeclineTracks(w.pay, i, s);
    }
  }

  lemma CallTracks(w: World, gw: GatewayId, s: Script)
    requires Ready(w.pay) && Startable(w.pay)
    ensures Follows(CallGateway(w, gw, s, true), AfterAnswer(w.pay.state, s))
  {
    var i := |w.pay.attempts| - 1;
    var q := Resolve(w.pay, i, Dispatched).p;
    ResolvedStartable(w.pay, q, i);
    SettleTracks(Note(w.(pay := q), Called(gw, OpAuthorize, w.pay.attempts[i].id, s.answer, s.valid)), gw, i, s);
  }

  lemma TransmitTracks(w: World, gw: GatewayId, s: Script)
    requires Startable(w.pay)
    ensures Follows(Transmit(w, gw, s, true),
                    if s.saveFirst then AfterAnswer(StateWhileCalling(w.pay.state), s)
                    else Going(StateWhileCalling(w.pay.state)))
  {
    var c := Started(w.pay, w.nextId, gw);
    StartedStartable(w.pay, w.nextId, gw);
    TransmitIs(w, gw, s, true, c);
    var w1 := w.(pay := c.p, nextId := w.nextId + 1);
    CallTracks(Save(w1), gw, s);
  }

  lemma AttemptTracks(w: World, gw: GatewayId, s: Script)
    requires Startable(w.pay)
    ensures Follows(AttemptOnce(w, gw, s, true), After(Going(w.pay.state), s))
  {
    TransmitTracks(Note(Note(w, Permitted(gw, OpAuthorize)), Acquired(gw)), gw, s);
  }

  // ----- the plan -----

  function Gateways(plan: seq<GatewayId>): set<GatewayId> {
    set g | g in plan
  }

  ghost predicate AllDistinct(tried: seq<GatewayId>) {
    forall i, j :: 0 <= i < j < |tried| ==> tried[i] != tried[j]
  }

  lemma {:induction false} NextCovers(plan: seq<GatewayId>, tried: seq<GatewayId>)
    ensures Next(plan, tried).None? ==> Gateways(plan) <= Gateways(tried)
  {
    if plan != [] && plan[0] in tried {
      NextCovers(plan[1..], tried);
      assert forall g :: g in plan ==> g == plan[0] || g in plan[1..];
      assert Next(plan, tried).None? ==> forall g :: g in plan[1..] ==> g in Gateways(plan[1..]);
    }
  }

  lemma {:induction false} DistinctCount(tried: seq<GatewayId>)
    requires AllDistinct(tried)
    ensures |Gateways(tried)| == |tried|
  {
    if tried != [] {
      var n := |tried| - 1;
      DistinctCount(tried[..n]);
      assert Gateways(tried) == Gateways(tried[..n]) + {tried[n]};
    }
  }

  lemma SubsetCount(a: set<GatewayId>, b: set<GatewayId>)
    requires a <= b
    ensures |a| <= |b| && (|a| == |b| ==> a == b)
    decreases b
  {
    if x :| x in b {
      if x in a {
        SubsetCount(a - {x}, b - {x});
        assert a == a - {x} + {x} && b == b - {x} + {x};
      } else if a <= b - {x} {
        SubsetCount(a, b - {x});
      }
    }
  }

  /** There is a next gateway exactly while fewer than the plan's distinct gateways were tried. */
  lemma NextWhileFewer(plan: seq<GatewayId>, tried: seq<GatewayId>)
    requires AllDistinct(tried) && Gateways(tried) <= Gateways(plan)
    ensures |tried| <= |Gateways(plan)|
    ensures Next(plan, tried).Some? <==> |tried| < |Gateways(plan)|
  {
    NextCovers(plan, tried);
    NextIsNew(plan, tried);
    DistinctCount(tried);
    SubsetCount(Gateways(tried), Gateways(plan));
    if Next(plan, tried).Some? {
      assert Next(plan, tried).value in Gateways(plan) && Next(plan, tried).value !in Gateways(tried);
    } else {
      SubsetCount(Gateways(plan), Gateways(tried));
    }
  }

  // ----- the run, with failover on -----

  /** The track before iteration k of a run on payment p. */
  function TrackAt(p: Payment, env: nat -> Script, k: nat): Track {
    if k == 0 then (if Startable(p) then Going(p.state) else Stopped)
    else After(TrackAt(p, env, k - 1), env(k - 1))
  }

  /** Iteration k calls a gateway. */
  predicate Rings(p: Payment, env: nat -> Script, k: nat) {
    TrackAt(p, env, k).Going? && Reaches(env(k))
  }

  /** The payer may be charged, and the run may go on: pending, awaiting the payer, or a timeout with a response. */
  predicate LeavesOpen(s: Script) {
    Classify(s.answer, s.valid) in {Awaiting, ActionNeeded, TransportFailure(true)}
  }

  function Ended(env: nat -> Script, k: nat): Ending {
    Classify(env(k).answer, env(k).valid)
  }

  /** One of the first k iterations may have charged the payer. */
  predicate Charged(p: Payment, env: nat -> Script, k: nat) {
    k > 0 && (Charged(p, env, k - 1) || (Rings(p, env, k - 1) && MayCharge(Ended(env, k - 1))))
  }

  /** One of the first k iterations called a gateway after the payer may have been charged. */
  predicate ChargedAgain(p: Payment, env: nat -> Script, k: nat) {
    k > 0 && (ChargedAgain(p, env, k - 1) || (Rings(p, env, k - 1) && Charged(p, env, k - 1)))
  }

  ghost predicate AnyCharge(calls: seq<Call>) {
    exists i :: 0 <= i < |calls| && MayCharge(calls[i].ending)
  }

  lemma OneMoreCall(calls: seq<Call>, c: Call)
    ensures AnyCharge(calls + [c]) <==> AnyCharge(calls) || MayCharge(c.ending)
    ensures SingleCharge(calls + [c]) <==> SingleCharge(calls) && !AnyCharge(calls)
  {
    var more := calls + [c];
    assert forall i :: 0 <= i < |calls| ==> more[i] == calls[i];
    assert more[|calls|] == c;
    if AnyCharge(calls) {
      var i :| 0 <= i < |calls| && MayCharge(calls[i].ending);
      assert MayCharge(more[i].ending);
    }
  }

  /** The loop agrees with the track and with the charges counted so far. */
  ghost predicate Agrees(w: World, plan: seq<GatewayId>, env: nat -> Script, k: nat, l: Loop) {
    && Calls(w.log) <= Calls(l.w.log)
    && (AnyCharge(NewCalls(w, l)) <==> Charged(w.pay, env, k))
    && (SingleCharge(NewCalls(w, l)) <==> !ChargedAgain(w.pay, env, k))
    && Tracked(plan, k, l, TrackAt(w.pay, env, k))
  }

  ghost predicate Tracked(plan: seq<GatewayId>, k: nat, l: Loop, t: Track) {
    && (l.Over() ==> t.Stopped?)
    && (!l.Over() ==> |l.tried| == k && AllDistinct(l.tried) && Gateways(l.tried) <= Gateways(plan))
    && (!l.Over() ==> if t.Stopped? then !Startable(l.w.pay) else Startable(l.w.pay) && l.w.pay.state == t.state)
  }

  lemma AbsorbTracks(plan: seq<GatewayId>, k: nat, l: Loop, gw: GatewayId, a: Attempted, t: Track)
    requires !l.Over() && |l.tried| == k && AllDistinct(l.tried) && Gateways(l.tried) <= Gateways(plan)
    requires gw in plan && gw !in l.tried
    requires a.tried.Gave? && a.tried.verdict.terminal ==> a.tried.verdict.result.Some?
    requires Follows(a, t)
    ensures Tracked(plan, k + 1, Absorb(l, gw, a, true), t)
  {
    var l1 := Absorb(l, gw, a, true);
    assert l1.tried == l.tried + [gw];
    assert Gateways(l1.tried) == Gateways(l.tried) + {gw};
  }

  /** One attempt: it calls exactly if the track goes on and everything before the call goes well. */
  lemma AttemptAgrees(w: World, gw: GatewayId, s: Script, t: Track)
    requires if t.Stopped? then !Startable(w.pay) else Startable(w.pay) && w.pay.state == t.state
    ensures var a := AttemptOnce(w, gw, s, true);
      && Follows(a, After(t, s))
      && (a.tried.Gave? && a.tried.verdict.terminal ==> a.tried.verdict.result.Some?)
      && Calls(a.w.log) == if t.Going? && Reaches(s)
                           then Calls(w.log) + [Call(gw, w.nextId, Classify(s.answer, s.valid), a.tried.Gave?)]
                           else Calls(w.log)
  {
    AttemptCalls(w, gw, s, true);
    AttemptVerdict(w, gw, s, true);
    if t.Going? {
      AttemptTracks(w, gw, s);
    } else {
      NoCallNoRevival(w, gw, s, true);
    }
  }

  lemma IterateAgrees(w: World, plan: seq<GatewayId>, env: nat -> Script, k: nat, l: Loop)
    requires Agrees(w, plan, env, k, l) && !l.Over() && k < |Gateways(plan)|
    ensures Agrees(w, plan, env, k + 1, Iterate(l, plan, env(k), true))
  {
    NextWhileFewer(plan, l.tried);
    NextIsNew(plan, l.tried);
    var gw, t := Next(plan, l.tried).value, TrackAt(w.pay, env, k);
    var a := AttemptOnce(l.w, gw, env(k), true);
    AttemptAgrees(l.w, gw, env(k), t);
    AbsorbTracks(plan, k, l, gw, a, After(t, env(k)));
    CallsAgree(w, env, k, l, Absorb(l, gw, a, true), Call(gw, l.w.nextId, Ended(env, k), a.tried.Gave?));
  }

  lemma CallsAgree(w: World, env: nat -> Script, k: nat, l: Loop, l1: Loop, c: Call)
    requires Calls(w.log) <= Calls(l.w.log) && c.ending == Ended(env, k)
    requires Calls(l1.w.log) == if Rings(w.pay, env, k) then Calls(l.w.log) + [c] else Calls(l.w.log)
    requires AnyCharge(NewCalls(w, l)) <==> Charged(w.pay, env, k)
    requires SingleCharge(NewCalls(w, l)) <==> !ChargedAgain(w.pay, env, k)
    ensures Calls(w.log) <= Calls(l1.w.log)
    ensures AnyCharge(NewCalls(w, l1)) <==> Charged(w.pay, env, k + 1)
    ensures SingleCharge(NewCalls(w, l1)) <==> !ChargedAgain(w.pay, env, k + 1)
  {
    if Rings(w.pay, env, k) {
      assert NewCalls(w, l1) == NewCalls(w, l) + [c];
      OneMoreCall(NewCalls(w, l), c);
    }
  }

  lemma RepeatAgrees(w: World, plan: seq<GatewayId>, env: nat -> Script, k: nat)
    requires k <= |Gateways(plan)|
    ensures Agrees(w, plan, env, k, Repeat(Stepping(plan, env, true), Start(w), k))
  {
    assert NewCalls(w, Start(w)) == [];
    for i := 0 to k
      invariant Agrees(w, plan, env, i, Repeat(Stepping(plan, env, true), Start(w), i))
    {
      var l := Repeat(Stepping(plan, env, true), Start(w), i);
      if !l.Over() {
        IterateAgrees(w, plan, env, i, l);
      }
    }
  }

  /** Once the plan is used up, nothing is called any more. */
  lemma {:induction false} UsedUp(w: World, plan: seq<GatewayId>, env: nat -> Script, k: nat)
    requires k >= |Gateways(plan)|
    ensures var step := Stepping(plan, env, true);
      Repeat(step, Start(w), k).w == Repeat(step, Start(w), |Gateways(plan)|).w
  {
    var step, n := Stepping(plan, env, true), |Gateways(plan)|;
    var l := Repeat(step, Start(w), n);
    if l.Over() {
      OverStays(step, Start(w), n, k);
    } else if k > n {
      RepeatAgrees(w, plan, env, n);
      NextWhileFewer(plan, l.tried);
      assert Next(plan, l.tried).None?;
      assert step(l, n) == Iterate(l, plan, env(n), true);
      OverStays(step, Start(w), n + 1, k);
    }
  }

  // ----- the condition, spelled out -----

  lemma {:induction false} ChargedFrom(p: Payment, env: nat -> Script, i: nat, k: nat)
    requires i < k && Rings(p, env, i) && MayCharge(Ended(env, i))
    ensures Charged(p, env, k)
  {
    if i < k - 1 {
      ChargedFrom(p, env, i, k - 1);
    }
  }

  lemma {:induction false} ChargedAt(p: Payment, env: nat -> Script, k: nat) returns (i: nat)
    requires Charged(p, env, k)
    ensures i < k && Rings(p, env, i) && MayCharge(Ended(env, i))
  {
    if Charged(p, env, k - 1) {
      i := ChargedAt(p, env, k - 1);
    } else {
      i := k - 1;
    }
  }

  lemma {:induction false} StoppedStays(p: Payment, env: nat -> Script, i: nat, j: nat)
    requires i <= j && TrackAt(p, env, i).Stopped?
    ensures TrackAt(p, env, j).Stopped?
  {
    if i < j {
      StoppedStays(p, env, i, j - 1);
    }
  }

  /** A call that may have charged the payer lets a later one through only if it leaves the charge open. */
  lemma OnlyOpenGoesOn(p: Payment, env: nat -> Script, i: nat, j: nat)
    requires i < j && Rings(p, env, i) && TrackAt(p, env, j).Going? && MayCharge(Ended(env, i))
    ensures LeavesOpen(env(i))
  {
    if TrackAt(p, env, i + 1).Stopped? {
      StoppedStays(p, env, i + 1, j);
    }
  }

  /** Iterations i and j of the run both call a gateway, and the first leaves a charge open. */
  predicate CalledAgain(p: Payment, env: nat -> Script, i: nat, j: nat) {
    i < j && Rings(p, env, i) && LeavesOpen(env(i)) && Rings(p, env, j)
  }

  lemma {:induction false} AgainFrom(p: Payment, env: nat -> Script, i: nat, j: nat, n: nat)
    requires j < n && CalledAgain(p, env, i, j)
    ensures ChargedAgain(p, env, n)
  {
    if j < n - 1 {
      AgainFrom(p, env, i, j, n - 1);
    } else {
      ChargedFrom(p, env, i, j);
    }
  }

  lemma {:induction false} AgainAt(p: Payment, env: nat -> Script, n: nat) returns (i: nat, j: nat)
    requires ChargedAgain(p, env, n)
    ensures j < n && CalledAgain(p, env, i, j)
  {
    if ChargedAgain(p, env, n - 1) {
      i, j := AgainAt(p, env, n - 1);
    } else {
      j := n - 1;
      i := ChargedAt(p, env, j);
      OnlyOpenGoesOn(p, env, i, j);
    }
  }

  /** How many iterations can call a gateway. */
  function Reach(plan: seq<GatewayId>, settings: Settings): nat {
    if Budget(settings) < |Gateways(plan)| then Budget(settings) else |Gateways(plan)|
  }

  /**
   * A run calls a gateway after one that may have charged the payer exactly if failover is on and, within the budget
   * and the plan, an iteration leaves a charge open and a later one calls. With gateways in between that cannot be
   * reached, fail in transport or decline; with the payment in any state.
   */
  lemma SecondChargeIff(w: World, plan: seq<GatewayId>, env: nat -> Script, settings: Settings)
    ensures Calls(w.log) <= Calls(Run(w, plan, env, settings).w.log)
    ensures !SingleCharge(NewCalls(w, Run(w, plan, env, settings))) <==>
            && settings.failover
            && exists i, j :: 0 <= i < j < Reach(plan, settings) && CalledAgain(w.pay, env, i, j)
  {
    DispatchCalls(w, plan, env, settings);
    if settings.failover {
      var n := Reach(plan, settings);
      RepeatAgrees(w, plan, env, n);
      if Budget(settings) >= |Gateways(plan)| {
        UsedUp(w, plan, env, Budget(settings));
      }
      if ChargedAgain(w.pay, env, n) {
        var i, j := AgainAt(w.pay, env, n);
      }
      forall i, j | 0 <= i < j < n && CalledAgain(w.pay, env, i, j)
        ensures ChargedAgain(w.pay, env, n)
      {
        AgainFrom(w.pay, env, i, j, n);
      }
    }
  }

  /**
   * The promise does not hold: two gateways, both answering that the charge is pending, and a store that cannot commit
   * the answers. The second gateway is called.
   */
  lemma PendingAndUnsaved(w: World)
    requires w.pay.state == Created && w.pay.attempts == []
    ensures var pending := Answer(Some(Response(StatusPending, "ref", None, None, Unclassified, false)), None);
      var env := (_: nat) => Script(true, true, true, true, pending, true, false, true);
      var l := Run(w, ["a", "b"], env, Settings(2, true));
      && Calls(w.log) <= Calls(l.w.log)
      && !SingleCharge(NewCalls(w, l))
  {
    var pending := Answer(Some(Response(StatusPending, "ref", None, None, Unclassified, false)), None);
    var env := (_: nat) => Script(true, true, true, true, pending, true, false, true);
    LeftOpenAndCalled(w.pay, env, env(0));
    TwoGateways();
    SecondChargeIff(w, ["a", "b"], env, Settings(2, true));
  }

  /**
   * Nor when everything is saved: a gateway whose call times out, but came with a response, is taken not to have acted.
   * The second gateway is called.
   */
  lemma TimedOutWithResponse(w: World, resp: Response)
    requires w.pay.state == Created && w.pay.attempts == []
    ensures var timeout := Answer(Some(resp), Some(CallError(false, true)));
      var env := (_: nat) => Script(true, true, true, true, timeout, true, true, true);
      var l := Run(w, ["a", "b"], env, Settings(2, true));
      && Calls(w.log) <= Calls(l.w.log)
      && !SingleCharge(NewCalls(w, l))
  {
    var timeout := Answer(Some(resp), Some(CallError(false, true)));
    var env := (_: nat) => Script(true, true, true, true, timeout, true, true, true);
    LeftOpenAndCalled(w.pay, env, env(0));
    TwoGateways();
    SecondChargeIff(w, ["a", "b"], env, Settings(2, true));
  }

  lemma LeftOpenAndCalled(p: Payment, env: nat -> Script, s: Script)
    requires p.state == Created && p.attempts == [] && env(0) == s && env(1) == s && Reaches(s)
    requires var e := Classify(s.answer, s.valid); e == TransportFailure(true) || (e == Awaiting && !s.commit)
    ensures CalledAgain(p, env, 0, 1)
  {
    assert TrackAt(p, env, 0) == Going(Created);
    assert TrackAt(p, env, 1).Going?;
  }

  lemma TwoGateways()
    ensures Reach(["a", "b"], Settings(2, true)) == 2
  {
    assert Gateways(["a", "b"]) == {"a", "b"};
    assert "a" != "b";
  }
}
