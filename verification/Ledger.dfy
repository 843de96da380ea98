/** Double entry: groups of entries and the balance gate (internal/domain/ledger/transaction.go). */
module LedgerBalance {
  import opened Int64
  import opened MoneyArithmetic

  datatype Side = Debit | Credit

  datatype Account =
    | MerchantReceivable | GatewayClearing | FeesPayable | RefundsPayable | DisputesHeld | SettlementSuspense

  function NormalSide(a: Account): Side {
    match a
    case MerchantReceivable => Credit
    case GatewayClearing => Debit
    case FeesPayable => Credit
    case RefundsPayable => Credit
    case DisputesHeld => Debit
    case SettlementSuspense => Debit
  }

  datatype Entry = Entry(account: Account, side: Side, amount: Money, merchant: string, payment: string)

  type Transaction = seq<Entry>

  /** NewEntry refuses anything but a strictly positive amount. */
  ghost predicate AllPositive(es: seq<Entry>) {
    forall i :: 0 <= i < |es| ==> es[i].amount.amount > 0
  }

  /** The mathematical sum of one side in one currency. */
  function SideTotal(es: seq<Entry>, side: Side, c: Currency): int {
    if es == [] then 0
    else
      var e := es[|es| - 1];
      SideTotal(es[..|es| - 1], side, c) + if e.side == side && e.amount.currency == c then e.amount.amount else 0
  }

  /** The sum Imbalances keeps: an addition that overflows is skipped. */
  function Kept(es: seq<Entry>, side: Side, c: Currency): (m: Money)
    ensures m.currency == c
  {
    if es == [] then Zero(c)
    else
      var e, before := es[|es| - 1], Kept(es[..|es| - 1], side, c);
      if e.side == side && e.amount.currency == c then
        match Add(before, e.amount)
        case Ok(sum) => sum
        case Err(_) => before
      else before
  }

  /** What those skipped additions left out. */
  function Dropped(es: seq<Entry>, side: Side, c: Currency): int {
    if es == [] then 0
    else
      var e, before := es[|es| - 1], es[..|es| - 1];
      Dropped(before, side, c) +
      if e.side == side && e.amount.currency == c && Add(Kept(before, side, c), e.amount).Err? then e.amount.amount
          else 0
  }

  /** Kept and dropped make the whole; nothing is dropped exactly when the whole fits. */
  lemma {:induction false} KeptAndDropped(es: seq<Entry>, side: Side, c: Currency)
    requires AllPositive(es)
    ensures 0 <= Kept(es, side, c).amount && 0 <= Dropped(es, side, c)
    ensures Kept(es, side, c).amount + Dropped(es, side, c) == SideTotal(es, side, c)
    ensures Dropped(es, side, c) == 0 <==> Fits(SideTotal(es, side, c))
    decreases |es|
  {
    if es != [] {
      KeptAndDropped(es[..|es| - 1], side, c);
    }
  }

  /** Debits minus credits as Imbalances computes it; a subtraction that overflows counts as none. */
  function Delta(es: seq<Entry>, c: Currency): int {
    match Sub(Kept(es, Debit, c), Kept(es, Credit, c))
    case Ok(d) => d.amount
    case Err(_) => 0
  }

  function Currencies(es: seq<Entry>): (cs: set<Currency>)
    ensures forall c :: c in cs <==> exists i :: 0 <= i < |es| && es[i].amount.currency == c
  {
    set i | 0 <= i < |es| :: es[i].amount.currency
  }

  /** The currencies Imbalances reports. */
  function Reported(es: seq<Entry>): (cs: set<Currency>)
    ensures forall c :: c in cs <==> c in Currencies(es) && Delta(es, c) != 0
  {
    set c | c in Currencies(es) && Delta(es, c) != 0
  }

  datatype Verdict = Balanced | Empty | Single | Imbalanced(currencies: set<Currency>)

  function BalanceSpec(es: seq<Entry>): Verdict {
    if |es| == 0 then Empty
    else if |es| == 1 then Single
    else if Reported(es) == {} then Balanced
    else Imbalanced(Reported(es))
  }

  datatype Sums = Sums(dr: Money, cr: Money)

  /** Imbalances: one pass that keeps a pair of sums per currency, then the currencies whose sums differ. */
  method Imbalances(es: seq<Entry>) returns (bad: set<Currency>)
    ensures bad == Reported(es)
  {
    var acc: map<Currency, Sums> := map[];
    var i := 0;
    while i < |es|
      invariant 0 <= i <= |es| && Tallied(es[..i], acc)
    {
      assert es[..i + 1] == es[..i] + [es[i]];
      TallyOne(es[..i], acc, es[i]);
      acc := TakeEntry(acc, es[i]);
      i := i + 1;
    }
    assert es[..i] == es;
    TalliedReports(es, acc);
    bad := Differing(acc);
  }

  /** The currencies whose two sums differ; a subtraction that overflows counts as no difference. */
  function Differing(acc: map<Currency, Sums>): set<Currency> {
    set c | c in acc && Differs(acc[c])
  }

  predicate Differs(s: Sums) {
    var d := Sub(s.dr, s.cr);
    d.Ok? && d.value.amount != 0
  }

  lemma TalliedReports(es: seq<Entry>, acc: map<Currency, Sums>)
    requires Tallied(es, acc)
    ensures Differing(acc) == Reported(es)
  {
  }

  /** The map holds the kept sums of exactly the currencies seen. */
  ghost predicate Tallied(es: seq<Entry>, acc: map<Currency, Sums>) {
    && acc.Keys == Currencies(es)
    && forall c :: c in acc ==> acc[c] == Sums(Kept(es, Debit, c), Kept(es, Credit, c))
  }

  /** The body of the loop over the entries. */
  function TakeEntry(acc: map<Currency, Sums>, e: Entry): map<Currency, Sums> {
    var c := e.amount.currency;
    var s := if c in acc then acc[c] else Sums(Zero(c), Zero(c));
    if e.side == Debit then
      var v := Add(s.dr, e.amount);
      acc[c := if v.Ok? then s.(dr := v.value) else s]
    else
      var v := Add(s.cr, e.amount);
      acc[c := if v.Ok? then s.(cr := v.value) else s]
  }

  /** The sums of the entry's own currency after it. */
  lemma TakeEntryIs(es: seq<Entry>, acc: map<Currency, Sums>, e: Entry)
    requires Tallied(es, acc)
    ensures var c := e.amount.currency;
      TakeEntry(acc, e) == acc[c := Sums(Kept(es + [e], Debit, c), Kept(es + [e], Credit, c))]
  {
    AddOne(es, e);
    if e.amount.currency !in acc {
      NoneYet(es, e.amount.currency);
    }
  }

  lemma TallyOne(es: seq<Entry>, acc: map<Currency, Sums>, e: Entry)
    requires Tallied(es, acc)
    ensures Tallied(es + [e], TakeEntry(acc, e))
  {
    TakeEntryIs(es, acc, e);
    AddOne(es, e);
    assert acc[e.amount.currency := TakeEntry(acc, e)[e.amount.currency]].Keys == acc.Keys + {e.amount.currency};
  }

  /** One entry more changes the sums of its own side and currency only. */
  lemma AddOne(before: seq<Entry>, e: Entry)
    ensures Currencies(before + [e]) == Currencies(before) + {e.amount.currency}
    ensures forall side, c :: side != e.side || c != e.amount.currency ==>
                                Kept(before + [e], side, c) == Kept(before, side, c)
    ensures Kept(before + [e], e.side, e.amount.currency) ==
      match Add(Kept(before, e.side, e.amount.currency), e.amount)
      case Ok(sum) => sum
      case Err(_) => Kept(before, e.side, e.amount.currency)
  {
    var es := before + [e];
    assert es[..|es| - 1] == before && es[|es| - 1] == e;
    forall c ensures c in Currencies(es) <==> c in Currencies(before) || c == e.amount.currency {
      assert forall i :: 0 <= i < |before| ==> es[i] == before[i];
      assert es[|before|] == e;
    }
  }

  lemma {:induction false} NoneYet(es: seq<Entry>, c: Currency)
    requires c !in Currencies(es)
    ensures Kept(es, Debit, c) == Zero(c) && Kept(es, Credit, c) == Zero(c)
    ensures SideTotal(es, Debit, c) == 0 && SideTotal(es, Credit, c) == 0
    ensures Dropped(es, Debit, c) == 0 && Dropped(es, Credit, c) == 0
    decreases |es|
  {
    if es != [] {
      var before := es[..|es| - 1];
      assert forall i :: 0 <= i < |before| ==> before[i] == es[i];
      assert c !in Currencies(before);
      NoneYet(before, c);
    }
  }

  method Balance(es: seq<Entry>) returns (v: Verdict)
    ensures v == BalanceSpec(es)
  {
    if |es| == 0 { return Empty; }
    if |es| == 1 { return Single; }
    var bad := Imbalances(es);
    return if bad == {} then Balanced else Imbalanced(bad);
  }

  /** The fundamental invariant, per currency. */
  ghost predicate TrulyBalanced(es: seq<Entry>) {
    forall c :: SideTotal(es, Debit, c) == SideTotal(es, Credit, c)
  }

  ghost predicate DropsAgree(es: seq<Entry>) {
    forall c :: Dropped(es, Debit, c) == Dropped(es, Credit, c)
  }

  lemma AcceptedKeepsAgree(es: seq<Entry>, c: Currency)
    requires AllPositive(es) && BalanceSpec(es) == Balanced
    ensures Kept(es, Debit, c).amount == Kept(es, Credit, c).amount
  {
    KeptAndDropped(es, Debit, c);
    KeptAndDropped(es, Credit, c);
    if c in Currencies(es) {
      assert c !in Reported(es);
    } else {
      NoneYet(es, c);
    }
  }

  /** A group the gate lets through balances exactly when the skipped additions agree, side against side. */
  lemma AcceptedBalancesIff(es: seq<Entry>)
    requires AllPositive(es) && BalanceSpec(es) == Balanced
    ensures TrulyBalanced(es) <==> DropsAgree(es)
  {
    forall c ensures SideTotal(es, Debit, c) == SideTotal(es, Credit, c)
        <==> Dropped(es, Debit, c) == Dropped(es, Credit, c) {
      KeptAndDropped(es, Debit, c);
      KeptAndDropped(es, Credit, c);
      AcceptedKeepsAgree(es, c);
    }
  }

  ghost predicate KeptAgree(es: seq<Entry>) {
    forall c :: Kept(es, Debit, c) == Kept(es, Credit, c)
  }

  /** In this currency what was skipped does not make up for the difference of what was kept. */
  ghost predicate Skewed(es: seq<Entry>, c: Currency) {
    Kept(es, Debit, c).amount - Kept(es, Credit, c).amount != Dropped(es, Credit, c) - Dropped(es, Debit, c)
  }

  lemma AcceptedIffKeptAgree(es: seq<Entry>)
    requires AllPositive(es) && |es| >= 2
    ensures BalanceSpec(es) == Balanced <==> KeptAgree(es)
  {
    if BalanceSpec(es) == Balanced {
      forall c ensures Kept(es, Debit, c) == Kept(es, Credit, c) {
        AcceptedKeepsAgree(es, c);
      }
    } else {
      var c :| c in Reported(es);
      assert Kept(es, Debit, c) != Kept(es, Credit, c);
    }
  }

  lemma BalancedIffNotSkewed(es: seq<Entry>)
    requires AllPositive(es)
    ensures TrulyBalanced(es) <==> forall c :: !Skewed(es, c)
  {
    forall c ensures SideTotal(es, Debit, c) == SideTotal(es, Credit, c) <==> !Skewed(es, c) {
      KeptAndDropped(es, Debit, c);
      KeptAndDropped(es, Credit, c);
    }
  }

  /**
   * The gate is right about a group of two or more, overflow or not, exactly in these two cases: the sums it kept
   * agree and so do the additions it skipped; or the sums differ and, in some currency, the skipped ones do not make
   * up for it.
   */
  lemma GateIsRightIff(es: seq<Entry>)
    requires AllPositive(es) && |es| >= 2
    ensures (BalanceSpec(es) == Balanced <==> TrulyBalanced(es)) <==>
            if KeptAgree(es) then DropsAgree(es) else exists c :: Skewed(es, c)
  {
    AcceptedIffKeptAgree(es);
    BalancedIffNotSkewed(es);
    if KeptAgree(es) {
      AcceptedBalancesIff(es);
    }
  }

  ghost predicate TotalsFit(es: seq<Entry>) {
    forall c :: Fits(SideTotal(es, Debit, c)) && Fits(SideTotal(es, Credit, c))
  }

  /** While the totals fit, the gate lets through exactly the groups of two or more entries that balance. */
  lemma GateIsExact(es: seq<Entry>)
    requires AllPositive(es) && TotalsFit(es)
    ensures BalanceSpec(es) == Balanced <==> |es| >= 2 && TrulyBalanced(es)
  {
    forall c ensures Dropped(es, Debit, c) == 0 && Dropped(es, Credit, c) == 0 {
      KeptAndDropped(es, Debit, c);
      KeptAndDropped(es, Credit, c);
    }
    if BalanceSpec(es) == Balanced {
      AcceptedBalancesIff(es);
    } else if |es| >= 2 {
      var c :| c in Reported(es);
      KeptAndDropped(es, Debit, c);
      KeptAndDropped(es, Credit, c);
      assert SideTotal(es, Debit, c) != SideTotal(es, Credit, c);
    }
  }

  /**
   * When they do not fit it can let through a group that does not: debits of MaxInt64 and 5 against a credit of
   * MaxInt64.
   */
  lemma OverflowPassesTheGate(merchant: string, payment: string, c: Currency)
    ensures var es := [
        Entry(GatewayClearing, Debit, Money(MAX, c), merchant, payment),
        Entry(GatewayClearing, Debit, Money(5, c), merchant, payment),
        Entry(MerchantReceivable, Credit, Money(MAX, c), merchant, payment)];
      AllPositive(es) && BalanceSpec(es) == Balanced && !TrulyBalanced(es)
  {
    var x := Entry(GatewayClearing, Debit, Money(MAX, c), merchant, payment);
    var y := Entry(GatewayClearing, Debit, Money(5, c), merchant, payment);
    var z := Entry(MerchantReceivable, Credit, Money(MAX, c), merchant, payment);
    AddOne([], x);
    AddOne([x], y);
    AddOne([x, y], z);
    assert [] + [x] == [x] && [x] + [y] == [x, y] && [x, y] + [z] == [x, y, z];
    assert Kept([x, y], Debit, c) == Money(MAX, c) && Kept([x, y], Credit, c) == Zero(c);
    assert Currencies([x, y, z]) == {c};
    SideTotalOne([], x, c);
    SideTotalOne([x], y, c);
    SideTotalOne([x, y], z, c);
    assert SideTotal([x, y, z], Debit, c) == MAX + 5 && SideTotal([x, y, z], Credit, c) == MAX;
  }

  /** And it can refuse one that balances: debits of MaxInt64 and 5 against credits of 5 and MaxInt64. */
  lemma OverflowRefusesBalanced(merchant: string, payment: string, c: Currency)
    ensures var es := [
        Entry(GatewayClearing, Debit, Money(MAX, c), merchant, payment),
        Entry(GatewayClearing, Debit, Money(5, c), merchant, payment),
        Entry(MerchantReceivable, Credit, Money(5, c), merchant, payment),
        Entry(MerchantReceivable, Credit, Money(MAX, c), merchant, payment)];
      AllPositive(es) && TrulyBalanced(es) && BalanceSpec(es) == Imbalanced({c})
  {
    var x := Entry(GatewayClearing, Debit, Money(MAX, c), merchant, payment);
    var y := Entry(GatewayClearing, Debit, Money(5, c), merchant, payment);
    var v := Entry(MerchantReceivable, Credit, Money(5, c), merchant, payment);
    var z := Entry(MerchantReceivable, Credit, Money(MAX, c), merchant, payment);
    KeptOfFour(x, y, v, z, c);
    TotalsOfFour(x, y, v, z, c);
    assert Currencies([x, y, v, z]) == {c};
  }

  lemma KeptOfFour(x: Entry, y: Entry, v: Entry, z: Entry, c: Currency)
    requires x.side == y.side == Debit && v.side == z.side == Credit
    requires x.amount == z.amount == Money(MAX, c) && y.amount == v.amount == Money(5, c)
    ensures Kept([x, y, v, z], Debit, c) == Money(MAX, c) && Kept([x, y, v, z], Credit, c) == Money(5, c)
  {
    AddOne([], x);
    AddOne([x], y);
    AddOne([x, y], v);
    AddOne([x, y, v], z);
    assert [] + [x] == [x] && [x] + [y] == [x, y] && [x, y] + [v] == [x, y, v];
    assert [x, y, v] + [z] == [x, y, v, z];
  }

  lemma TotalsOfFour(x: Entry, y: Entry, v: Entry, z: Entry, c: Currency)
    requires x.side == y.side == Debit && v.side == z.side == Credit
    requires x.amount == z.amount == Money(MAX, c) && y.amount == v.amount == Money(5, c)
    ensures TrulyBalanced([x, y, v, z])
  {
    assert [] + [x] == [x] && [x] + [y] == [x, y] && [x, y] + [v] == [x, y, v];
    assert [x, y, v] + [z] == [x, y, v, z];
    forall d ensures SideTotal([x, y, v, z], Debit, d) == SideTotal([x, y, v, z], Credit, d) {
      SideTotalOne([], x, d);
      SideTotalOne([x], y, d);
      SideTotalOne([x, y], v, d);
      SideTotalOne([x, y, v], z, d);
    }
  }

  lemma SideTotalOne(before: seq<Entry>, e: Entry, c: Currency)
    ensures forall side ::
      SideTotal(before + [e], side, c) ==
      SideTotal(before, side, c) + if e.side == side && e.amount.currency == c then e.amount.amount else 0
  {
  }
}

/** Posting: the ledger service (internal/application/ledger/service.go, Post and Apply). */
module LedgerPosting {
  import opened LedgerBalance
  import opened Options

  /** One Apply call: its reference, what build makes of the effect, and what fails around it. */
  datatype Call = Call(
    reference: string, built: Option<seq<Option<Transaction>>>,
    beginFails: bool, claimFails: bool, appendFailsAt: int, commitFails: bool)

  datatype Ledger = Ledger(claims: set<string>, posted: seq<Transaction>)

  /** The transactions build returned, without the nil ones. */
  function Movements(txs: seq<Option<Transaction>>): seq<Transaction> {
    if txs == [] then []
    else
      var before, tx := Movements(txs[..|txs| - 1]), txs[|txs| - 1];
      if tx.None? then before else before + [tx.value]
  }

  predicate AllBalanced(txs: seq<Transaction>) {
    forall i :: 0 <= i < |txs| ==> BalanceSpec(txs[i]) == Balanced
  }

  /** Every movement passes the gate and is stored: the loop of Post runs to its end. */
  predicate Storable(call: Call) {
    && call.built.Some?
    && AllBalanced(Movements(call.built.value))
    && !(0 <= call.appendFailsAt < |Movements(call.built.value)|)
  }

  /** Post inside the caller's transaction: whether it succeeds, and what it then leaves. */
  predicate Posts(l: Ledger, log: bool, call: Call) {
    && call.reference != ""
    && (log ==> !call.claimFails)
    && ((log && call.reference in l.claims) || Storable(call))
  }

  predicate Succeeds(l: Ledger, log: bool, call: Call) {
    !call.beginFails && Posts(l, log, call) && !call.commitFails
  }

  /** What one Apply leaves: a replay leaves everything alone, a failure too. */
  function ApplySpec(l: Ledger, log: bool, call: Call): Ledger {
    if !Succeeds(l, log, call) || (log && call.reference in l.claims) then l
    else Ledger(if log then l.claims + {call.reference} else l.claims, l.posted + Movements(call.built.value))
  }

  class Service {
    const log: bool
    var claims: set<string>
    var posted: seq<Transaction>

    constructor (log: bool)
      ensures this.log == log && View() == Ledger({}, [])
    {
      this.log, claims, posted := log, {}, [];
    }

    function View(): Ledger
      reads this
    {
      Ledger(claims, posted)
    }

    method Post(call: Call) returns (ok: bool)
      modifies this
      ensures ok == Posts(old(View()), log, call)
      ensures ok ==> View() == ApplySpec(old(View()), log, call.(beginFails := false, commitFails := false))
    {
      if call.reference == "" { return false; }
      if log {
        if call.claimFails { return false; }
        if call.reference in claims { return true; }
        claims := claims + {call.reference};
      }
      if call.built.None? { return false; }
      ok := Store(call.built.value, call.appendFailsAt);
    }

    /**
     * The loop over the transactions build returned: nil ones are skipped, the gate is asked, the entry is appended.
     */
    method Store(txs: seq<Option<Transaction>>, appendFailsAt: int) returns (ok: bool)
      modifies this`posted
      ensures ok == (AllBalanced(Movements(txs)) && !(0 <= appendFailsAt < |Movements(txs)|))
      ensures ok ==> posted == old(posted) + Movements(txs)
    {
      var i, appended := 0, 0;
      while i < |txs|
        invariant 0 <= i <= |txs|
        invariant appended == |Movements(txs[..i])|
        invariant posted == old(posted) + Movements(txs[..i])
        invariant AllBalanced(Movements(txs[..i])) && !(0 <= appendFailsAt < appended)
      {
        assert txs[..i + 1][..i] == txs[..i];
        MovementsGrow(txs, i + 1);
        if txs[i].Some? {
          var v := Balance(txs[i].value);
          if v != Balanced {
            assert Movements(txs)[appended] == txs[i].value;
            return false;
          }
          if appendFailsAt == appended { return false; }
          posted := posted + [txs[i].value];
          appended := appended + 1;
        }
        i := i + 1;
      }
      assert txs[..i] == txs;
      return true;
    }

    /** Apply: Post in a transaction of its own. */
    method Apply(call: Call) returns (ok: bool)
      modifies this
      ensures ok == Succeeds(old(View()), log, call)
      ensures View() == ApplySpec(old(View()), log, call)
    {
      if call.beginFails { return false; }
      var claimsBefore, postedBefore := claims, posted;
      ok := Post(call);
      if !ok || call.commitFails {
        claims, posted := claimsBefore, postedBefore;
        ok := false;
      }
    }
  }

  lemma {:induction false} MovementsGrow(txs: seq<Option<Transaction>>, n: nat)
    requires n <= |txs|
    ensures Movements(txs[..n]) <= Movements(txs)
    decreases |txs| - n
  {
    if n < |txs| {
      MovementsGrow(txs, n + 1);
      assert txs[..n + 1][..n] == txs[..n];
    } else {
      assert txs[..n] == txs;
    }
  }

  // ---- one call, transaction by transaction ----

  /** How many of the first n are there. */
  function Present(txs: seq<Option<Transaction>>, n: nat): nat
    requires n <= |txs|
  {
    if n == 0 then 0 else Present(txs, n - 1) + if txs[n - 1].Some? then 1 else 0
  }

  lemma {:induction false} PresentPrefix(txs: seq<Option<Transaction>>, more: seq<Option<Transaction>>, n: nat)
    requires n <= |txs| && txs <= more
    ensures Present(txs, n) == Present(more, n)
  {
    if n > 0 {
      PresentPrefix(txs, more, n - 1);
    }
  }

  /** Transaction i of the list, if it is there, is the one that as many come before as are there before it. */
  lemma {:induction false} MovementAt(txs: seq<Option<Transaction>>, i: nat)
    requires i <= |txs|
    ensures |Movements(txs)| == Present(txs, |txs|)
    ensures i < |txs| && txs[i].Some? ==>
      Present(txs, i) < |Movements(txs)| && Movements(txs)[Present(txs, i)] == txs[i].value
    decreases |txs|
  {
    if txs != [] {
      var n := |txs| - 1;
      MovementAt(txs[..n], if i < n then i else n);
      PresentPrefix(txs[..n], txs, n);
      if i < n {
        PresentPrefix(txs[..n], txs, i);
      }
    }
  }

  /**
   * A call that is not a replay and succeeds appends every transaction build returned, nil ones aside: each once, in
   * order, behind what was there, and nothing else.
   */
  lemma AppliedInFull(l: Ledger, log: bool, call: Call)
    requires Succeeds(l, log, call) && !(log && call.reference in l.claims)
    ensures call.built.Some?
    ensures var txs, posted := call.built.value, ApplySpec(l, log, call).posted;
      && l.posted <= posted && |posted| == |l.posted| + Present(txs, |txs|)
      && (forall i :: 0 <= i < |txs| && txs[i].Some? ==>
            Present(txs, i) < Present(txs, |txs|) && posted[|l.posted| + Present(txs, i)] == txs[i].value)
    ensures ApplySpec(l, log, call).claims == l.claims + if log then {call.reference} else {}
  {
    var txs := call.built.value;
    MovementAt(txs, |txs|);
    forall i | 0 <= i < |txs| && txs[i].Some?
      ensures Present(txs, i) < |Movements(txs)| && Movements(txs)[Present(txs, i)] == txs[i].value
    {
      MovementAt(txs, i);
    }
  }

  lemma {:induction false} MovementIsThere(txs: seq<Option<Transaction>>, k: nat) returns (i: nat)
    requires k < |Movements(txs)|
    ensures i < |txs| && txs[i] == Some(Movements(txs)[k])
    decreases |txs|
  {
    var n := |txs| - 1;
    if k < |Movements(txs[..n])| {
      i := MovementIsThere(txs[..n], k);
    } else {
      i := n;
    }
  }

  /** No transaction is refused by the gate. */
  ghost predicate AllPass(txs: seq<Option<Transaction>>) {
    forall i :: 0 <= i < |txs| && txs[i].Some? ==> BalanceSpec(txs[i].value) == Balanced
  }

  lemma AllPassIff(txs: seq<Option<Transaction>>)
    ensures AllPass(txs) <==> AllBalanced(Movements(txs))
  {
    if AllPass(txs) {
      forall k | 0 <= k < |Movements(txs)| ensures BalanceSpec(Movements(txs)[k]) == Balanced {
        var i := MovementIsThere(txs, k);
      }
    }
    if AllBalanced(Movements(txs)) {
      forall i | 0 <= i < |txs| && txs[i].Some? ensures BalanceSpec(txs[i].value) == Balanced {
        MovementAt(txs, i);
      }
    }
  }

  /** Nothing around the call fails: not its transaction, its claim or the store of any of its n transactions. */
  predicate NoFault(call: Call, log: bool, n: nat) {
    !call.beginFails && !call.commitFails && (log ==> !call.claimFails) && !(0 <= call.appendFailsAt < n)
  }

  /** A call that is no replay succeeds exactly if it has a reference, nothing fails and every group passes the gate. */
  lemma FreshCallSucceedsIff(l: Ledger, log: bool, call: Call)
    requires !(log && call.reference in l.claims)
    ensures Succeeds(l, log, call) <==>
      && call.reference != "" && call.built.Some?
      && NoFault(call, log, Present(call.built.value, |call.built.value|))
      && AllPass(call.built.value)
  {
    if call.built.Some? {
      AllPassIff(call.built.value);
      MovementAt(call.built.value, 0);
    }
  }

  // ---- whole runs ----

  datatype Calls = Start | Then(before: Calls, last: Call)

  function Run(l: Ledger, log: bool, calls: Calls): Ledger {
    match calls
    case Start => l
    case Then(before, c) => ApplySpec(Run(l, log, before), log, c)
  }

  /** The calls that stored something, in order. */
  function Stored(l: Ledger, log: bool, calls: Calls): Calls {
    match calls
    case Start => Start
    case Then(before, c) =>
      var now, was := Run(l, log, before), Stored(l, log, before);
      if Succeeds(now, log, c) && !(log && c.reference in now.claims) then Then(was, c) else was
  }

  function AllMovements(calls: Calls): seq<Transaction> {
    match calls
    case Start => []
    case Then(before, c) => AllMovements(before) + if c.built.Some? then Movements(c.built.value) else []
  }

  function References(calls: Calls): set<string> {
    match calls
    case Start => {}
    case Then(before, c) => References(before) + {c.reference}
  }

  /** No two of the calls share a reference. */
  predicate Distinct(calls: Calls) {
    match calls
    case Start => true
    case Then(before, c) => Distinct(before) && c.reference !in References(before)
  }

  ghost predicate Deduplicated(l: Ledger, after: Ledger, stored: Calls) {
    && after.posted == l.posted + AllMovements(stored)
    && after.claims == l.claims + References(stored)
    && l.claims !! References(stored) && Distinct(stored)
    && AllBalanced(after.posted)
  }

  lemma StoreOne(l: Ledger, now: Ledger, was: Calls, c: Call)
    requires Deduplicated(l, now, was) && Storable(c) && c.reference !in now.claims
    ensures Deduplicated(l, Ledger(now.claims + {c.reference}, now.posted + Movements(c.built.value)), Then(was, c))
  {
  }

  /**
   * Over every run of calls, repeated and failing at will: the ledger is what was there plus the movements of the
   * calls that stored something; each of those has a claim and a reference of its own; and every stored group passed
   * the gate.
   */
  lemma {:induction false} LedgerIsDeduplicated(l: Ledger, calls: Calls)
    requires AllBalanced(l.posted)
    ensures Deduplicated(l, Run(l, true, calls), Stored(l, true, calls))
  {
    if calls.Then? {
      LedgerIsDeduplicated(l, calls.before);
      var now, c := Run(l, true, calls.before), calls.last;
      if Succeeds(now, true, c) && c.reference !in now.claims {
        StoreOne(l, now, Stored(l, true, calls.before), c);
      }
    }
  }

  /** The calls left when those whose reference is claimed already are dropped. */
  function DropClaimed(l: Ledger, calls: Calls): Calls {
    match calls
    case Start => Start
    case Then(before, c) =>
      var kept := DropClaimed(l, before);
      if c.reference in Run(l, true, kept).claims then kept else Then(kept, c)
  }

  /** Dropping them changes nothing. */
  lemma {:induction false} ReplaysChangeNothing(l: Ledger, calls: Calls)
    ensures Run(l, true, DropClaimed(l, calls)) == Run(l, true, calls)
  {
    if calls.Then? {
      ReplaysChangeNothing(l, calls.before);
    }
  }

  /** Without a posting log there is no claim to meet: every call that succeeds posts, repeat or not. */
  lemma {:induction false} WithoutLogRepeatsPost(l: Ledger, calls: Calls)
    ensures Run(l, false, calls).posted == l.posted + AllMovements(Stored(l, false, calls))
    ensures Run(l, false, calls).claims == l.claims
  {
    if calls.Then? {
      WithoutLogRepeatsPost(l, calls.before);
      var was, c := AllMovements(Stored(l, false, calls.before)), calls.last;
      if c.built.Some? {
        assert l.posted + was + Movements(c.built.value) == l.posted + (was + Movements(c.built.value));
      }
    }
  }
}
