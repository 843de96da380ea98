/** Reconciliation: the report re-derived from the entries (internal/application/ledger/service.go, Reconcile). */
module LedgerReport {
  import opened MoneyArithmetic
  import opened LedgerBalance

  /** The running totals of the report. */
  datatype Tally = Tally(debits: Money, credits: Money, balances: map<Account, Money>, count: nat)

  datatype Why = NoTenant | Unsupported | StoreFailed | Overflows
  datatype Outcome<+T> = Done(value: T) | Refused(why: Why)

  datatype Report = Report(tally: Tally, residual: Money)

  function Fresh(c: Currency): Tally {
    Tally(Zero(c), Zero(c), map[], 0)
  }

  /** One entry of the loop: the account in its normal direction first, then the side. */
  function Count(t: Tally, e: Entry, c: Currency): Outcome<Tally> {
    var cur := if e.account in t.balances then t.balances[e.account] else Zero(c);
    var delta := if e.side != NormalSide(e.account) then Neg(e.amount) else e.amount;
    var sum := Add(cur, delta);
    if sum.Err? then Refused(Overflows)
    else
      var total := Add(if e.side == Debit then t.debits else t.credits, e.amount);
      if total.Err? then Refused(Overflows)
      else
        var counted := t.(balances := t.balances[e.account := sum.value], count := t.count + 1);
        Done(if e.side == Debit then counted.(debits := total.value) else counted.(credits := total.value))
  }

  function CountAll(es: seq<Entry>, c: Currency): Outcome<Tally> {
    if es == [] then Done(Fresh(c))
    else
      var before := CountAll(es[..|es| - 1], c);
      if before.Refused? then before else Count(before.value, es[|es| - 1], c)
  }

  /** The entries of one merchant in one currency. */
  function Picked(es: seq<Entry>, m: string, c: Currency): seq<Entry> {
    if es == [] then []
    else
      var before, e := Picked(es[..|es| - 1], m, c), es[|es| - 1];
      if e.merchant != m || e.amount.currency != c then before else before + [e]
  }

  /** EntriesForPayment. */
  function OfPayment(es: seq<Entry>, id: string): seq<Entry> {
    if es == [] then []
    else
      var before, e := OfPayment(es[..|es| - 1], id), es[|es| - 1];
      if e.payment == id then before + [e] else before
  }

  /** What the report counts: payment by payment, in the order listed. */
  function Listed(es: seq<Entry>, payments: seq<string>, m: string, c: Currency): seq<Entry> {
    if payments == [] then []
    else
      var n := |payments| - 1;
      Listed(es, payments[..n], m, c) + Picked(OfPayment(es, payments[n]), m, c)
  }

  lemma {:induction false} PickedCount(es: seq<Entry>, m: string, c: Currency, e: Entry)
    ensures multiset(Picked(es, m, c))[e] == if e.merchant == m && e.amount.currency == c then multiset(es)[e] else 0
    decreases |es|
  {
    if es != [] {
      PickedCount(es[..|es| - 1], m, c, e);
      assert es == es[..|es| - 1] + [es[|es| - 1]];
    }
  }

  lemma {:induction false} OfPaymentCount(es: seq<Entry>, id: string, e: Entry)
    ensures multiset(OfPayment(es, id))[e] == if e.payment == id then multiset(es)[e] else 0
    decreases |es|
  {
    if es != [] {
      OfPaymentCount(es[..|es| - 1], id, e);
      assert es == es[..|es| - 1] + [es[|es| - 1]];
    }
  }

  /** The last payment listed adds its entries. */
  lemma LastPaymentCount(es: seq<Entry>, payments: seq<string>, m: string, c: Currency, e: Entry, n: nat)
    requires n + 1 == |payments|
    ensures multiset(Listed(es, payments, m, c))[e] == multiset(Listed(es, payments[..n], m, c))[e] +
      if e.merchant == m && e.amount.currency == c && e.payment == payments[n] then multiset(es)[e] else 0
    ensures multiset(payments)[e.payment] ==
      multiset(payments[..n])[e.payment] + if e.payment == payments[n] then 1 else 0
  {
    OfPaymentCount(es, payments[n], e);
    PickedCount(OfPayment(es, payments[n]), m, c, e);
    assert payments == payments[..n] + [payments[n]];
  }

  lemma OnceMore(k: nat, n: nat)
    ensures (k + 1) * n == k * n + n
  {
  }

  /** An entry of the merchant in the currency counts as often as its payment is listed, and no other entry counts. */
  lemma {:induction false} ListedCount(es: seq<Entry>, payments: seq<string>, m: string, c: Currency, e: Entry)
    ensures multiset(Listed(es, payments, m, c))[e] ==
      if e.merchant == m && e.amount.currency == c then multiset(payments)[e.payment] * multiset(es)[e] else 0
    decreases |payments|
  {
    if payments != [] {
      var n := |payments| - 1;
      ListedCount(es, payments[..n], m, c, e);
      LastPaymentCount(es, payments, m, c, e, n);
      OnceMore(multiset(payments[..n])[e.payment], multiset(es)[e]);
    }
  }

  lemma CountOneMore(es: seq<Entry>, e: Entry, c: Currency)
    ensures CountAll(es + [e], c) ==
      var before := CountAll(es, c);
      if before.Refused? then before else Count(before.value, e, c)
  {
  }

  /** Once refused, more entries do not help. */
  lemma {:induction false} RefusedStays(a: seq<Entry>, b: seq<Entry>, c: Currency)
    requires CountAll(a, c).Refused?
    ensures CountAll(a + b, c) == CountAll(a, c)
    decreases |b|
  {
    if b == [] {
      assert a + b == a;
    } else {
      RefusedStays(a, b[..|b| - 1], c);
      assert a + b == a + b[..|b| - 1] + [b[|b| - 1]];
      CountOneMore(a + b[..|b| - 1], b[|b| - 1], c);
    }
  }

  lemma PickedOneMore(es: seq<Entry>, n: nat, m: string, c: Currency)
    requires n < |es|
    ensures Picked(es[..n + 1], m, c) ==
      Picked(es[..n], m, c) + if es[n].merchant == m && es[n].amount.currency == c then [es[n]] else []
  {
    assert es[..n + 1][..n] == es[..n];
  }

  lemma RefusedPrefix(whole: seq<Entry>, part: seq<Entry>, rest: seq<Entry>, c: Currency)
    requires whole == part + rest && CountAll(part, c).Refused?
    ensures CountAll(whole, c) == CountAll(part, c)
  {
    RefusedStays(part, rest, c);
  }

  lemma RefusedOnTop(before: seq<Entry>, part: seq<Entry>, whole: seq<Entry>, rest: seq<Entry>, c: Currency)
    requires whole == part + rest && CountAll(before + part, c).Refused?
    ensures CountAll(before + whole, c) == CountAll(before + part, c)
  {
    assert before + whole == before + part + rest;
    RefusedPrefix(before + whole, before + part, rest, c);
  }

  lemma RefusedInPayment(before: seq<Entry>, es: seq<Entry>, n: nat, m: string, c: Currency)
    requires n <= |es| && CountAll(before + Picked(es[..n], m, c), c).Refused?
    ensures CountAll(before + Picked(es, m, c), c) == CountAll(before + Picked(es[..n], m, c), c)
  {
    var rest := PickedGrows(es, n, m, c);
    RefusedOnTop(before, Picked(es[..n], m, c), Picked(es, m, c), rest, c);
  }

  /** Counting one more entry of a payment, taken or skipped. */
  lemma CountNext(before: seq<Entry>, es: seq<Entry>, n: nat, m: string, c: Currency, t: Tally)
    requires n < |es| && CountAll(before + Picked(es[..n], m, c), c) == Done(t)
    ensures CountAll(before + Picked(es[..n + 1], m, c), c) ==
      if es[n].merchant == m && es[n].amount.currency == c then Count(t, es[n], c) else Done(t)
  {
    var counted := Picked(es[..n], m, c);
    PickedOneMore(es, n, m, c);
    CountOneMore(before + counted, es[n], c);
    assert before + counted + [es[n]] == before + (counted + [es[n]]);
    assert counted + [] == counted;
  }

  /** The inner loop: one payment's entries on top of what was counted before. */
  method CountPayment(entries: seq<Entry>, m: string, c: Currency, start: Tally, ghost before: seq<Entry>)
    returns (r: Outcome<Tally>)
    requires CountAll(before, c) == Done(start)
    ensures r == CountAll(before + Picked(entries, m, c), c)
  {
    var t, j := start, 0;
    assert before + [] == before;
    while j < |entries|
      invariant 0 <= j <= |entries| && CountAll(before + Picked(entries[..j], m, c), c) == Done(t)
    {
      var e := entries[j];
      CountNext(before, entries, j, m, c, t);
      if e.merchant == m && e.amount.currency == c {
        var next := Count(t, e, c);
        if next.Refused? {
          RefusedInPayment(before, entries, j + 1, m, c);
          return next;
        }
        t := next.value;
      }
      j := j + 1;
    }
    assert entries[..j] == entries;
    return Done(t);
  }

  lemma {:induction false} PickedGrows(es: seq<Entry>, n: nat, m: string, c: Currency) returns (rest: seq<Entry>)
    requires n <= |es|
    ensures Picked(es, m, c) == Picked(es[..n], m, c) + rest
    decreases |es| - n
  {
    if n == |es| {
      rest := [];
      assert es[..n] == es;
    } else {
      rest := PickedGrows(es, n + 1, m, c);
      assert es[..n + 1][..n] == es[..n];
      var e := es[n];
      if e.merchant == m && e.amount.currency == c {
        rest := [e] + rest;
      }
    }
  }

  lemma {:induction false} ListedGrows(es: seq<Entry>, payments: seq<string>, n: nat, m: string, c: Currency)
      returns (rest: seq<Entry>)
    requires n <= |payments|
    ensures Listed(es, payments, m, c) == Listed(es, payments[..n], m, c) + rest
    decreases |payments| - n
  {
    if n == |payments| {
      rest := [];
      assert payments[..n] == payments;
    } else {
      var later := ListedGrows(es, payments, n + 1, m, c);
      assert payments[..n + 1][..n] == payments[..n];
      rest := Picked(OfPayment(es, payments[n]), m, c) + later;
    }
  }

  /** The report the entries determine, when the store answers. */
  function ReportOf(es: seq<Entry>, c: Currency): Outcome<Report> {
    match CountAll(es, c)
    case Refused(why) => Refused(why)
    case Done(t) =>
      match Sub(t.debits, t.credits)
      case Ok(residual) => Done(Report(t, residual))
      case Err(_) => Refused(Overflows)
  }

  lemma RefusedInReport(es: seq<Entry>, payments: seq<string>, n: nat, m: string, c: Currency)
    requires n <= |payments| && CountAll(Listed(es, payments[..n], m, c), c).Refused?
    ensures CountAll(Listed(es, payments, m, c), c) == CountAll(Listed(es, payments[..n], m, c), c)
  {
    var rest := ListedGrows(es, payments, n, m, c);
    RefusedPrefix(Listed(es, payments, m, c), Listed(es, payments[..n], m, c), rest, c);
  }

  /** The outer loop: payment by payment. failsAt is the payment whose lookup the store refuses, if any. */
  method CountListed(es: seq<Entry>, payments: seq<string>, m: string, c: Currency, failsAt: int)
    returns (r: Outcome<Tally>)
    ensures r == CountAll(Listed(es, payments, m, c), c) || (r == Refused(StoreFailed) && 0 <= failsAt < |payments|)
  {
    var t, i := Fresh(c), 0;
    while i < |payments|
      invariant 0 <= i <= |payments| && CountAll(Listed(es, payments[..i], m, c), c) == Done(t)
    {
      if i == failsAt { return Refused(StoreFailed); }
      var next := CountPayment(OfPayment(es, payments[i]), m, c, t, Listed(es, payments[..i], m, c));
      assert payments[..i + 1][..i] == payments[..i];
      if next.Refused? {
        RefusedInReport(es, payments, i + 1, m, c);
        return next;
      }
      t := next.value;
      i := i + 1;
    }
    assert payments[..i] == payments;
    return Done(t);
  }

  /** Reconcile over the stored entries; closes says whether the read transaction ends without error. */
  method Reconcile(
      tenant: string, m: string, c: Currency, supported: set<Currency>, payments: seq<string>,
      es: seq<Entry>, failsAt: int, closes: bool)
    returns (r: Outcome<Report>)
    ensures tenant == "" ==> r == Refused(NoTenant)
    ensures tenant != "" && c !in supported ==> r == Refused(Unsupported)
    ensures tenant != "" && c in supported && closes && !(0 <= failsAt < |payments|) ==>
      r == ReportOf(Listed(es, payments, m, c), c)
    ensures r.Done? ==> r == ReportOf(Listed(es, payments, m, c), c)
  {
    if tenant == "" { return Refused(NoTenant); }
    if c !in supported { return Refused(Unsupported); }
    var t := CountListed(es, payments, m, c, failsAt);
    if t.Refused? { return Refused(t.why); }
    if !closes { return Refused(StoreFailed); }
    var residual := Sub(t.value.debits, t.value.credits);
    if residual.Err? { return Refused(Overflows); }
    return Done(Report(t.value, residual.value));
  }

  // ---- what a report says ----

  /** One account's entries on one side. */
  function AccountTotal(es: seq<Entry>, a: Account, side: Side): int {
    if es == [] then 0
    else
      var e := es[|es| - 1];
      AccountTotal(es[..|es| - 1], a, side) + if e.account == a && e.side == side then e.amount.amount else 0
  }

  function Opposite(side: Side): Side {
    if side == Debit then Credit else Debit
  }

  function BalanceIn(t: Tally, a: Account): int {
    if a in t.balances then t.balances[a].amount else 0
  }

  function DebitNormal(t: Tally): int {
    BalanceIn(t, GatewayClearing) + BalanceIn(t, DisputesHeld) + BalanceIn(t, SettlementSuspense)
  }

  function CreditNormal(t: Tally): int {
    BalanceIn(t, MerchantReceivable) + BalanceIn(t, FeesPayable) + BalanceIn(t, RefundsPayable)
  }

  ghost predicate AllIn(es: seq<Entry>, c: Currency) {
    forall i :: 0 <= i < |es| ==> es[i].amount.currency == c
  }

  /** The side totals are the true sums, in the report's currency. */
  ghost predicate ExactSides(es: seq<Entry>, c: Currency, t: Tally) {
    && t.debits.currency == c && t.debits.amount == SideTotal(es, Debit, c)
    && t.credits.currency == c && t.credits.amount == SideTotal(es, Credit, c)
    && t.count == |es|
  }

  /** Each balance is what moved towards the account's normal side, less what moved against it. */
  ghost predicate ExactBalance(es: seq<Entry>, c: Currency, t: Tally, a: Account) {
    && (a in t.balances ==> t.balances[a].currency == c)
    && BalanceIn(t, a) == AccountTotal(es, a, NormalSide(a)) - AccountTotal(es, a, Opposite(NormalSide(a)))
  }

  ghost predicate Exact(es: seq<Entry>, c: Currency, t: Tally) {
    && ExactSides(es, c, t)
    && (forall a :: ExactBalance(es, c, t, a))
    && DebitNormal(t) - CreditNormal(t) == t.debits.amount - t.credits.amount
  }

  lemma CountKeepsSides(es: seq<Entry>, e: Entry, c: Currency, t: Tally)
    requires ExactSides(es, c, t) && e.amount.currency == c && Count(t, e, c).Done?
    ensures ExactSides(es + [e], c, Count(t, e, c).value)
  {
  }

  lemma AccountTotalOne(es: seq<Entry>, e: Entry, a: Account, side: Side)
    ensures AccountTotal(es + [e], a, side) ==
      AccountTotal(es, a, side) + if e.account == a && e.side == side then e.amount.amount else 0
  {
  }

  lemma CountMoves(e: Entry, c: Currency, t: Tally, a: Account)
    requires (a in t.balances ==> t.balances[a].currency == c) && e.amount.currency == c && e.amount.amount > 0
    requires Count(t, e, c).Done?
    ensures var after := Count(t, e, c).value;
      BalanceIn(after, a) == BalanceIn(t, a) + Move(e, a) && (a in after.balances ==> after.balances[a].currency == c)
  {
  }

  lemma CountKeepsBalance(es: seq<Entry>, e: Entry, c: Currency, t: Tally, a: Account)
    requires ExactBalance(es, c, t, a) && e.amount.currency == c && e.amount.amount > 0 && Count(t, e, c).Done?
    ensures ExactBalance(es + [e], c, Count(t, e, c).value, a)
    ensures BalanceIn(Count(t, e, c).value, a) == BalanceIn(t, a) + Move(e, a)
  {
    CountMoves(e, c, t, a);
    AccountTotalOne(es, e, a, NormalSide(a));
    AccountTotalOne(es, e, a, Opposite(NormalSide(a)));
  }

  /** How one entry moves an account, in its normal direction. */
  function Move(e: Entry, a: Account): int {
    var x: int := e.amount.amount;
    if e.account != a then 0 else if e.side == NormalSide(a) then x else 0 - x
  }

  lemma MoveIsOneSided(e: Entry)
    ensures Move(e, GatewayClearing) + Move(e, DisputesHeld) + Move(e, SettlementSuspense)
      - Move(e, MerchantReceivable) - Move(e, FeesPayable) - Move(e, RefundsPayable)
      == var x: int := e.amount.amount; if e.side == Debit then x else 0 - x
  {
  }

  lemma CountKeepsExact(es: seq<Entry>, e: Entry, c: Currency, t: Tally)
    requires Exact(es, c, t) && e.amount.currency == c && e.amount.amount > 0
    requires Count(t, e, c).Done?
    ensures Exact(es + [e], c, Count(t, e, c).value)
  {
    CountKeepsSides(es, e, c, t);
    SideTotalOne(es, e, c);
    forall a ensures ExactBalance(es + [e], c, Count(t, e, c).value, a) {
      assert ExactBalance(es, c, t, a);
      CountKeepsBalance(es, e, c, t, a);
    }
    CountMovesBoth(es, e, c, t);
  }

  lemma CountMovesBoth(es: seq<Entry>, e: Entry, c: Currency, t: Tally)
    requires Exact(es, c, t) && e.amount.currency == c && e.amount.amount > 0 && Count(t, e, c).Done?
    ensures var after, x: int := Count(t, e, c).value, e.amount.amount;
      DebitNormal(after) - CreditNormal(after) == DebitNormal(t) - CreditNormal(t) + if e.side == Debit then x
          else 0 - x
  {
    MoveIsOneSided(e);
    assert ExactBalance(es, c, t, GatewayClearing);
    assert ExactBalance(es, c, t, DisputesHeld);
    assert ExactBalance(es, c, t, SettlementSuspense);
    assert ExactBalance(es, c, t, MerchantReceivable);
    assert ExactBalance(es, c, t, FeesPayable);
    assert ExactBalance(es, c, t, RefundsPayable);
    CountKeepsBalance(es, e, c, t, GatewayClearing);
    CountKeepsBalance(es, e, c, t, DisputesHeld);
    CountKeepsBalance(es, e, c, t, SettlementSuspense);
    CountKeepsBalance(es, e, c, t, MerchantReceivable);
    CountKeepsBalance(es, e, c, t, FeesPayable);
    CountKeepsBalance(es, e, c, t, RefundsPayable);
  }

  lemma {:induction false} CountIsExact(es: seq<Entry>, c: Currency)
    requires AllPositive(es) && AllIn(es, c) && CountAll(es, c).Done?
    ensures Exact(es, c, CountAll(es, c).value)
    decreases |es|
  {
    if es != [] {
      var before, e := es[..|es| - 1], es[|es| - 1];
      CountIsExact(before, c);
      CountKeepsExact(before, e, c, CountAll(before, c).value);
      assert before + [e] == es;
    }
  }

  /**
   * Every report returned ties out: its totals and balances are the true sums, and debit-normal balances minus
   * credit-normal balances is the residual.
   */
  lemma ReportTiesOut(es: seq<Entry>, c: Currency)
    requires AllPositive(es) && AllIn(es, c) && ReportOf(es, c).Done?
    ensures var r := ReportOf(es, c).value;
      && Exact(es, c, r.tally)
      && r.residual.amount == DebitNormal(r.tally) - CreditNormal(r.tally)
      && r.residual.amount == SideTotal(es, Debit, c) - SideTotal(es, Credit, c)
  {
    CountIsExact(es, c);
  }

  // ---- a report over balanced books is clean ----

  /** Every entry of the group is of one merchant and one payment. */
  ghost predicate Uniform(tx: Transaction) {
    forall i :: 0 <= i < |tx| ==> tx[i].merchant == tx[0].merchant && tx[i].payment == tx[0].payment
  }

  /** All entries, group by group. */
  function Flat(books: seq<Transaction>): seq<Entry> {
    if books == [] then [] else Flat(books[..|books| - 1]) + books[|books| - 1]
  }

  /** The difference of the two sides among the entries one payment contributes. */
  function Skew(es: seq<Entry>, id: string, m: string, c: Currency): int {
    var mine := Picked(OfPayment(es, id), m, c);
    SideTotal(mine, Debit, c) - SideTotal(mine, Credit, c)
  }

  lemma {:induction false} SideTotalAppend(a: seq<Entry>, b: seq<Entry>, side: Side, c: Currency)
    ensures SideTotal(a + b, side, c) == SideTotal(a, side, c) + SideTotal(b, side, c)
    decreases |b|
  {
    if b == [] {
      assert a + b == a;
    } else {
      assert (a + b)[..|a + b| - 1] == a + b[..|b| - 1];
      SideTotalAppend(a, b[..|b| - 1], side, c);
    }
  }

  lemma SkewOne(es: seq<Entry>, e: Entry, id: string, m: string, c: Currency)
    ensures var x: int := e.amount.amount;
      Skew(es + [e], id, m, c) == Skew(es, id, m, c) +
      if e.payment != id || e.merchant != m || e.amount.currency != c then 0 else if e.side == Debit then x else 0 - x
  {
  }

  lemma {:induction false} SkewAppend(a: seq<Entry>, b: seq<Entry>, id: string, m: string, c: Currency)
    ensures Skew(a + b, id, m, c) == Skew(a, id, m, c) + Skew(b, id, m, c)
    decreases |b|
  {
    if b == [] {
      assert a + b == a;
    } else {
      var rest, e := b[..|b| - 1], b[|b| - 1];
      assert a + b == a + rest + [e] && b == rest + [e];
      SkewAppend(a, rest, id, m, c);
      SkewOne(a + rest, e, id, m, c);
      SkewOne(rest, e, id, m, c);
    }
  }

  /** A uniform group contributes all its entries in the currency, or none. */
  lemma {:induction false} SkewOfUniform(tx: Transaction, id: string, m: string, c: Currency)
    requires Uniform(tx)
    ensures Skew(tx, id, m, c) ==
      if tx != [] && tx[0].payment == id && tx[0].merchant == m
      then SideTotal(tx, Debit, c) - SideTotal(tx, Credit, c) else 0
    decreases |tx|
  {
    if tx != [] {
      var rest, e := tx[..|tx| - 1], tx[|tx| - 1];
      SkewOfUniform(rest, id, m, c);
      assert rest + [e] == tx;
      SkewOne(rest, e, id, m, c);
      SideTotalOne(rest, e, c);
    }
  }

  ghost predicate CleanBooks(books: seq<Transaction>) {
    forall i :: 0 <= i < |books| ==> Uniform(books[i]) && TrulyBalanced(books[i])
  }

  lemma {:induction false} NoSkewInCleanBooks(books: seq<Transaction>, id: string, m: string, c: Currency)
    requires CleanBooks(books)
    ensures Skew(Flat(books), id, m, c) == 0
    decreases |books|
  {
    if books != [] {
      var rest, tx := books[..|books| - 1], books[|books| - 1];
      NoSkewInCleanBooks(rest, id, m, c);
      SkewAppend(Flat(rest), tx, id, m, c);
      SkewOfUniform(tx, id, m, c);
      assert TrulyBalanced(tx);
    }
  }

  /** Over books of balanced groups, whatever payments are listed and however often, debits equal credits. */
  lemma {:induction false} CleanBooksTieOut(books: seq<Transaction>, payments: seq<string>, m: string, c: Currency)
    requires CleanBooks(books)
    ensures var listed := Listed(Flat(books), payments, m, c);
      SideTotal(listed, Debit, c) == SideTotal(listed, Credit, c)
    decreases |payments|
  {
    if payments != [] {
      var n := |payments| - 1;
      var mine := Picked(OfPayment(Flat(books), payments[n]), m, c);
      var before := Listed(Flat(books), payments[..n], m, c);
      CleanBooksTieOut(books, payments[..n], m, c);
      NoSkewInCleanBooks(books, payments[n], m, c);
      SideTotalAppend(before, mine, Debit, c);
      SideTotalAppend(before, mine, Credit, c);
    }
  }

  lemma {:induction false} OfPaymentIsSound(es: seq<Entry>, id: string)
    requires AllPositive(es)
    ensures AllPositive(OfPayment(es, id))
    decreases |es|
  {
    if es != [] {
      OfPaymentIsSound(es[..|es| - 1], id);
    }
  }

  lemma {:induction false} PickedIsSound(es: seq<Entry>, m: string, c: Currency)
    requires AllPositive(es)
    ensures AllPositive(Picked(es, m, c)) && AllIn(Picked(es, m, c), c)
    decreases |es|
  {
    if es != [] {
      PickedIsSound(es[..|es| - 1], m, c);
    }
  }

  lemma {:induction false} ListedIsSound(es: seq<Entry>, payments: seq<string>, m: string, c: Currency)
    requires AllPositive(es)
    ensures AllPositive(Listed(es, payments, m, c)) && AllIn(Listed(es, payments, m, c), c)
    decreases |payments|
  {
    if payments != [] {
      ListedIsSound(es, payments[..|payments| - 1], m, c);
      OfPaymentIsSound(es, payments[|payments| - 1]);
      PickedIsSound(OfPayment(es, payments[|payments| - 1]), m, c);
    }
  }

  /** So a report over such books, when there is one, has no residual. */
  lemma CleanBooksReportNoResidual(books: seq<Transaction>, payments: seq<string>, m: string, c: Currency)
    requires CleanBooks(books) && AllPositive(Flat(books))
    requires ReportOf(Listed(Flat(books), payments, m, c), c).Done?
    ensures ReportOf(Listed(Flat(books), payments, m, c), c).value.residual.amount == 0
  {
    ListedIsSound(Flat(books), payments, m, c);
    ReportTiesOut(Listed(Flat(books), payments, m, c), c);
    CleanBooksTieOut(books, payments, m, c);
  }
}

/** From posting to reconciliation: what a run of Apply calls leaves always ties out. */
module LedgerTheorems {
  import opened MoneyArithmetic
  import opened LedgerBalance
  import P = LedgerPosting
  import R = LedgerReport

  /**
   * A group as the builders make them: positive lines of one merchant and payment, within the range of the money type.
   */
  ghost predicate WellBuilt(tx: seq<Entry>) {
    R.Uniform(tx) && AllPositive(tx) && TotalsFit(tx)
  }

  ghost predicate AllWellBuilt(txs: seq<seq<Entry>>) {
    forall i :: 0 <= i < |txs| ==> WellBuilt(txs[i])
  }

  ghost predicate WellBuiltCalls(calls: P.Calls) {
    match calls
    case Start => true
    case Then(before, c) => WellBuiltCalls(before) && (c.built.Some? ==> AllWellBuilt(P.Movements(c.built.value)))
  }

  ghost predicate Sound(books: seq<seq<Entry>>) {
    R.CleanBooks(books) && AllWellBuilt(books)
  }

  lemma {:induction false} PostedBooksAreClean(log: bool, calls: P.Calls)
    requires WellBuiltCalls(calls)
    ensures Sound(P.Run(P.Ledger({}, []), log, calls).posted)
  {
    if calls.Then? {
      PostedBooksAreClean(log, calls.before);
      var now, c := P.Run(P.Ledger({}, []), log, calls.before), calls.last;
      if P.Succeeds(now, log, c) && !(log && c.reference in now.claims) {
        var txs := P.Movements(c.built.value);
        forall i | 0 <= i < |txs| ensures TrulyBalanced(txs[i]) {
          assert WellBuilt(txs[i]);
          GateIsExact(txs[i]);
        }
      }
    }
  }

  lemma {:induction false} FlatIsPositive(books: seq<seq<Entry>>)
    requires AllWellBuilt(books)
    ensures AllPositive(R.Flat(books))
    decreases |books|
  {
    if books != [] {
      FlatIsPositive(books[..|books| - 1]);
      assert WellBuilt(books[|books| - 1]);
    }
  }

  /** Any run of Apply calls, then any report: the books tie out, with a residual of zero. */
  lemma PostedBooksReconcile(log: bool, calls: P.Calls, payments: seq<string>, m: string, c: Currency)
    requires WellBuiltCalls(calls)
    ensures var listed := R.Listed(R.Flat(P.Run(P.Ledger({}, []), log, calls).posted), payments, m, c);
      R.ReportOf(listed, c).Done? ==> R.ReportOf(listed, c).value.residual.amount == 0
  {
    var books := P.Run(P.Ledger({}, []), log, calls).posted;
    PostedBooksAreClean(log, calls);
    FlatIsPositive(books);
    if R.ReportOf(R.Listed(R.Flat(books), payments, m, c), c).Done? {
      R.CleanBooksReportNoResidual(books, payments, m, c);
    }
  }
}
