/** Exact integer money (pkg/money/money.go): checked addition, multiplication and basis points. */
module MoneyArithmetic {
  import opened Int64

  type Currency = string

  datatype Money = Money(amount: int64, currency: Currency)

  datatype Error = CurrencyMismatch | Overflow | NegativeAllocate | DivideByZero | UnknownCurrency | Malformed

  datatype Result<+T> = Ok(value: T) | Err(error: Error)

  function Zero(c: Currency): (m: Money) {
    Money(0, c)
  }

  /** Overflow is inferred from the signs of the wrapped sum; the contract says the inference is exact. */
  function Add(m: Money, o: Money): (r: Result<Money>)
    ensures m.currency != o.currency ==> r == Err(CurrencyMismatch)
    ensures m.currency == o.currency && !Fits(m.amount + o.amount) ==> r == Err(Overflow)
    ensures m.currency == o.currency && Fits(m.amount + o.amount)
            ==> r.Ok? && r.value.amount == m.amount + o.amount && r.value.currency == m.currency
  {
    if m.currency != o.currency then Err(CurrencyMismatch) else
    var sum := Wrap(m.amount + o.amount);
    if (m.amount > 0 && o.amount > 0 && sum < 0) || (m.amount < 0 && o.amount < 0 && sum >= 0)
    then Err(Overflow)
    else Ok(Money(sum, m.currency))
  }

  function Sub(m: Money, o: Money): (r: Result<Money>)
    ensures m.currency != o.currency ==> r == Err(CurrencyMismatch)
    ensures m.currency == o.currency && !Fits(m.amount - o.amount) ==> r == Err(Overflow)
    ensures m.currency == o.currency && Fits(m.amount - o.amount)
            ==> r.Ok? && r.value.amount == m.amount - o.amount && r.value.currency == m.currency
  {
    if m.currency != o.currency then Err(CurrencyMismatch) else
    var diff := Wrap(m.amount - o.amount);
    if (m.amount >= 0 && o.amount < 0 && diff < 0) || (m.amount < 0 && o.amount > 0 && diff >= 0)
    then Err(Overflow)
    else Ok(Money(diff, m.currency))
  }

  function Neg(m: Money): Money {
    Money(Wrap(0 - m.amount), m.currency)
  }

  function AbsInt64(v: int64): int64 {
    if v < 0 then Wrap(0 - v) else v
  }

  function Mul(m: Money, factor: int64): Result<Money> {
    if factor != 0 && (m.amount > Div(MAX, AbsInt64(factor)) || m.amount < Div(MIN, AbsInt64(factor)))
    then Err(Overflow)
    else Ok(Money(Wrap(m.amount * factor), m.currency))
  }

  /** The guard compares against amount * |factor|, and refuses the factor MinInt64 outright. */
  lemma MulGuard(m: Money, factor: int64)
    ensures Mul(m, factor).Ok? <==> factor == 0 || (factor != MIN && Fits(m.amount * Abs(factor)))
    ensures Mul(m, factor).Ok? ==> Mul(m, factor).value == Money(Wrap(m.amount * factor), m.currency)
  {
    if factor == MIN {
      assert AbsInt64(factor) == MIN;
      assert Div(MAX, MIN) == 0 && Div(MIN, MIN) == 1;
    } else if factor != 0 {
      var a := Abs(factor);
      assert AbsInt64(factor) == a;
      QuoBounds(MAX, a);
      QuoBounds(MIN, a);
      UpperGuard(m.amount, a);
      LowerGuard(m.amount, a);
    }
  }

  lemma UpperGuard(x: int64, a: int64)
    requires a >= 1
    ensures x > Quo(MAX, a) <==> x * a > MAX
  {
    QuoBounds(MAX, a);
    var q := Quo(MAX, a);
    if x > q {
      MulMono(q + 1, x, a);
      assert (q + 1) * a == a * q + a;
    } else {
      MulMono(x, q, a);
      assert q * a == a * q;
    }
  }

  lemma LowerGuard(x: int64, a: int64)
    requires a >= 1
    ensures x < Quo(MIN, a) <==> x * a < MIN
  {
    QuoBounds(MIN, a);
    var q := Quo(MIN, a);
    if x < q {
      MulMono(x, q - 1, a);
      assert (q - 1) * a == a * q - a;
    } else {
      MulMono(q, x, a);
      assert q * a == a * q;
    }
  }

  /** "Succeeds exactly when the product fits, and then exactly": what an overflow-checked multiply promises. */
  predicate MulExact(m: Money, factor: int64) {
    && (Mul(m, factor).Ok? <==> Fits(m.amount * factor))
    && (Mul(m, factor).Ok? ==> Mul(m, factor).value.amount == m.amount * factor)
  }

  /**
   * The code keeps that promise on every pair but two boundary families: the factor MinInt64 with
   * the amount 0 or 1 (refused although the product fits), and a negative factor with a product of
   * magnitude exactly 2^63 (+2^63 slips through wrapped, -2^63 is refused although it fits).
   */
  lemma MulExactIff(m: Money, factor: int64)
    ensures MulExact(m, factor) <==>
            !(factor == MIN && (m.amount == 0 || m.amount == 1))
            && !(MIN < factor < 0 && Abs(m.amount * factor) == -MIN)
  {
    MulGuard(m, factor);
    MulByMagnitude(m.amount, factor);
    if factor == MIN {
      if m.amount < 0 {
        MulMono(m.amount, -1, -MIN);
      } else if m.amount > 1 {
        MulMono(2, m.amount, -MIN);
      }
    }
  }

  /** A success is exact unless the true product is +2^63, which comes back as MinInt64. */
  lemma MulExactOnSuccess(m: Money, factor: int64)
    requires Mul(m, factor).Ok?
    ensures Mul(m, factor).value.amount == (if m.amount * factor == -MIN then MIN else m.amount * factor)
  {
    MulGuard(m, factor);
    MulByMagnitude(m.amount, factor);
    ProductRegister(m.amount * factor, m.amount * Abs(factor));
  }

  lemma MulByMagnitude(x: int, y: int)
    ensures x * Abs(y) == if y < 0 then -(x * y) else x * y
  {
  }

  lemma ProductRegister(p: int, q: int)
    requires p == 0 || (Fits(q) && (p == q || p == -q))
    ensures Wrap(p) == if p == -MIN then MIN else p
  {
  }

  function MulBasisPoints(m: Money, bp: int64): Result<Money> {
    var prod := Wrap(m.amount * bp);
    if m.amount != 0 && Div(prod, m.amount) != bp then Err(Overflow) else
    var q, r := Quo(prod, 10000), Rem(prod, 10000);
    QuoBounds(prod, 10000);
    Ok(Money(Wrap(if r >= 5000 then q + 1 else if r <= -5000 then q - 1 else q), m.currency))
  }

  /** q is p / 10000 rounded to the nearest integer, halves away from zero. */
  predicate IsRoundedQuotient(p: int, q: int) {
    && Abs(p - 10000 * q) <= 5000
    && (Abs(p - 10000 * q) == 5000 ==> Abs(10000 * q) > Abs(p))
  }

  lemma RoundedQuotientUnique(p: int, q1: int, q2: int)
    requires IsRoundedQuotient(p, q1) && IsRoundedQuotient(p, q2)
    ensures q1 == q2
  {
  }

  lemma MulBasisPointsRounds(m: Money, bp: int64)
    requires Fits(m.amount * bp)
    ensures var r := MulBasisPoints(m, bp);
            r.Ok? && r.value.currency == m.currency && IsRoundedQuotient(m.amount * bp, r.value.amount)
  {
    var p := m.amount * bp;
    assert Wrap(p) == p;
    if m.amount != 0 {
      ExactQuotient(m.amount, bp);
    }
    QuoBounds(p, 10000);
    var q, r := Quo(p, 10000), Rem(p, 10000);
    assert p == 10000 * q + r;
    assert Abs(10000 * q) <= Abs(p);
    assert Abs(q) <= 0x7fff_ffff_ffff_ffff / 10000 + 1;
  }

  lemma ExactQuotient(a: int, b: int)
    requires a != 0
    ensures Quo(a * b, a) == b
  {
    QuoBounds(a * b, a);
    CloseMultiples(a, b, Quo(a * b, a));
  }

  /** Distinct multiples of a are at least |a| apart. */
  lemma CloseMultiples(a: int, x: int, y: int)
    requires a != 0
    requires Abs(a * x - a * y) < Abs(a)
    ensures x == y
  {
    var d := Abs(x - y);
    assert a * x - a * y == a * (x - y);
    assert Abs(a * (x - y)) == Abs(a) * d;
    if d >= 1 {
      MulMono(1, d, Abs(a));
    }
  }

  /** A product that left the range is caught, save for the pair (-1, MinInt64). */
  lemma MulBasisPointsDetects(m: Money, bp: int64)
    requires !Fits(m.amount * bp)
    ensures MulBasisPoints(m, bp) == Err(Overflow) <==> !(m.amount == -1 && bp == MIN)
  {
    var p := m.amount * bp;
    var w := Wrap(p);
    QuoBounds(w, m.amount);
    var q := Quo(w, m.amount);
    assert Abs(w - p) >= MODULUS;
    assert q != bp;
    if Fits(q) {
      assert Div(w, m.amount) == q;
    } else {
      QuoOutOfRange(w, m.amount);
      assert Div(w, m.amount) == MIN;
    }
  }

  lemma QuoOutOfRange(a: int64, b: int64)
    requires b != 0
    requires !Fits(Quo(a, b))
    ensures a == MIN && b == -1
  {
  }

  /** Together: the multiply is correct on every pair of int64 but one. */
  lemma MulBasisPointsIff(m: Money, bp: int64)
    ensures (if Fits(m.amount * bp)
             then MulBasisPoints(m, bp).Ok? && IsRoundedQuotient(m.amount * bp, MulBasisPoints(m, bp).value.amount)
             else MulBasisPoints(m, bp) == Err(Overflow))
            <==> !(m.amount == -1 && bp == MIN)
  {
    if Fits(m.amount * bp) {
      MulBasisPointsRounds(m, bp);
    } else {
      MulBasisPointsDetects(m, bp);
    }
  }

  /** The true total of the amounts. */
  function Total(values: seq<Money>): int {
    if values == [] then 0 else Total(values[..|values| - 1]) + values[|values| - 1].amount
  }

  /** Every running total of a summation in c, and every currency, is acceptable. */
  ghost predicate Summable(c: Currency, values: seq<Money>) {
    && (forall v :: v in values ==> v.currency == c)
    && (forall k :: 0 <= k <= |values| ==> Fits(Total(values[..k])))
  }

  method Sum(c: Currency, values: seq<Money>) returns (r: Result<Money>)
    ensures r.Ok? <==> Summable(c, values)
    ensures r.Ok? ==> r.value.amount == Total(values) && r.value.currency == c
  {
    var acc := Zero(c);
    for i := 0 to |values|
      invariant acc.currency == c && acc.amount == Total(values[..i])
      invariant forall k :: 0 <= k < i ==> values[k].currency == c
      invariant forall k :: 0 <= k <= i ==> Fits(Total(values[..k]))
    {
      assert values[..i + 1][..i] == values[..i];
      assert Total(values[..i + 1]) == Total(values[..i]) + values[i].amount;
      var sum := Add(acc, values[i]);
      if sum.Err? {
        assert values[i] in values;
        return sum;
      }
      acc := sum.value;
    }
    assert values[..|values|] == values;
    return Ok(acc);
  }
}
