/** Decimal numerals: writing a number out and reading it back. */
module Decimal {
  import opened Int64
  import opened Options

  predicate IsDigit(c: char) {
    '0' <= c <= '9'
  }

  ghost predicate AllDigits(s: string) {
    forall i :: 0 <= i < |s| ==> IsDigit(s[i])
  }

  function Digit(d: int): char
    requires 0 <= d < 10
  {
    '0' + d as char
  }

  /** The numeral of a natural number, without leading zeros. */
  function Numeral(n: nat): (s: string)
    ensures |s| > 0 && AllDigits(s)
  {
    if n < 10 then [Digit(n)] else Numeral(n / 10) + [Digit(n % 10)]
  }

  function DigitValue(c: char): int {
    c as int - '0' as int
  }

  /** The number a string of digits denotes. */
  function Number(s: string): int {
    if s == [] then 0 else Number(s[..|s| - 1]) * 10 + DigitValue(s[|s| - 1])
  }

  lemma {:induction false} NumberOfNumeral(n: nat)
    ensures Number(Numeral(n)) == n
  {
    if n < 10 {
      assert [Digit(n)][..0] == [];
    } else {
      NumberOfNumeral(n / 10);
      assert Numeral(n)[..|Numeral(n)| - 1] == Numeral(n / 10);
    }
  }

  /** strconv.FormatInt(v, 10). */
  function FormatInt(v: int): string {
    if v < 0 then "-" + Numeral(-v) else Numeral(v)
  }

  lemma FormatIntInjective(v: int, w: int)
    requires FormatInt(v) == FormatInt(w)
    ensures v == w
  {
    var x := if v < 0 then -v else v;
    var y := if w < 0 then -w else w;
    NumberOfNumeral(x);
    NumberOfNumeral(y);
    assert v < 0 ==> FormatInt(v)[0] == '-' && FormatInt(v)[1..] == Numeral(x);
    assert w < 0 ==> FormatInt(w)[0] == '-' && FormatInt(w)[1..] == Numeral(y);
    assert v >= 0 ==> IsDigit(FormatInt(v)[0]);
    assert w >= 0 ==> IsDigit(FormatInt(w)[0]);
  }

  predicate Digits(s: string) {
    |s| > 0 && forall i :: 0 <= i < |s| ==> IsDigit(s[i])
  }

  /** strconv.ParseInt(s, 10, 64): a sign, digits, and a value in range. */
  function ParseInt(s: string): Option<int> {
    var signed := |s| > 0 && (s[0] == '-' || s[0] == '+');
    var body := if signed then s[1..] else s;
    if !Digits(body) then None
    else
      var n := Number(body);
      var v := if signed && s[0] == '-' then 0 - n else n;
      if Fits(v) then Some(v) else None
  }

  lemma ParseUnsigned(s: string)
    requires Digits(s) && Fits(Number(s))
    ensures ParseInt(s) == Some(Number(s))
  {
  }
}

/** Money as text (pkg/money/money.go, String, Scan and ParseMinorUnits). */
module MoneyText {
  import opened Int64
  import opened MoneyArithmetic
  import D = Decimal
  import opened Options

  const CURRENCIES_A_TO_H: map<Currency, nat> := map[
    "AED" := 2, "AUD" := 2, "BHD" := 3, "BRL" := 2, "CAD" := 2, "CHF" := 2, "CLF" := 4, "CLP" := 0, "CNY" := 2,
    "COP" := 2, "CZK" := 2, "DKK" := 2, "EUR" := 2, "GBP" := 2, "HKD" := 2, "HUF" := 2
  ]

  const CURRENCIES_I_TO_P: map<Currency, nat> := map[
    "IDR" := 2, "ILS" := 2, "INR" := 2, "ISK" := 0, "JOD" := 3, "JPY" := 0, "KRW" := 0, "KWD" := 3, "MXN" := 2,
    "MYR" := 2, "NOK" := 2, "NZD" := 2, "OMR" := 3, "PHP" := 2, "PLN" := 2
  ]

  const CURRENCIES_R_TO_Z: map<Currency, nat> := map[
    "RON" := 2, "SAR" := 2, "SEK" := 2, "SGD" := 2, "THB" := 2, "TND" := 3, "TRY" := 2, "TWD" := 2, "USD" := 2,
    "VND" := 0, "ZAR" := 2
  ]

  /** The supported currencies and their exponents. */
  const CURRENCIES: map<Currency, nat> := CURRENCIES_A_TO_H + CURRENCIES_I_TO_P + CURRENCIES_R_TO_Z

  /** Exponent, over a table of currencies: two for a currency that is not in it. */
  function Exponent(table: map<Currency, nat>, c: Currency): nat {
    if c in table then table[c] else 2
  }

  function Pow10(n: nat): (p: int)
    ensures p >= 1
  {
    if n == 0 then 1 else 10 * Pow10(n - 1)
  }

  function Zeros(n: int): (s: string)
    ensures |s| == (if n < 0 then 0 else n) && forall i :: 0 <= i < |s| ==> s[i] == '0'
  {
    if n <= 0 then "" else seq(n, _ => '0')
  }

  /** The verb %0*d: padded with zeros to the width, after the sign if there is one. */
  function Padded(v: int, width: int): string {
    if v >= 0 then Zeros(width - |D.Numeral(v)|) + D.Numeral(v)
    else "-" + Zeros(width - 1 - |D.Numeral(0 - v)|) + D.Numeral(0 - v)
  }

  function Sign(neg: bool): string {
    if neg then "-" else ""
  }

  /** The amount part of String. */
  function AmountText(amount: int, exp: nat): string {
    if exp == 0 then D.FormatInt(amount)
    else
      var a := if amount < 0 then Wrap(0 - amount) else amount;
      Sign(amount < 0) + D.FormatInt(Quo(a, Pow10(exp))) + "." + Padded(Rem(a, Pow10(exp)), exp)
  }

  /** String. */
  function Text(table: map<Currency, nat>, m: Money): string {
    m.currency + " " + AmountText(m.amount, Exponent(table, m.currency))
  }

  // ---- reading ----

  /** unicode.IsSpace. */
  predicate IsSpace(c: char) {
    var u := c as int;
    || 0x09 <= u <= 0x0D || u == 0x20 || u == 0x85 || u == 0xA0 || u == 0x1680
    || 0x2000 <= u <= 0x200A || u == 0x2028 || u == 0x2029 || u == 0x202F || u == 0x205F || u == 0x3000
  }

  ghost predicate NoSpace(s: string) {
    forall i :: 0 <= i < |s| ==> !IsSpace(s[i])
  }

  function TrimLeft(s: string): string {
    if s != "" && IsSpace(s[0]) then TrimLeft(s[1..]) else s
  }

  function TrimRight(s: string): string {
    if s != "" && IsSpace(s[|s| - 1]) then TrimRight(s[..|s| - 1]) else s
  }

  function TrimSpace(s: string): string {
    TrimRight(TrimLeft(s))
  }

  function TrimPrefix(s: string, c: char): string {
    if s != "" && s[0] == c then s[1..] else s
  }

  /** The end of the word that starts at i. */
  function WordEnd(s: string, i: nat): (e: nat)
    requires i <= |s|
    ensures i <= e <= |s|
    decreases |s| - i
  {
    if i < |s| && !IsSpace(s[i]) then WordEnd(s, i + 1) else i
  }

  /** strings.Fields. */
  function Fields(s: string): seq<string>
    decreases |s|
  {
    if s == "" then []
    else if IsSpace(s[0]) then Fields(s[1..])
    else
      var e := WordEnd(s, 1);
      [s[..e]] + Fields(s[e..])
  }

  /** The position of the first point, or the length. */
  function Point(s: string): (p: nat)
    ensures p <= |s| && (p < |s| ==> s[p] == '.') && forall i :: 0 <= i < p ==> s[i] != '.'
  {
    if s == "" || s[0] == '.' then 0 else 1 + Point(s[1..])
  }

  /** strings.Cut at the point, with "0" for an empty part before it. */
  function Cut(s: string): (string, string) {
    var p := Point(s);
    (if p == 0 then "0" else s[..p], if p < |s| then s[p + 1..] else "")
  }

  /** The last part of ParseMinorUnits: the overflow guard, the sum, the sign. */
  function Combine(neg: bool, whole: int, frac: int, mult: int): Result<int>
    requires mult != 0
  {
    if whole > Quo(Wrap(MAX - frac), mult) then Err(Overflow)
    else
      var total := Wrap(Wrap(whole * mult) + frac);
      Ok(if neg then Wrap(0 - total) else total)
  }

  /** The middle part: the digits before and after the point, the latter padded to the exponent. */
  function FromParts(neg: bool, intPart: string, fracPart: string, exp: nat): Result<int> {
    if |fracPart| > exp then Err(Malformed)
    else
      var whole := D.ParseInt(intPart);
      var frac := if exp > 0 then D.ParseInt(fracPart + Zeros(exp - |fracPart|)) else Some(0);
      if whole.None? || frac.None? then Err(Malformed)
      else Combine(neg, whole.value, frac.value, Pow10(exp))
  }

  /** ParseMinorUnits for a currency of the given exponent. */
  function ParseMinor(text: string, exp: nat): Result<int> {
    var trimmed := TrimSpace(text);
    var neg := trimmed != "" && trimmed[0] == '-';
    var parts := Cut(TrimPrefix(TrimPrefix(trimmed, '-'), '+'));
    FromParts(neg, parts.0, parts.1, exp)
  }

  function Upper(s: string): string {
    seq(|s|, i requires 0 <= i < |s| => if 'a' <= s[i] <= 'z' then s[i] - 32 as char else s[i])
  }

  function ParseCurrency(table: map<Currency, nat>, s: string): Result<Currency> {
    var c := Upper(TrimSpace(s));
    if c in table then Ok(c) else Err(UnknownCurrency)
  }

  /** Scan of a string. */
  function Scan(table: map<Currency, nat>, s: string): Result<(int, Currency)> {
    var parts := Fields(s);
    if |parts| != 2 then Err(Malformed)
    else
      match ParseCurrency(table, parts[0])
      case Err(e) => Err(e)
      case Ok(c) =>
        match ParseMinor(parts[1], Exponent(table, c))
        case Err(e) => Err(e)
        case Ok(v) => Ok((v, c))
  }

  // ---- the round trip ----

  lemma {:induction false} WordEndAt(s: string, i: nat, e: nat)
    requires i <= e <= |s| && (forall k :: i <= k < e ==> !IsSpace(s[k])) && (e < |s| ==> IsSpace(s[e]))
    ensures WordEnd(s, i) == e
    decreases e - i
  {
    if i < e {
      WordEndAt(s, i + 1, e);
    }
  }

  lemma OneField(s: string)
    requires s != "" && NoSpace(s)
    ensures Fields(s) == [s]
  {
    WordEndAt(s, 1, |s|);
    assert s[..|s|] == s && s[|s|..] == "";
  }

  lemma TwoFields(a: string, b: string)
    requires a != "" && b != "" && NoSpace(a) && NoSpace(b)
    ensures Fields(a + " " + b) == [a, b]
  {
    var s := a + " " + b;
    assert forall k :: 0 <= k < |a| ==> s[k] == a[k];
    assert s[|a|] == ' ';
    WordEndAt(s, 1, |a|);
    assert s[..|a|] == a && s[|a|..] == " " + b && (" " + b)[1..] == b;
    OneField(b);
  }

  lemma TrimNothing(s: string)
    requires NoSpace(s)
    ensures TrimSpace(s) == s
  {
  }

  lemma {:induction false} NumberOfPadded(k: nat, s: string)
    ensures D.Number(Zeros(k) + s) == D.Number(s)
    decreases k + |s|
  {
    var t := Zeros(k) + s;
    if s != "" {
      assert t[..|t| - 1] == Zeros(k) + s[..|s| - 1];
      NumberOfPadded(k, s[..|s| - 1]);
    } else if k > 0 {
      assert t[..|t| - 1] == Zeros(k - 1) + s;
      NumberOfPadded(k - 1, s);
    }
  }

  lemma {:induction false} NumeralLength(n: nat, exp: nat)
    requires exp > 0 && n < Pow10(exp)
    ensures |D.Numeral(n)| <= exp
  {
    if n >= 10 {
      NumeralLength(n / 10, exp - 1);
    }
  }

  /** The padded minor part is exactly exp digits and denotes the minor units. */
  lemma PaddedReads(minor: nat, exp: nat)
    requires exp > 0 && minor < Pow10(exp) && Fits(minor)
    ensures |Padded(minor, exp)| == exp && D.AllDigits(Padded(minor, exp))
    ensures D.ParseInt(Padded(minor, exp)) == Some(minor)
  {
    NumeralLength(minor, exp);
    var k := exp - |D.Numeral(minor)|;
    NumberOfPadded(k, D.Numeral(minor));
    D.NumberOfNumeral(minor);
    assert Padded(minor, exp) == Zeros(k) + D.Numeral(minor);
    D.ParseUnsigned(Padded(minor, exp));
  }

  lemma NumeralReads(n: nat)
    requires Fits(n)
    ensures D.ParseInt(D.Numeral(n)) == Some(n)
  {
    D.NumberOfNumeral(n);
    D.ParseUnsigned(D.Numeral(n));
  }

  /** The overflow guard passes exactly when the value fits. */
  lemma GuardExact(major: nat, minor: nat, mult: int)
    requires mult >= 1 && minor <= MAX
    ensures major > Quo(MAX - minor, mult) <==> major * mult + minor > MAX
  {
    var q := (MAX - minor) / mult;
    MagnitudeBounds(MAX - minor, mult);
    if major > q {
      MulMono(q + 1, major, mult);
      assert (q + 1) * mult == q * mult + mult;
    } else {
      MulMono(major, q, mult);
    }
  }

  lemma CombineExact(neg: bool, major: nat, minor: nat, mult: int)
    requires mult >= 1 && major * mult + minor <= MAX
    ensures Combine(neg, major, minor, mult) == Ok(if neg then 0 - (major * mult + minor) else major * mult + minor)
  {
    GuardExact(major, minor, mult);
    MulMono(0, major, mult);
    var product := major * mult;
    assert 0 <= product <= MAX;
  }

  /** Zeros after a numeral multiply it by a power of ten. */
  lemma {:induction false} NumberWithZeros(s: string, k: nat)
    ensures D.Number(s + Zeros(k)) == D.Number(s) * Pow10(k)
  {
    var t := s + Zeros(k);
    if k == 0 {
      assert t == s;
    } else {
      NumberWithZeros(s, k - 1);
      assert t[..|t| - 1] == s + Zeros(k - 1);
      assert D.Number(s) * (10 * Pow10(k - 1)) == D.Number(s) * Pow10(k - 1) * 10;
    }
  }

  lemma {:induction false} NumberBelow(s: string)
    requires D.AllDigits(s)
    ensures 0 <= D.Number(s) < Pow10(|s|)
    decreases |s|
  {
    if s != "" {
      NumberBelow(s[..|s| - 1]);
    }
  }

  /** What the decimal is worth in minor units. */
  function MinorUnits(whole: string, frac: string, exp: nat): int
    requires |frac| <= exp
  {
    D.Number(whole) * Pow10(exp) + D.Number(frac) * Pow10(exp - |frac|)
  }

  /** The fraction, filled up with zeros on the right. */
  lemma FractionReads(frac: string, exp: nat)
    requires D.AllDigits(frac) && |frac| <= exp && exp > 0 && Pow10(exp) <= MAX
    ensures var v := D.Number(frac) * Pow10(exp - |frac|);
      0 <= v < Pow10(exp) && D.ParseInt(frac + Zeros(exp - |frac|)) == Some(v)
  {
    var filled := frac + Zeros(exp - |frac|);
    NumberWithZeros(frac, exp - |frac|);
    NumberBelow(filled);
    D.ParseUnsigned(filled);
  }

  /** What should be read: the value if it fits, and an error if the whole part or the value does not. */
  function ReadAs(neg: bool, whole: int, value: int): Result<int> {
    if whole > MAX then Err(Malformed)
    else if value > MAX then Err(Overflow)
    else Ok(if neg then 0 - value else value)
  }

  lemma FromPartsIs(neg: bool, whole: string, frac: string, exp: nat, n: int, minor: int)
    requires |frac| <= exp && D.ParseInt(whole) == Some(n)
    requires if exp > 0 then D.ParseInt(frac + Zeros(exp - |frac|)) == Some(minor) else minor == 0
    ensures FromParts(neg, whole, frac, exp) == Combine(neg, n, minor, Pow10(exp))
  {
  }

  lemma WholeTooLarge(neg: bool, whole: string, frac: string, exp: nat)
    requires D.Digits(whole) && D.Number(whole) > MAX
    ensures FromParts(neg, whole, frac, exp) == Err(Malformed)
  {
  }

  lemma PartsRead(neg: bool, whole: string, frac: string, exp: nat, value: int)
    requires D.Digits(whole) && D.AllDigits(frac) && |frac| <= exp && Pow10(exp) <= MAX
    requires value == MinorUnits(whole, frac, exp)
    ensures FromParts(neg, whole, frac, exp) == ReadAs(neg, D.Number(whole), value)
  {
    var n := D.Number(whole);
    var minor := MinorOf(frac, exp);
    NumberBelow(whole);
    if n > MAX {
      WholeTooLarge(neg, whole, frac, exp);
    } else {
      D.ParseUnsigned(whole);
      FromPartsIs(neg, whole, frac, exp, n, minor);
      CombineReads(neg, n, minor, Pow10(exp), value);
    }
  }

  /** The minor units of the fraction, which the filled-up digits are read as. */
  lemma MinorOf(frac: string, exp: nat) returns (minor: nat)
    requires D.AllDigits(frac) && |frac| <= exp && Pow10(exp) <= MAX
    ensures minor == D.Number(frac) * Pow10(exp - |frac|) && minor <= MAX
    ensures if exp > 0 then D.ParseInt(frac + Zeros(exp - |frac|)) == Some(minor) else minor == 0
  {
    if exp > 0 {
      FractionReads(frac, exp);
      minor := D.Number(frac) * Pow10(exp - |frac|);
    } else {
      minor := 0;
    }
  }

  lemma CombineReads(neg: bool, major: nat, minor: nat, mult: int, value: int)
    requires mult >= 1 && minor <= MAX && major <= MAX && value == major * mult + minor
    ensures Combine(neg, major, minor, mult) == ReadAs(neg, major, value)
  {
    if value <= MAX {
      CombineExact(neg, major, minor, mult);
    } else {
      GuardExact(major, minor, mult);
    }
  }

  lemma SignReadOff(neg: bool, body: string)
    requires body != "" && NoSpace(body) && body[0] != '+' && (neg || body[0] != '-')
    ensures var text := Sign(neg) + body;
      && TrimSpace(text) == text
      && text != "" && (text[0] == '-' <==> neg)
      && TrimPrefix(TrimPrefix(text, '-'), '+') == body
  {
  }

  /** The sign is read off, the rest is cut at its point. */
  lemma Dissected(neg: bool, whole: string, rest: string, exp: nat)
    requires whole != "" && NoSpace(whole) && NoSpace(rest) && '.' !in whole
    requires whole[0] != '+' && (neg || whole[0] != '-')
    requires rest == "" || rest[0] == '.'
    ensures ParseMinor(Sign(neg) + whole + rest, exp)
        == FromParts(neg, whole, if rest == "" then "" else rest[1..], exp)
  {
    var body := whole + rest;
    assert Sign(neg) + whole + rest == Sign(neg) + body;
    assert body[0] == whole[0] && NoSpace(body);
    SignReadOff(neg, body);
    CutAt(whole, rest);
  }

  lemma PointAt(whole: string, rest: string)
    requires '.' !in whole && (rest == "" || rest[0] == '.')
    ensures Point(whole + rest) == |whole|
  {
    var s := whole + rest;
    assert forall i :: 0 <= i < |whole| ==> s[i] == whole[i];
    assert rest != "" ==> s[|whole|] == '.';
  }

  lemma CutAt(whole: string, rest: string)
    requires whole != "" && '.' !in whole && (rest == "" || rest[0] == '.')
    ensures Cut(whole + rest) == (whole, if rest == "" then "" else rest[1..])
  {
    PointAt(whole, rest);
    var s := whole + rest;
    assert s[..|whole|] == whole;
    assert rest != "" ==> s[|whole| + 1..] == rest[1..];
  }

  lemma PartsParse(neg: bool, major: nat, minor: nat, exp: nat, v: int)
    requires exp > 0 && minor < Pow10(exp) && major * Pow10(exp) + minor == v <= MAX
    ensures FromParts(neg, D.Numeral(major), Padded(minor, exp), exp) == Ok(if neg then 0 - v else v)
  {
    var mult := Pow10(exp);
    assert 0 <= major <= major * mult by { MulMono(1, mult, major); }
    PaddedReads(minor, exp);
    NumeralReads(major);
    CombineExact(neg, major, minor, mult);
    assert Padded(minor, exp) + Zeros(0) == Padded(minor, exp);
  }

  lemma DigitsAreClean(s: string)
    requires D.AllDigits(s)
    ensures NoSpace(s) && '.' !in s && '-' !in s && '+' !in s
  {
  }

  lemma DecimalDissected(neg: bool, whole: string, frac: string, exp: nat)
    requires whole != "" && D.AllDigits(whole) && D.AllDigits(frac)
    ensures ParseMinor(Sign(neg) + whole + "." + frac, exp) == FromParts(neg, whole, frac, exp)
  {
    var sign, rest := Sign(neg), "." + frac;
    DigitsAreClean(whole);
    DigitsAreClean(frac);
    assert sign + whole + "." + frac == sign + whole + rest;
    assert rest[1..] == frac;
    assert whole[0] in whole;
    Dissected(neg, whole, rest, exp);
  }
  lemma PointFirst(neg: bool, frac: string, exp: nat)
    requires D.AllDigits(frac)
    ensures ParseMinor(Sign(neg) + "." + frac, exp) == FromParts(neg, "0", frac, exp)
  {
    var body := "." + frac;
    DigitsAreClean(frac);
    assert Sign(neg) + "." + frac == Sign(neg) + body;
    SignReadOff(neg, body);
    assert Point(body) == 0 && body[1..] == frac;
  }

  lemma ZeroWhole(frac: string, exp: nat)
    requires |frac| <= exp
    ensures D.Digits("0") && D.Number("0") == D.Number("") && MinorUnits("0", frac, exp) == MinorUnits("", frac, exp)
  {
    assert "0"[..0] == "";
  }

  /**
   * A decimal with at most as many digits after the point as the currency has is read as what it is worth, with the
   * missing digits taken for zeros and a missing whole part for zero; with more it is refused.
   */
  lemma DecimalReads(neg: bool, whole: string, frac: string, exp: nat)
    requires D.AllDigits(whole) && D.AllDigits(frac) && Pow10(exp) <= MAX
    ensures ParseMinor(Sign(neg) + whole + "." + frac, exp) ==
      if |frac| > exp then Err(Malformed) else ReadAs(neg, D.Number(whole), MinorUnits(whole, frac, exp))
  {
    if whole == "" {
      assert Sign(neg) + whole + "." + frac == Sign(neg) + "." + frac;
      PointFirst(neg, frac, exp);
      if |frac| <= exp {
        ZeroWhole(frac, exp);
        PartsRead(neg, "0", frac, exp, MinorUnits("0", frac, exp));
      }
    } else {
      DecimalDissected(neg, whole, frac, exp);
      if |frac| <= exp {
        PartsRead(neg, whole, frac, exp, MinorUnits(whole, frac, exp));
      }
    }
  }

  /** And so is one without a point. */
  lemma WholeReads(neg: bool, whole: string, exp: nat)
    requires D.Digits(whole) && Pow10(exp) <= MAX
    ensures ParseMinor(Sign(neg) + whole, exp) == ReadAs(neg, D.Number(whole), MinorUnits(whole, "", exp))
  {
    DigitsAreClean(whole);
    assert whole[0] in whole;
    assert Sign(neg) + whole + "" == Sign(neg) + whole;
    Dissected(neg, whole, "", exp);
    PartsRead(neg, whole, "", exp, MinorUnits(whole, "", exp));
  }

  lemma WholeParts(neg: bool, n: nat)
    requires n <= MAX
    ensures FromParts(neg, D.Numeral(n), "", 0) == Ok(if neg then 0 - n else n)
  {
    NumeralReads(n);
    CombineExact(neg, n, 0, 1);
  }

  lemma WholeDissected(neg: bool, whole: string)
    requires whole != "" && D.AllDigits(whole)
    ensures ParseMinor(Sign(neg) + whole, 0) == FromParts(neg, whole, "", 0)
  {
    DigitsAreClean(whole);
    assert whole[0] in whole;
    assert Sign(neg) + whole + "" == Sign(neg) + whole;
    Dissected(neg, whole, "", 0);
  }

  lemma DivideNatural(a: nat, p: int) returns (q: nat, r: nat)
    requires p >= 1
    ensures a == q * p + r && r < p && Quo(a, p) == q && Rem(a, p) == r
  {
    q, r := a / p, a % p;
  }

  lemma DecimalReadsBack(amount: int, exp: nat)
    requires MIN < amount <= MAX && exp > 0
    ensures ParseMinor(AmountText(amount, exp), exp) == Ok(amount)
  {
    var neg, a := amount < 0, Abs(amount);
    var major, minor := DivideNatural(a, Pow10(exp));
    assert AmountText(amount, exp) == Sign(neg) + D.Numeral(major) + "." + Padded(minor, exp);
    PaddedReads(minor, exp);
    DecimalDissected(neg, D.Numeral(major), Padded(minor, exp), exp);
    PartsParse(neg, major, minor, exp, a);
  }

  /** Above MinInt64 the amount reads back, whatever the exponent. */
  lemma AmountReadsBack(amount: int, exp: nat)
    requires MIN < amount <= MAX
    ensures ParseMinor(AmountText(amount, exp), exp) == Ok(amount)
  {
    if exp == 0 {
      WholeParts(amount < 0, Abs(amount));
      WholeDissected(amount < 0, D.Numeral(Abs(amount)));
      assert AmountText(amount, 0) == Sign(amount < 0) + D.Numeral(Abs(amount));
    } else {
      DecimalReadsBack(amount, exp);
    }
  }

  /** MinInt64 has no positive counterpart: with no minor digits, its magnitude does not read. */
  lemma MinWithoutMinorDigits()
    ensures ParseMinor(AmountText(MIN, 0), 0) == Err(Malformed)
  {
    var n := 0x8000_0000_0000_0000;
    D.NumberOfNumeral(n);
    DigitsAreClean(D.Numeral(n));
    assert D.Numeral(n)[0] in D.Numeral(n);
    assert "-" + D.Numeral(n) + "" == AmountText(MIN, 0);
    Dissected(true, D.Numeral(n), "", 0);
  }

  /** With minor digits both parts come out negative, each with a sign of its own. */
  lemma MinText(exp: nat, major: nat, minor: nat)
    requires exp > 0 && 0x8000_0000_0000_0000 == major * Pow10(exp) + minor && 0 < minor < Pow10(exp) && 0 < major
    ensures AmountText(MIN, exp) == "-" + ("-" + D.Numeral(major)) + ("." + Padded(0 - minor, exp))
  {
    QuotientUnique(major, minor, Pow10(exp));
    assert Wrap(0 - MIN) == MIN;
    assert Quo(MIN, Pow10(exp)) == 0 - major;
    assert Rem(MIN, Pow10(exp)) == 0 - minor;
  }

  lemma MinDissected(exp: nat, major: nat, minor: nat)
    requires exp > 0 && 0x8000_0000_0000_0000 == major * Pow10(exp) + minor && 0 < minor < Pow10(exp) && 0 < major
    ensures ParseMinor(AmountText(MIN, exp), exp)
        == FromParts(true, "-" + D.Numeral(major), Padded(0 - minor, exp), exp)
  {
    MinText(exp, major, minor);
    var whole, frac := "-" + D.Numeral(major), Padded(0 - minor, exp);
    DigitsAreClean(D.Numeral(major));
    DigitsAreClean(D.Numeral(minor));
    assert NoSpace(frac);
    assert ("." + frac)[1..] == frac;
    Dissected(true, whole, "." + frac, exp);
  }

  lemma NegativeReads(n: nat)
    requires Fits(0 - n)
    ensures D.ParseInt("-" + D.Numeral(n)) == Some(0 - n)
  {
    D.NumberOfNumeral(n);
    assert ("-" + D.Numeral(n))[1..] == D.Numeral(n);
  }

  /** With two minor digits, the two signs cancel on the way back. */
  lemma MinWithTwoMinorDigits()
    ensures ParseMinor(AmountText(MIN, 2), 2) == Ok(MIN)
  {
    assert Pow10(2) == 100;
    MinDissected(2, 92233720368547758, 8);
    NegativeReads(92233720368547758);
    NegativeReads(8);
    assert Padded(-8, 2) == "-" + D.Numeral(8);
    assert Padded(-8, 2) + Zeros(0) == Padded(-8, 2);
    MinCombines();
  }

  lemma MinCombines()
    ensures Combine(true, -92233720368547758, -8, 100) == Ok(MIN)
  {
  }

  /** With three or four, the sign of the minor part takes one place too many. */
  lemma MinWithMoreMinorDigits(exp: nat)
    requires exp == 3 || exp == 4
    ensures ParseMinor(AmountText(MIN, exp), exp) == Err(Malformed)
  {
    if exp == 3 {
      assert Pow10(3) == 1000;
      MinDissected(3, 9223372036854775, 808);
      assert D.Numeral(8) == "8" && |D.Numeral(80)| == 2 && |D.Numeral(808)| == 3;
    } else {
      assert Pow10(2) == 100 && Pow10(4) == 10000;
      MinDissected(4, 922337203685477, 5808);
      assert |D.Numeral(58)| == 2 && |D.Numeral(580)| == 3 && |D.Numeral(5808)| == 4;
    }
  }

  /** Codes are three capitals, exponents are the four there are. */
  ghost predicate IsTable(table: map<Currency, nat>) {
    forall c :: c in table ==> ThreeCapitals(c) && table[c] in {0, 2, 3, 4}
  }

  predicate ThreeCapitals(c: string) {
    |c| == 3 && 'A' <= c[0] <= 'Z' && 'A' <= c[1] <= 'Z' && 'A' <= c[2] <= 'Z'
  }

  lemma TableAToH()
    ensures IsTable(CURRENCIES_A_TO_H)
  {
  }

  lemma TableIToP()
    ensures IsTable(CURRENCIES_I_TO_P)
  {
  }

  lemma TableRToZ()
    ensures IsTable(CURRENCIES_R_TO_Z)
  {
  }

  lemma MergedTable(a: map<Currency, nat>, b: map<Currency, nat>)
    requires IsTable(a) && IsTable(b)
    ensures IsTable(a + b)
  {
  }

  lemma CurrenciesAreATable()
    ensures IsTable(CURRENCIES)
  {
    TableAToH();
    TableIToP();
    TableRToZ();
    MergedTable(CURRENCIES_A_TO_H, CURRENCIES_I_TO_P);
    MergedTable(CURRENCIES_A_TO_H + CURRENCIES_I_TO_P, CURRENCIES_R_TO_Z);
  }

  lemma CurrencyReads(table: map<Currency, nat>, c: Currency)
    requires IsTable(table) && c in table
    ensures ParseCurrency(table, c) == Ok(c) && c != "" && NoSpace(c)
  {
    assert ThreeCapitals(c);
    assert NoSpace(c);
    TrimNothing(c);
    assert Upper(c) == c;
  }

  lemma FormatIntIsClean(v: int)
    ensures D.FormatInt(v) != "" && NoSpace(D.FormatInt(v))
  {
  }

  lemma PaddedIsClean(v: int, width: int)
    ensures NoSpace(Padded(v, width))
  {
  }

  lemma AmountTextIsClean(amount: int, exp: nat)
    ensures AmountText(amount, exp) != "" && NoSpace(AmountText(amount, exp))
  {
    FormatIntIsClean(amount);
    if exp > 0 {
      var a := if amount < 0 then Wrap(0 - amount) else amount;
      var major, minor := Quo(a, Pow10(exp)), Rem(a, Pow10(exp));
      FormatIntIsClean(major);
      PaddedIsClean(minor, exp);
      var sign := Sign(amount < 0);
      assert AmountText(amount, exp) == sign + D.FormatInt(major) + "." + Padded(minor, exp);
    }
  }

  /** Over any such table, scanning what String wrote gives the money back exactly when the amount does. */
  lemma ScanReadsAmount(table: map<Currency, nat>, m: Money)
    requires IsTable(table) && m.currency in table
    ensures Scan(table, Text(table, m)) == Ok((m.amount, m.currency)) <==>
      ParseMinor(AmountText(m.amount, table[m.currency]), table[m.currency]) == Ok(m.amount)
  {
    CurrencyReads(table, m.currency);
    AmountTextIsClean(m.amount, table[m.currency]);
    TwoFields(m.currency, AmountText(m.amount, table[m.currency]));
  }

  lemma AmountReadsBackIff(amount: int, exp: nat)
    requires Fits(amount) && exp in {0, 2, 3, 4}
    ensures ParseMinor(AmountText(amount, exp), exp) == Ok(amount) <==> amount > MIN || exp == 2
  {
    if amount > MIN {
      AmountReadsBack(amount, exp);
    } else {
      MinReadsIff(exp);
    }
  }

  /**
   * For every supported currency, scanning what String wrote gives the same money back, unless the amount is
   * MinInt64 in a currency without exactly two minor digits.
   */
  lemma RoundTripIff(m: Money)
    requires m.currency in CURRENCIES
    ensures Scan(CURRENCIES, Text(CURRENCIES, m)) == Ok((m.amount, m.currency)) <==>
      m.amount > MIN || CURRENCIES[m.currency] == 2
  {
    CurrenciesAreATable();
    ScanReadsAmount(CURRENCIES, m);
    AmountReadsBackIff(m.amount, CURRENCIES[m.currency]);
  }

  lemma MinReadsIff(exp: nat)
    requires exp == 0 || exp == 2 || exp == 3 || exp == 4
    ensures ParseMinor(AmountText(MIN, exp), exp) == if exp == 2 then Ok(MIN) else Err(Malformed)
  {
    if exp == 0 {
      MinWithoutMinorDigits();
    } else if exp == 2 {
      MinWithTwoMinorDigits();
    } else {
      MinWithMoreMinorDigits(exp);
    }
  }

  // ---- the code ----

  method PowerOfTen(exp: nat) returns (p: int)
    ensures p == Pow10(exp)
  {
    p := 1;
    var i := 0;
    while i < exp
      invariant 0 <= i <= exp && p == Pow10(i)
    {
      p := p * 10;
      i := i + 1;
    }
  }

  method Render(table: map<Currency, nat>, m: Money) returns (s: string)
    ensures s == Text(table, m)
  {
    var exp := Exponent(table, m.currency);
    if exp == 0 {
      return m.currency + " " + D.FormatInt(m.amount);
    }
    var neg := m.amount < 0;
    var a: int := m.amount;
    if neg {
      a := Wrap(0 - a);
    }
    var div := PowerOfTen(exp);
    var major, minor := Quo(a, div), Rem(a, div);
    var sign := Sign(neg);
    return m.currency + " " + (sign + D.FormatInt(major) + "." + Padded(minor, exp));
  }

  method ParseMinorUnits(text: string, exp: nat) returns (r: Result<int>)
    ensures r == ParseMinor(text, exp)
  {
    var s := TrimSpace(text);
    var neg := s != "" && s[0] == '-';
    s := TrimPrefix(TrimPrefix(s, '-'), '+');
    var p := Point(s);
    var intPart, fracPart := s[..p], if p < |s| then s[p + 1..] else "";
    if intPart == "" {
      intPart := "0";
    }
    r := ParseParts(neg, intPart, fracPart, exp);
  }

  method ParseParts(neg: bool, intPart: string, fracPart: string, exp: nat) returns (r: Result<int>)
    ensures r == FromParts(neg, intPart, fracPart, exp)
  {
    if |fracPart| > exp { return Err(Malformed); }
    var padded := PadRight(fracPart, exp);
    var whole := D.ParseInt(intPart);
    if whole.None? { return Err(Malformed); }
    var frac := Some(0);
    if exp > 0 {
      frac := D.ParseInt(padded);
      if frac.None? { return Err(Malformed); }
    }
    var mult := PowerOfTen(exp);
    return Combine(neg, whole.value, frac.value, mult);
  }

  method PadRight(s: string, width: nat) returns (r: string)
    requires |s| <= width
    ensures r == s + Zeros(width - |s|)
  {
    r := s;
    while |r| < width
      invariant |s| <= |r| <= width && r == s + Zeros(|r| - |s|)
      decreases width - |r|
    {
      assert Zeros(|r| - |s|) + "0" == Zeros(|r| + 1 - |s|);
      r := r + "0";
    }
  }
}
