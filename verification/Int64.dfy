/** Go's 64-bit signed integers: wrap-around at two's complement, division truncated toward zero. */
module Int64 {

  const MIN: int := -0x8000_0000_0000_0000
  const MAX: int := 0x7fff_ffff_ffff_ffff
  const MODULUS: int := 0x1_0000_0000_0000_0000

  type int64 = x: int | -0x8000_0000_0000_0000 <= x <= 0x7fff_ffff_ffff_ffff

  predicate Fits(x: int) {
    -0x8000_0000_0000_0000 <= x <= 0x7fff_ffff_ffff_ffff
  }

  /** What a 64-bit register holds after computing the true integer x. */
  function Wrap(x: int): (r: int64)
    ensures Fits(x) ==> r == x
  {
    if Fits(x) then x else
    var m := x % 0x1_0000_0000_0000_0000;
    if m > 0x7fff_ffff_ffff_ffff then m - 0x1_0000_0000_0000_0000 else m
  }

  function Abs(x: int): (r: nat) {
    if x < 0 then -x else x
  }

  /** The true quotient, truncated toward zero as Go's `/` does. */
  function Quo(a: int, b: int): int
    requires b != 0
  {
    var q := Abs(a) / Abs(b);
    if (a < 0) == (b < 0) then q else -q
  }

  /** Go's `%`: the remainder takes the sign of the dividend. */
  function Rem(a: int, b: int): int
    requires b != 0
  {
    a - b * Quo(a, b)
  }

  /** Go's `/` on int64: MinInt64 / -1 wraps back to MinInt64 instead of trapping. */
  function Div(a: int64, b: int64): int64
    requires b != 0
  {
    Wrap(Quo(a, b))
  }

  lemma QuoBounds(a: int, b: int)
    requires b != 0
    ensures Abs(a - b * Quo(a, b)) < Abs(b)
    ensures Abs(b * Quo(a, b)) <= Abs(a)
    ensures Abs(Quo(a, b)) <= Abs(a)
    ensures a >= 0 ==> Rem(a, b) >= 0
    ensures a <= 0 ==> Rem(a, b) <= 0
  {
    var x, y := Abs(a), Abs(b);
    MagnitudeBounds(x, y);
    var yq: int := y * (x / y);
    assert b * Quo(a, b) == if a < 0 then -yq else yq;
  }

  lemma MagnitudeBounds(x: nat, y: nat)
    requires y > 0
    ensures 0 <= y * (x / y) <= x < y * (x / y) + y
    ensures x / y <= x
  {
    MulMono(1, y, x / y);
  }

  lemma MulMono(x: int, y: int, z: int)
    requires x <= y && 0 <= z
    ensures x * z <= y * z
  {
  }

  lemma LeadingWins(base: int, v: int, w: int, x: int, y: int)
    requires 0 <= x < base && 0 <= y < base && v < w
    ensures v * base + x < w * base + y
  {
    MulMono(v + 1, w, base);
    assert (v + 1) * base == v * base + base;
  }

  /** Quotient and remainder are determined by the number they make up. */
  lemma QuotientUnique(q: int, r: int, d: int)
    requires 0 <= r < d
    ensures (q * d + r) / d == q && (q * d + r) % d == r
  {
    var x := q * d + r;
    var p, s := x / d, x % d;
    assert x == p * d + s;
    if p < q {
      LeadingWins(d, p, q, s, r);
    } else if q < p {
      LeadingWins(d, q, p, r, s);
    }
  }

  /** A register differs from the true value by a multiple of 2^64... */
  lemma WrapOffset(x: int) returns (q: int)
    ensures Wrap(x) == x + q * 0x1_0000_0000_0000_0000
  {
    if Fits(x) {
      q := 0;
    } else {
      q := -(x / 0x1_0000_0000_0000_0000);
      if Wrap(x) < 0 {
        q := q - 1;
      }
    }
  }

  /** ...and is the only register that does. */
  lemma WrapUnique(x: int, r: int, q: int)
    requires Fits(r) && r == x + q * 0x1_0000_0000_0000_0000
    ensures Wrap(x) == r
  {
  }

  lemma WrapAdd(x: int, y: int)
    ensures Wrap(Wrap(x) + y) == Wrap(x + y)
  {
    var p := WrapOffset(x);
    var q := WrapOffset(Wrap(x) + y);
    WrapUnique(x + y, Wrap(Wrap(x) + y), p + q);
  }
}
