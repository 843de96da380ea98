/** Exactly when the parts of an allocation sum to the amount, products that overflow included. */
module AllocationSums {
  import opened Int64
  import opened MoneyArithmetic
  import opened Allocation

  // ----- one share, between the two numbers it cannot leave -----

  /** t * share of a register prod lies between zero and prod. */
  lemma ShareTowardZero(prod: int, t: int)
    requires Fits(prod) && t > 0
    ensures Share(prod, t) == Quo(prod, t)
    ensures prod >= 0 ==> 0 <= t * Share(prod, t) <= prod < t * Share(prod, t) + t
    ensures prod <= 0 ==> t * Share(prod, t) - t < prod <= t * Share(prod, t) <= 0
  {
    QuoBounds(prod, t);
    MagnitudeBounds(Abs(prod), t);
    var q := Abs(prod) / t;
    if prod >= 0 {
      assert Quo(prod, t) == q;
    } else {
      assert Quo(prod, t) == -q && t * -q == -(t * q);
    }
  }

  /** How far a product of a and r can have wrapped: at most r / 2 times. */
  lemma ProductWraps(a: int, r: int) returns (k: int)
    requires Fits(a) && r >= 0
    ensures a >= 0 ==> Wrap(a * r) == a * r - k * MODULUS && 0 <= k && (Wrap(a * r) < 0 ==> 2 * k <= r)
    ensures a < 0 ==> Wrap(a * r) == a * r + k * MODULUS && 0 <= k && (Wrap(a * r) > 0 ==> 2 * k <= r)
  {
    var q := WrapOffset(a * r);
    if a >= 0 {
      k := -q;
      MulMono(0, a, r);
      MulMono(a, MAX, r);
    } else {
      k := q;
      MulMono(a, 0, r);
      MulMono(MIN, a, r);
    }
  }

  /** The distance of a from the end of the range on the other side of its sign. */
  function Slack(a: int): int {
    if a >= 0 then a + MIN else a - MIN
  }

  lemma SlackTimes(a: int, r: int)
    requires Fits(a) && r >= 0
    ensures a >= 0 ==> Slack(a) * r == a * r + MIN * r && Slack(a) * r <= 0 <= a * r
    ensures a < 0 ==> Slack(a) * r == a * r - MIN * r && a * r <= 0 <= Slack(a) * r
  {
    if a >= 0 {
      MulMono(Slack(a), 0, r);
      MulMono(0, a, r);
    } else {
      MulMono(0, Slack(a), r);
      MulMono(a, 0, r);
    }
  }

  /** ar is the true product, prod its register, ts what the share covers of it. */
  lemma WrappedBounds(ar: int, prod: int, ts: int, r: int, k: int)
    requires prod == ar - k * MODULUS && 0 <= k && 0 <= r && 0 <= ar && (prod < 0 ==> 2 * k <= r) && ar + MIN * r <= 0
    requires if prod >= 0 then 0 <= ts <= prod else prod <= ts <= 0
    ensures ar + MIN * r <= ts <= ar
    ensures ts == ar + MIN * r && r > 0 && prod < 0 ==> prod == ts && 2 * k == r
  {
  }

  lemma ShareBounds(a: int, r: int, t: int)
    requires Fits(a) && r >= 0 && t > 0
    ensures var s := Share(Wrap(a * r), t);
      if a >= 0 then Slack(a) * r <= t * s <= a * r else a * r <= t * s <= Slack(a) * r
  {
    var k := ProductWraps(a, r);
    var prod: int := Wrap(a * r);
    var ts := t * Share(prod, t);
    ShareTowardZero(prod, t);
    SlackTimes(a, r);
    if a >= 0 {
      WrappedBounds(a * r, prod, ts, r, k);
    } else {
      WrappedBounds(-(a * r), -prod, -ts, r, k);
    }
  }

  // ----- all shares -----

  /** If t times each part is at most c times its ratio, so is t times the sum. */
  lemma {:induction false} SumAtMost(parts: seq<int>, ratios: seq<int>, t: int, c: int)
    requires |parts| == |ratios| && forall i :: 0 <= i < |parts| ==> t * parts[i] <= c * ratios[i]
    ensures t * SumOf(parts) <= c * SumOf(ratios)
    ensures t * SumOf(parts) == c * SumOf(ratios) ==> forall i :: 0 <= i < |parts| ==> t * parts[i] == c * ratios[i]
  {
    if parts != [] {
      var n := |parts| - 1;
      SumAtMost(parts[..n], ratios[..n], t, c);
      Distributes(t, SumOf(parts[..n]), parts[n]);
      Distributes(c, SumOf(ratios[..n]), ratios[n]);
      assert forall i :: 0 <= i < n ==> parts[..n][i] == parts[i] && ratios[..n][i] == ratios[i];
    }
  }

  lemma SumAtLeast(parts: seq<int>, ratios: seq<int>, t: int, c: int)
    requires |parts| == |ratios| && forall i :: 0 <= i < |parts| ==> c * ratios[i] <= t * parts[i]
    ensures c * SumOf(ratios) <= t * SumOf(parts)
    ensures t * SumOf(parts) == c * SumOf(ratios) ==> forall i :: 0 <= i < |parts| ==> t * parts[i] == c * ratios[i]
  {
    forall i | 0 <= i < |parts|
      ensures -t * parts[i] <= -c * ratios[i]
    {
      Negates(t, parts[i]);
      Negates(c, ratios[i]);
    }
    SumAtMost(parts, ratios, -t, -c);
    Negates(t, SumOf(parts));
    Negates(c, SumOf(ratios));
    forall i | 0 <= i < |parts| && t * SumOf(parts) == c * SumOf(ratios)
      ensures t * parts[i] == c * ratios[i]
    {
      Negates(t, parts[i]);
      Negates(c, ratios[i]);
    }
  }

  lemma Negates(x: int, y: int)
    ensures -x * y == -(x * y)
  {
  }

  lemma Cancels(t: int, x: int, y: int)
    requires t > 0
    ensures x * t <= t * y ==> x <= y
  {
    if y < x {
      MulMono(y + 1, x, t);
      assert (y + 1) * t == t * y + t;
    }
  }

  lemma CancelsStrictly(t: int, x: int, y: int)
    requires t > 0
    ensures x * t < t * y ==> x < y
  {
    if y <= x {
      MulMono(y, x, t);
    }
  }

  /** Every part is c times its ratio, over the ratio total. */
  ghost predicate InProportion(parts: seq<int>, ratios: seq<int>, t: int, c: int) {
    |parts| == |ratios| && forall i :: 0 <= i < |parts| ==> t * parts[i] == c * ratios[i]
  }

  lemma SumNoMore(parts: seq<int>, ratios: seq<int>, t: int, c: int)
    requires |parts| == |ratios| && forall i :: 0 <= i < |parts| ==> t * parts[i] <= c * ratios[i]
    requires t == SumOf(ratios) > 0
    ensures SumOf(parts) <= c && (SumOf(parts) == c ==> InProportion(parts, ratios, t, c))
  {
    SumAtMost(parts, ratios, t, c);
    Cancels(t, SumOf(parts), c);
  }

  lemma SumNoLess(parts: seq<int>, ratios: seq<int>, t: int, c: int)
    requires |parts| == |ratios| && forall i :: 0 <= i < |parts| ==> c * ratios[i] <= t * parts[i]
    requires t == SumOf(ratios) > 0
    ensures c <= SumOf(parts) && (SumOf(parts) == c ==> InProportion(parts, ratios, t, c))
  {
    SumAtLeast(parts, ratios, t, c);
    Cancels(t, c, SumOf(parts));
  }

  lemma SumInProportion(parts: seq<int>, ratios: seq<int>, t: int, c: int)
    requires InProportion(parts, ratios, t, c) && t == SumOf(ratios) > 0
    ensures SumOf(parts) == c
  {
    SumNoMore(parts, ratios, t, c);
    SumNoLess(parts, ratios, t, c);
  }

  /** Whatever wraps, the shares never overshoot the amount, and never fall 2^63 + 1 short of it. */
  lemma SharesSum(a: int, ratios: seq<int>, t: int)
    requires Fits(a) && NonNegative(ratios) && t == SumOf(ratios) > 0
    ensures var s := SumOf(Shares(a, ratios, t));
      if a >= 0 then Slack(a) <= s <= a else a <= s <= Slack(a)
    ensures SumOf(Shares(a, ratios, t)) == Slack(a) <==> InProportion(Shares(a, ratios, t), ratios, t, Slack(a))
  {
    var shares := Shares(a, ratios, t);
    forall i | 0 <= i < |ratios|
      ensures if a >= 0 then Slack(a) * ratios[i] <= t * shares[i] <= a * ratios[i]
              else a * ratios[i] <= t * shares[i] <= Slack(a) * ratios[i]
    {
      ShareBounds(a, ratios[i], t);
    }
    if a >= 0 {
      SumNoMore(shares, ratios, t, a);
      SumNoLess(shares, ratios, t, Slack(a));
    } else {
      SumNoMore(shares, ratios, t, Slack(a));
      SumNoLess(shares, ratios, t, a);
    }
    if InProportion(shares, ratios, t, Slack(a)) {
      SumInProportion(shares, ratios, t, Slack(a));
    }
  }

  // ----- no unit wraps -----

  lemma ZeroShare(a: int, t: int)
    requires t > 0
    ensures Share(Wrap(a * 0), t) == 0
  {
    assert Quo(0, t) == 0;
  }

  /** The part that gets every spare unit still fits. */
  lemma Headroom(a: int, ratios: seq<int>, t: int, b: nat)
    requires Fits(a) && NonNegative(ratios) && t == SumOf(ratios) > 0 && b < |ratios|
    requires SumOf(Shares(a, ratios, t)) != Slack(a)
    ensures Fits(Shares(a, ratios, t)[b] + (a - SumOf(Shares(a, ratios, t))))
  {
    OthersBound(a, ratios, t, b);
    SharesSum(a, ratios, t);
    ZeroShare(a, t);
    Room(a, t, ratios[b], Shares(a, ratios, t)[b], SumOf(Shares(a, ratios, t)));
  }

  lemma Room(a: int, t: int, r: int, share: int, sum: int)
    requires Fits(a) && Fits(share) && r >= 0 && t > 0 && (r == 0 ==> share == 0)
    requires if a >= 0 then Slack(a) < sum <= a && Slack(a) * (t - r) <= t * (sum - share)
             else a <= sum < Slack(a) && t * (sum - share) <= Slack(a) * (t - r)
    ensures Fits(share + (a - sum))
  {
    SlackTimes(a, r);
    assert Slack(a) * (t - r) == Slack(a) * t - Slack(a) * r;
    if a < 0 {
      Cancels(t, sum - share, Slack(a));
    } else if r > 0 {
      MulMono(Slack(a), -1, r);
      CancelsStrictly(t, Slack(a), sum - share);
    }
  }

  lemma OthersBound(a: int, ratios: seq<int>, t: int, b: nat)
    requires Fits(a) && NonNegative(ratios) && t == SumOf(ratios) > 0 && b < |ratios|
    ensures var others := SumOf(Shares(a, ratios, t)) - Shares(a, ratios, t)[b];
      if a >= 0 then Slack(a) * (t - ratios[b]) <= t * others else t * others <= Slack(a) * (t - ratios[b])
  {
    var shares := Shares(a, ratios, t);
    forall i | 0 <= i < |ratios|
      ensures if a >= 0 then Slack(a) * ratios[i] <= t * shares[i] else t * shares[i] <= Slack(a) * ratios[i]
    {
      ShareBounds(a, ratios[i], t);
    }
    if a >= 0 {
      OthersAtLeast(shares, ratios, t, Slack(a), b);
    } else {
      OthersAtMost(shares, ratios, t, Slack(a), b);
    }
  }

  lemma OthersAtMost(parts: seq<int>, ratios: seq<int>, t: int, c: int, b: nat)
    requires b < |parts| == |ratios| && forall i :: 0 <= i < |parts| ==> t * parts[i] <= c * ratios[i]
    ensures t * (SumOf(parts) - parts[b]) <= c * (SumOf(ratios) - ratios[b])
  {
    SumUpdate(parts, b, 0);
    SumUpdate(ratios, b, 0);
    SumAtMost(parts[b := 0], ratios[b := 0], t, c);
  }

  lemma OthersAtLeast(parts: seq<int>, ratios: seq<int>, t: int, c: int, b: nat)
    requires b < |parts| == |ratios| && forall i :: 0 <= i < |parts| ==> c * ratios[i] <= t * parts[i]
    ensures c * (SumOf(ratios) - ratios[b]) <= t * (SumOf(parts) - parts[b])
  {
    SumUpdate(parts, b, 0);
    SumUpdate(ratios, b, 0);
    SumAtLeast(parts[b := 0], ratios[b := 0], t, c);
  }

  /** y is x moved by at most k steps. */
  predicate Moved(x: int, y: int, step: int, k: nat) {
    if step < 0 then x - k <= y <= x else x <= y <= x + k
  }

  ghost predicate AllMoved(from: seq<int>, to: seq<int>, step: int, k: nat) {
    |from| == |to| && forall i :: 0 <= i < |from| ==> Moved(from[i], to[i], step, k)
  }

  /** Every part can take all the units and still fit. */
  ghost predicate Roomy(parts: seq<int>, step: int, units: nat) {
    forall i :: 0 <= i < |parts| ==> Fits(parts[i]) && Fits(parts[i] + Signed(step, units))
  }

  lemma RoundExact(parts: seq<int>, h: Hand, step: int, k: nat, units: nat)
    requires h.Dealt(|parts|) && (step == 1 || step == -1) && k < units
    requires Roomy(parts, step, units) && AllMoved(parts, h.parts, step, k)
    ensures AllMoved(parts, Round(h, step).parts, step, k + 1)
    ensures SumOf(Round(h, step).parts) == SumOf(h.parts) + step
  {
    var b := Best(h.rems, step);
    assert Fits(parts[b]) && Fits(parts[b] + Signed(step, units)) && Moved(parts[b], h.parts[b], step, k);
    SumUpdate(h.parts, b, h.parts[b] + step);
    assert Round(h, step).parts == h.parts[b := h.parts[b] + step];
  }

  lemma RoundsExact(h: Hand, step: int, k: nat, units: nat)
    requires h.Dealt(|h.parts|) && (step == 1 || step == -1) && k <= units && Roomy(h.parts, step, units)
    ensures AllMoved(h.parts, Rounds(h, step, k).parts, step, k)
    ensures SumOf(Rounds(h, step, k).parts) == SumOf(h.parts) + Signed(step, k)
  {
    for i := 0 to k
      invariant AllMoved(h.parts, Rounds(h, step, i).parts, step, i)
      invariant SumOf(Rounds(h, step, i).parts) == SumOf(h.parts) + Signed(step, i)
    {
      RoundExact(h.parts, Rounds(h, step, i), step, i, units);
    }
  }

  // ----- the promise -----

  lemma {:induction false} AcceptedRatios(ratios: seq<int>)
    requires TotalRatio(ratios).Ok?
    ensures NonNegative(ratios)
  {
    if ratios != [] {
      AcceptedRatios(ratios[..|ratios| - 1]);
      assert ratios == ratios[..|ratios| - 1] + [ratios[|ratios| - 1]];
    }
  }

  /** The leftover in the register is the true one, except that 2^63 units either way read as MinInt64. */
  lemma LeftoverTrue(a: int, ratios: seq<int>, t: int)
    requires Fits(a) && NonNegative(ratios) && t == SumOf(ratios) > 0
    ensures var s := SumOf(Shares(a, ratios, t));
      if s == Slack(a) then Leftover(a, ratios, t) == MIN
      else Leftover(a, ratios, t) == a - s && Leftover(a, ratios, t) != MIN
  {
    SharesSum(a, ratios, t);
    var s := SumOf(Shares(a, ratios, t));
    if a >= 0 && s == Slack(a) {
      WrapUnique(a - s, MIN, -1);
    }
  }

  lemma UnitsTrue(left: int)
    requires Fits(left) && left != MIN
    ensures Signed(Step(left), Units(left)) == left
  {
  }

  lemma SharesRoomy(a: int, ratios: seq<int>, t: int, left: int)
    requires Fits(a) && NonNegative(ratios) && t == SumOf(ratios) > 0
    requires left == Leftover(a, ratios, t) != MIN
    ensures left == a - SumOf(Shares(a, ratios, t)) && Roomy(Shares(a, ratios, t), Step(left), Units(left))
  {
    LeftoverTrue(a, ratios, t);
    UnitsTrue(left);
    forall i | 0 <= i < |ratios|
      ensures Fits(Shares(a, ratios, t)[i] + left)
    {
      Headroom(a, ratios, t, i);
    }
  }

  lemma DealtOut(h: Hand, a: int, left: int, step: int, units: nat)
    requires h.Dealt(|h.parts|) && (step == 1 || step == -1)
    requires if left == MIN then units == 0 && SumOf(h.parts) != a
             else left == Signed(step, units) == a - SumOf(h.parts) && Roomy(h.parts, step, units)
    ensures SumOf(Rounds(h, step, units).parts) == a <==> left != MIN
  {
    if left != MIN {
      RoundsExact(h, step, units, units);
    }
  }

  lemma AllocatedSum(a: int, ratios: seq<int>, t: int, h: Hand, left: int)
    requires Fits(a) && ratios != [] && NonNegative(ratios) && t == SumOf(ratios) > 0
    requires h == Hand(Shares(a, ratios, t), Remainders(a, ratios, t)) && left == Leftover(a, ratios, t)
    ensures SumOf(Rounds(h, Step(left), Units(left)).parts) == a <==> left != MIN
  {
    if left == MIN {
      LeftoverTrue(a, ratios, t);
    } else {
      SharesRoomy(a, ratios, t, left);
      UnitsTrue(left);
    }
    DealtOut(h, a, left, Step(left), Units(left));
  }

  /**
   * The parts sum exactly to the amount, whatever the products overflow to, unless the leftover is MinInt64. Only the
   * ratio total has to fit; `AllocateConserves` says what is left of the promise when it does not.
   */
  lemma AllocateSumsIff(a: int, ratios: seq<int>)
    requires Fits(a) && Fits(SumOf(ratios)) && AllocateSpec(a, ratios).Ok?
    ensures SumOf(AllocateSpec(a, ratios).value) == a <==> Leftover(a, ratios, TotalRatio(ratios).value) != MIN
  {
    AcceptedRatios(ratios);
    TotalRatioExact(ratios);
    SumNonNegative(ratios);
    var t := SumOf(ratios);
    AllocatedSum(a, ratios, t, Hand(Shares(a, ratios, t), Remainders(a, ratios, t)), Leftover(a, ratios, t));
  }

  // ----- the amounts and ratios that break it -----

  /** The ratio is even, and it scales the slack to a register that t divides. */
  predicate Absorbed(a: int, r: int, t: int)
    requires t > 0
  {
    r % 2 == 0 && Fits(Slack(a) * r) && Slack(a) * r % t == 0
  }

  lemma AbsorbedProduct(a: int, r: int)
    requires Fits(a) && r >= 0 && r % 2 == 0 && Fits(Slack(a) * r)
    ensures Wrap(a * r) == Slack(a) * r
  {
    SlackTimes(a, r);
    WrapUnique(a * r, Slack(a) * r, if a >= 0 then -(r / 2) else r / 2);
  }

  lemma NearestMultiple(t: int, q: int, s: int)
    requires t > 0 && t * s - t < t * q < t * s + t
    ensures q == s
  {
    assert t * (s + 1) == t * s + t && t * (q + 1) == t * q + t;
    CancelsStrictly(t, q, s + 1);
    CancelsStrictly(t, s, q + 1);
  }

  lemma ExactShare(prod: int, t: int)
    requires Fits(prod) && t > 0
    ensures t * Share(prod, t) == prod <==> prod % t == 0
  {
    ShareTowardZero(prod, t);
    var q, s := prod / t, Share(prod, t);
    if prod % t == 0 {
      assert prod == t * q;
      NearestMultiple(t, q, s);
    } else if t * s == prod {
      QuotientUnique(s, 0, t);
    }
  }

  lemma OddKeepsMin(r: int, t: int)
    requires 0 < t <= MAX
    ensures r % 2 == 1 ==> t * Share(Wrap(MIN * r), t) < 0
  {
    if r % 2 == 1 {
      WrapUnique(MIN * r, MIN, r / 2);
      ShareTowardZero(MIN, t);
    }
  }

  /** For the other amounts: the register is the slack's product, and the ratio twice the number of wraps. */
  lemma FallenProduct(a: int, r: int, t: int) returns (k: int)
    requires Fits(a) && a != MIN && 0 < r && t > 0 && t * Share(Wrap(a * r), t) == Slack(a) * r
    ensures Wrap(a * r) == Slack(a) * r && r == 2 * k
  {
    k := ProductWraps(a, r);
    var prod: int := Wrap(a * r);
    SlackTimes(a, r);
    ShareTowardZero(prod, t);
    if a >= 0 {
      MulMono(Slack(a), -1, r);
      WrappedBounds(a * r, prod, Slack(a) * r, r, k);
    } else {
      MulMono(1, Slack(a), r);
      WrappedBounds(-(a * r), -prod, -(Slack(a) * r), r, k);
    }
  }

  lemma AbsorbedAs(a: int, r: int, t: int, x: int)
    requires t > 0 && x == Slack(a) * r && r % 2 == 0 && Fits(x) && x % t == 0
    ensures Absorbed(a, r, t)
  {
  }

  lemma MinAbsorbed(r: int, t: int)
    requires 0 <= r && 0 < t <= MAX && t * Share(Wrap(MIN * r), t) == Slack(MIN) * r
    ensures Absorbed(MIN, r, t)
  {
    OddKeepsMin(r, t);
    assert Slack(MIN) == 0;
    AbsorbedAs(MIN, r, t, 0);
  }

  lemma ZeroAbsorbed(a: int, t: int)
    requires t > 0
    ensures Absorbed(a, 0, t)
  {
    AbsorbedAs(a, 0, t, 0);
  }

  lemma FallenAbsorbed(a: int, r: int, t: int, prod: int)
    requires Fits(a) && a != MIN && 0 < r && t > 0 && prod == Wrap(a * r) && t * Share(prod, t) == Slack(a) * r
    ensures Absorbed(a, r, t)
  {
    var k := FallenProduct(a, r, t);
    ExactShare(prod, t);
    AbsorbedAs(a, r, t, prod);
  }

  lemma FallsToSlack(a: int, r: int, t: int)
    requires Fits(a) && 0 <= r && 0 < t <= MAX && t * Share(Wrap(a * r), t) == Slack(a) * r
    ensures Absorbed(a, r, t)
  {
    if a == MIN {
      MinAbsorbed(r, t);
    } else if r == 0 {
      ZeroAbsorbed(a, t);
    } else {
      FallenAbsorbed(a, r, t, Wrap(a * r));
    }
  }

  /** A share falls all the way to the slack's share exactly if its ratio absorbs the slack. */
  lemma AbsorbedIff(a: int, r: int, t: int)
    requires Fits(a) && 0 <= r && 0 < t <= MAX
    ensures t * Share(Wrap(a * r), t) == Slack(a) * r <==> Absorbed(a, r, t)
  {
    if Absorbed(a, r, t) {
      AbsorbedProduct(a, r);
      ExactShare(Slack(a) * r, t);
    } else if t * Share(Wrap(a * r), t) == Slack(a) * r {
      FallsToSlack(a, r, t);
    }
  }

  /** Every ratio absorbs the slack, so that the shares leave 2^63 units over. */
  ghost predicate Unallocatable(a: int, ratios: seq<int>) {
    SumOf(ratios) > 0 && forall i :: 0 <= i < |ratios| ==> Absorbed(a, ratios[i], SumOf(ratios))
  }

  /**
   * The promise, in terms of the arguments: the parts sum exactly to the amount unless every ratio is even and scales
   * the amount's slack to a register that the ratio total divides. Then nothing at all is handed out.
   */
  lemma AllocateKeepsPromiseIff(a: int, ratios: seq<int>)
    requires Fits(a) && Fits(SumOf(ratios)) && AllocateSpec(a, ratios).Ok?
    ensures SumOf(AllocateSpec(a, ratios).value) == a <==> !Unallocatable(a, ratios)
  {
    AllocateSumsIff(a, ratios);
    AcceptedRatios(ratios);
    TotalRatioExact(ratios);
    SumNonNegative(ratios);
    var t := SumOf(ratios);
    LeftoverTrue(a, ratios, t);
    SharesSum(a, ratios, t);
    forall i | 0 <= i < |ratios|
      ensures t * Shares(a, ratios, t)[i] == Slack(a) * ratios[i] <==> Absorbed(a, ratios[i], t)
    {
      AbsorbedIff(a, ratios[i], t);
    }
  }

  /** An overflowing ratio total voids the promise, too: the parts of MinInt64 sum to 2^63. */
  lemma OverflowingTotal()
    ensures AllocateSpec(MIN, [1, MAX]) == Ok([MAX, 1])
  {
    var ratios := [1, MAX];
    assert ratios[..1] == [1] && [1][..0] == [];
    assert TotalRatio([1]) == Ok(1);
    assert TotalRatio(ratios) == Ok(MIN) by { WrapUnique(1 + MAX, MIN, -1); }
    assert Wrap(MIN * MAX) == MIN by { OddTimesMin(); }
    assert Wrap(MIN * 1) == MIN;
    assert Share(MIN, MIN) == 1 && Scaled(MIN, MIN) == 0;
    assert Shares(MIN, ratios, MIN) == [1, 1] && Remainders(MIN, ratios, MIN) == [0, 0];
    assert [1, 1][..1] == [1];
    assert SumOf([1]) == 1 && SumOf([1, 1]) == 2;
    assert Leftover(MIN, ratios, MIN) == MAX - 1 by { WrapUnique(MIN - 2, MAX - 1, 1); }
    AllToTheFirst(MAX - 1);
  }

  lemma {:induction false} AllToTheFirst(k: nat)
    requires k < MAX
    ensures Rounds(Hand([1, 1], [0, 0]), 1, k) == Hand([k + 1, 1], [0, 0])
  {
    if k > 0 {
      AllToTheFirst(k - 1);
      assert BestUpTo([0, 0], 1, 1) == -1;
      assert Best([0, 0], 1) == 0;
    }
  }

  lemma OddTimesMin()
    ensures Wrap(MIN * MAX) == MIN
  {
    WrapUnique(MIN * MAX, MIN, MAX / 2);
  }
}
