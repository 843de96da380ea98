/** Largest-remainder allocation (pkg/money/money.go, Allocate and Split). */
module Allocation {
  import opened Int64
  import opened MoneyArithmetic

  // ----- the computation, on registers -----

  /** The ratio total as accumulated, or the refusal of the first negative ratio. */
  function TotalRatio(ratios: seq<int>): Result<int> {
    if ratios == [] then Ok(0) else
    var n := |ratios| - 1;
    var before := TotalRatio(ratios[..n]);
    if before.Err? then before
    else if ratios[n] < 0 then Err(NegativeAllocate)
    else Ok(Wrap(before.value + ratios[n]))
  }

  function Share(prod: int, total: int): int
    requires total != 0
  {
    Wrap(Quo(prod, total))
  }

  function Scaled(prod: int, total: int): int
    requires total != 0
  {
    Wrap(prod - Wrap(Share(prod, total) * total))
  }

  predicate InRange(s: seq<int>) {
    forall i :: 0 <= i < |s| ==> Fits(s[i])
  }

  function Shares(a: int, ratios: seq<int>, total: int): (s: seq<int>)
    requires total != 0
    ensures |s| == |ratios| && InRange(s)
  {
    seq(|ratios|, i requires 0 <= i < |ratios| => Share(Wrap(a * ratios[i]), total))
  }

  function Remainders(a: int, ratios: seq<int>, total: int): (s: seq<int>)
    requires total != 0
    ensures |s| == |ratios|
  {
    seq(|ratios|, i requires 0 <= i < |ratios| => Scaled(Wrap(a * ratios[i]), total))
  }

  function SumOf(s: seq<int>): int {
    if s == [] then 0 else SumOf(s[..|s| - 1]) + s[|s| - 1]
  }

  /** The winner among the first k remainders, or -1 while every one seen is skipped. */
  function BestUpTo(rems: seq<int>, step: int, k: nat): (b: int)
    requires k <= |rems|
    ensures -1 <= b < k
  {
    if k == 0 then -1 else
    var b := BestUpTo(rems, step, k - 1);
    var x := rems[k - 1];
    if x == 0 && step > 0 then b
    else if b == -1 || (step > 0 && x > rems[b]) || (step < 0 && x < rems[b]) then k - 1
    else b
  }

  function Best(rems: seq<int>, step: int): (b: nat)
    requires |rems| > 0
    ensures b < |rems|
  {
    var b := BestUpTo(rems, step, |rems|);
    if b == -1 then 0 else b
  }

  datatype Hand = Hand(parts: seq<int>, rems: seq<int>) {
    predicate Dealt(n: nat) {
      |parts| == |rems| == n > 0
    }
  }

  /** One round: one unit to the best remainder, which then counts as served. */
  function Round(h: Hand, step: int): (h': Hand)
    requires h.Dealt(|h.parts|)
    ensures h'.Dealt(|h.parts|)
  {
    var i := Best(h.rems, step);
    Hand(h.parts[i := Wrap(h.parts[i] + step)], h.rems[i := 0])
  }

  function Rounds(h: Hand, step: int, k: nat): (h': Hand)
    requires h.Dealt(|h.parts|)
    ensures h'.Dealt(|h.parts|)
    decreases k
  {
    if k == 0 then h else Round(Rounds(h, step, k - 1), step)
  }

  lemma {:induction false} RoundsInRange(h: Hand, step: int, k: nat)
    requires h.Dealt(|h.parts|) && InRange(h.parts)
    ensures InRange(Rounds(h, step, k).parts)
  {
    if k > 0 {
      RoundsInRange(h, step, k - 1);
    }
  }

  /** A negative leftover is handed out as negative units, as many as its register negation says. */
  function Step(left: int): int {
    if left < 0 then -1 else 1
  }

  function Units(left: int): nat {
    var n := if left < 0 then Wrap(0 - left) else left;
    if n < 0 then 0 else n
  }

  /** What the shares leave over, as the register holds it. */
  function Leftover(a: int, ratios: seq<int>, total: int): int
    requires total != 0
  {
    Wrap(a - Wrap(SumOf(Shares(a, ratios, total))))
  }

  function AllocateSpec(a: int, ratios: seq<int>): (r: Result<seq<int>>)
    ensures r.Ok? ==> InRange(r.value)
  {
    if ratios == [] then Err(NegativeAllocate) else
    var t := TotalRatio(ratios);
    if t.Err? then Err(t.error)
    else if t.value == 0 then Err(DivideByZero)
    else Ok(AllocateBy(a, ratios, t.value))
  }

  function AllocateBy(a: int, ratios: seq<int>, total: int): (s: seq<int>)
    requires total != 0 && ratios != []
    ensures |s| == |ratios| && InRange(s)
  {
    var shares, rems, left := Shares(a, ratios, total), Remainders(a, ratios, total), Leftover(a, ratios, total);
    RoundsInRange(Hand(shares, rems), Step(left), Units(left));
    Rounds(Hand(shares, rems), Step(left), Units(left)).parts
  }

  function Priced(parts: seq<int>, c: Currency): (s: seq<Money>)
    requires InRange(parts)
    ensures |s| == |parts|
  {
    seq(|parts|, i requires 0 <= i < |parts| => Money(parts[i], c))
  }

  function PricedResult(r: Result<seq<int>>, c: Currency): Result<seq<Money>>
    requires r.Ok? ==> InRange(r.value)
  {
    if r.Err? then Err(r.error) else Ok(Priced(r.value, c))
  }

  lemma {:induction false} TotalRatioRefuses(ratios: seq<int>, k: nat)
    requires k <= |ratios|
    requires TotalRatio(ratios[..k]).Err?
    ensures TotalRatio(ratios) == TotalRatio(ratios[..k])
  {
    if k < |ratios| {
      var n := |ratios| - 1;
      assert ratios[..n][..k] == ratios[..k];
      TotalRatioRefuses(ratios[..n], k);
    } else {
      assert ratios[..k] == ratios;
    }
  }

  method SumRatios(ratios: seq<int>) returns (total: Result<int>)
    ensures total == TotalRatio(ratios)
  {
    var sum: int := 0;
    for i := 0 to |ratios|
      invariant TotalRatio(ratios[..i]) == Ok(sum)
    {
      assert ratios[..i + 1][..i] == ratios[..i];
      if ratios[i] < 0 {
        TotalRatioRefuses(ratios, i + 1);
        return Err(NegativeAllocate);
      }
      sum := Wrap(sum + ratios[i]);
    }
    assert ratios[..|ratios|] == ratios;
    return Ok(sum);
  }

  method CutShares(amount: int, ratios: seq<int>, total: int, parts: array<int>, remainders: array<int>)
    returns (handedOut: int)
    requires total != 0
    requires parts.Length == remainders.Length == |ratios| && parts != remainders
    modifies parts, remainders
    ensures parts[..] == Shares(amount, ratios, total)
    ensures remainders[..] == Remainders(amount, ratios, total)
    ensures handedOut == Wrap(SumOf(Shares(amount, ratios, total)))
  {
    ghost var shares, scaled := Shares(amount, ratios, total), Remainders(amount, ratios, total);
    handedOut := 0;
    for i := 0 to |ratios|
      invariant parts[..i] == shares[..i]
      invariant remainders[..i] == scaled[..i]
      invariant handedOut == Wrap(SumOf(shares[..i]))
    {
      var prod := Wrap(amount * ratios[i]);
      var share := Share(prod, total);
      SumsNext(shares, i, handedOut);
      parts[i] := share;
      remainders[i] := Wrap(prod - Wrap(share * total));
      handedOut := Wrap(handedOut + share);
    }
    assert shares[..|ratios|] == shares && scaled[..|ratios|] == scaled;
  }

  /** One share more, accumulated in a register. */
  lemma SumsNext(shares: seq<int>, i: nat, sum: int)
    requires i < |shares| && sum == Wrap(SumOf(shares[..i]))
    ensures Wrap(sum + shares[i]) == Wrap(SumOf(shares[..i + 1]))
  {
    assert shares[..i + 1][..i] == shares[..i];
    WrapAdd(SumOf(shares[..i]), shares[i]);
  }

  method PickBest(remainders: array<int>, step: int) returns (best: nat)
    requires remainders.Length > 0
    ensures best == Best(remainders[..], step)
  {
    var b := -1;
    var bestRem: int := 0;
    for i := 0 to remainders.Length
      invariant b == BestUpTo(remainders[..], step, i)
      invariant b != -1 ==> bestRem == remainders[b]
    {
      if remainders[i] == 0 && step > 0 {
        continue;
      }
      if b == -1 || (step > 0 && remainders[i] > bestRem) || (step < 0 && remainders[i] < bestRem) {
        b, bestRem := i, remainders[i];
      }
    }
    best := if b == -1 then 0 else b;
  }

  method HandOut(parts: array<int>, remainders: array<int>, step: int, units: nat)
    requires parts.Length == remainders.Length > 0 && parts != remainders
    modifies parts, remainders
    ensures parts[..] == old(Rounds(Hand(parts[..], remainders[..]), step, units)).parts
  {
    var leftover := units;
    ghost var start := Hand(parts[..], remainders[..]);
    while leftover > 0
      invariant 0 <= leftover <= units
      invariant Hand(parts[..], remainders[..]) == Rounds(start, step, units - leftover)
    {
      ghost var h := Hand(parts[..], remainders[..]);
      var best := PickBest(remainders, step);
      parts[best] := Wrap(parts[best] + step);
      remainders[best] := 0;
      leftover := leftover - 1;
      assert parts[..] == h.parts[best := Wrap(h.parts[best] + step)];
      assert remainders[..] == h.rems[best := 0];
      assert Hand(parts[..], remainders[..]) == Round(h, step);
    }
  }

  method Allocate(m: Money, ratios: seq<int>) returns (r: Result<seq<Money>>)
    ensures r == PricedResult(AllocateSpec(m.amount, ratios), m.currency)
  {
    if |ratios| == 0 {
      return Err(NegativeAllocate);
    }
    var sum := SumRatios(ratios);
    if sum.Err? {
      return Err(sum.error);
    }
    var total := sum.value;
    if total == 0 {
      return Err(DivideByZero);
    }
    var parts := AllocateParts(m.amount, ratios, total);
    return Ok(Priced(parts, m.currency));
  }

  /** The two arrays of Allocate: every part cut, then the leftover handed out a unit at a time. */
  method AllocateParts(amount: int, ratios: seq<int>, total: int) returns (s: seq<int>)
    requires total != 0 && ratios != []
    ensures s == AllocateBy(amount, ratios, total)
  {
    var parts, remainders := new int[|ratios|], new int[|ratios|];
    var handedOut := CutShares(amount, ratios, total, parts, remainders);
    var left := Wrap(amount - handedOut);
    HandOut(parts, remainders, Step(left), Units(left));
    return parts[..];
  }

  function SplitSpec(a: int, n: int): (r: Result<seq<int>>)
    ensures r.Ok? ==> InRange(r.value)
  {
    if n <= 0 then Err(DivideByZero) else AllocateSpec(a, seq(n, _ => 1))
  }

  method Split(m: Money, n: int) returns (r: Result<seq<Money>>)
    ensures r == PricedResult(SplitSpec(m.amount, n), m.currency)
  {
    if n <= 0 {
      return Err(DivideByZero);
    }
    var ratios: seq<int> := seq(n, _ => 1);
    r := Allocate(m, ratios);
  }

  // ----- what a proportional allocation is -----

  /** x with the sign of a. */
  function Signed(a: int, x: int): int {
    if a < 0 then -x else if a == 0 then 0 else x
  }

  /** The exact share p / total, cut toward zero, and the magnitude the cut leaves uncovered. */
  function Cut(p: int, total: int): int
    requires total > 0
  {
    Quo(p, total)
  }

  function Uncovered(p: int, total: int): nat
    requires total > 0
  {
    Abs(p - total * Cut(p, total))
  }

  lemma CutCovers(p: int, total: int)
    requires total > 0
    ensures Uncovered(p, total) < total
    ensures p == total * Cut(p, total) + Signed(p, Uncovered(p, total))
    ensures Abs(p) == Abs(total * Cut(p, total)) + Uncovered(p, total)
    ensures Abs(Cut(p, total)) <= Abs(total * Cut(p, total))
  {
    var x := Abs(p);
    MagnitudeBounds(x, total);
    MulMono(1, total, x / total);
    CutMagnitude(p, total, x / total);
  }

  lemma CutMagnitude(p: int, total: int, q: int)
    requires total > 0 && q == Abs(p) / total
    ensures total * Cut(p, total) == if p < 0 then -(total * q) else total * q
    ensures Abs(Cut(p, total)) == Abs(q)
  {
    assert total * -q == -(total * q);
  }

  function Cuts(a: int, ratios: seq<int>, total: int): (s: seq<int>)
    requires total > 0
    ensures |s| == |ratios|
  {
    seq(|ratios|, i requires 0 <= i < |ratios| => Cut(a * ratios[i], total))
  }

  function Uncovereds(a: int, ratios: seq<int>, total: int): (s: seq<int>)
    requires total > 0
    ensures |s| == |ratios|
  {
    seq(|ratios|, i requires 0 <= i < |ratios| => Uncovered(a * ratios[i], total))
  }

  predicate NonNegative(s: seq<int>) {
    forall i :: 0 <= i < |s| ==> s[i] >= 0
  }

  predicate Acceptable(ratios: seq<int>) {
    SumOf(ratios) > 0 && NonNegative(ratios)
  }

  /** i deserves a spare unit before j: more of it is uncovered, or as much and it comes first. */
  predicate Outranks(uncovered: seq<int>, i: int, j: int)
    requires 0 <= i < |uncovered| && 0 <= j < |uncovered|
  {
    uncovered[i] > uncovered[j] || (uncovered[i] == uncovered[j] && i < j)
  }

  /** The parts are the cuts, one step further exactly where an outranking position was served. */
  predicate Served(cuts: seq<int>, uncovered: seq<int>, step: int, parts: seq<int>) {
    && |cuts| == |uncovered| == |parts|
    && (forall i :: 0 <= i < |parts| ==>
          parts[i] == cuts[i] || (uncovered[i] > 0 && parts[i] == cuts[i] + step))
    && (forall i, j {:trigger Outranks(uncovered, i, j)} ::
          0 <= i < |parts| && 0 <= j < |parts| && parts[i] != cuts[i] && parts[j] == cuts[j]
          ==> Outranks(uncovered, i, j))
  }

  /**
   * Every part is its exact share cut toward zero or one unit further; the parts sum to a; and the
   * parts that got the extra unit are those with the largest remainders, ties to the lowest index.
   */
  predicate Proportional(a: int, ratios: seq<int>, parts: seq<int>) {
    var total := SumOf(ratios);
    && Acceptable(ratios)
    && SumOf(parts) == a
    && Served(Cuts(a, ratios, total), Uncovereds(a, ratios, total), Signed(a, 1), parts)
  }

  lemma SignOfProduct(a: int, r: int)
    requires r >= 0 && a * r != 0
    ensures a * r > 0 <==> a > 0
  {
  }

  /** Hence each part is the floor or the ceiling of a * r / total, and a zero ratio gets nothing. */
  lemma PartWithinOneUnit(a: int, ratios: seq<int>, parts: seq<int>, i: nat)
    requires Proportional(a, ratios, parts) && i < |ratios|
    ensures Abs(SumOf(ratios) * parts[i] - a * ratios[i]) < SumOf(ratios)
    ensures ratios[i] == 0 ==> parts[i] == 0
  {
    ProportionalAt(a, ratios, parts, i, SumOf(ratios), a * ratios[i]);
    ServedPart(a, ratios[i], SumOf(ratios), parts[i]);
  }

  lemma ProportionalAt(a: int, ratios: seq<int>, parts: seq<int>, i: nat, t: int, p: int)
    requires Proportional(a, ratios, parts) && i < |ratios| && t == SumOf(ratios) && p == a * ratios[i]
    ensures parts[i] == Cut(p, t) || (Uncovered(p, t) > 0 && parts[i] == Cut(p, t) + Signed(a, 1))
  {
    ServedAt(Cuts(a, ratios, t), Uncovereds(a, ratios, t), Signed(a, 1), parts, i);
  }

  lemma ServedAt(cuts: seq<int>, uncovered: seq<int>, step: int, parts: seq<int>, i: nat)
    requires Served(cuts, uncovered, step, parts) && i < |cuts|
    ensures parts[i] == cuts[i] || (uncovered[i] > 0 && parts[i] == cuts[i] + step)
  {
  }

  lemma ServedPart(a: int, r: int, total: int, part: int)
    requires total > 0 && r >= 0
    requires part == Cut(a * r, total) || (Uncovered(a * r, total) > 0 && part == Cut(a * r, total) + Signed(a, 1))
    ensures Abs(total * part - a * r) < total
    ensures r == 0 ==> part == 0
  {
    var p := a * r;
    if p != 0 {
      SignOfProduct(a, r);
    }
    ServedWithinOneUnit(p, total, Signed(a, 1), part);
  }

  lemma ServedWithinOneUnit(p: int, total: int, step: int, part: int)
    requires total > 0
    requires p != 0 ==> step == Signed(p, 1)
    requires part == Cut(p, total) || (Uncovered(p, total) > 0 && part == Cut(p, total) + step)
    ensures Abs(total * part - p) < total
    ensures p == 0 ==> part == 0
  {
  }

  lemma Distributes(x: int, y: int, z: int)
    ensures x * (y + z) == x * y + x * z
  {
  }

  // ----- the clauses determine the parts -----

  /** Changing exactly the positions in B by s changes the sum by s * |B|. */
  lemma {:induction false} SumShift(x: seq<int>, y: seq<int>, B: set<nat>, s: int)
    requires |x| == |y|
    requires forall i :: i in B ==> i < |x|
    requires forall i: nat :: i < |x| ==> y[i] == if i in B then x[i] + s else x[i]
    ensures SumOf(y) == SumOf(x) + s * |B|
  {
    if x == [] {
      assert B == {};
    } else {
      var n := |x| - 1;
      var B' := B - {n};
      SumShift(x[..n], y[..n], B', s);
      if n in B {
        assert |B| == |B'| + 1;
        Distributes(s, |B'|, 1);
      } else {
        assert B' == B;
      }
    }
  }

  ghost function Bumped(cuts: seq<int>, parts: seq<int>): set<nat>
    requires |cuts| == |parts|
  {
    set i: nat | i < |cuts| && parts[i] != cuts[i]
  }

  lemma EqualSizeDiffers(P: set<nat>, Q: set<nat>)
    requires |P| == |Q| && P != Q
    ensures P - Q != {} && Q - P != {}
  {
    assert |P| == |P - Q| + |P * Q| by { assert P == (P - Q) + (P * Q); }
    assert |Q| == |Q - P| + |P * Q| by { assert Q == (Q - P) + (P * Q); }
    assert P - Q == {} && Q - P == {} ==> P == Q;
  }

  lemma ServedUnique(cuts: seq<int>, uncovered: seq<int>, step: int, p: seq<int>, q: seq<int>)
    requires Served(cuts, uncovered, step, p) && Served(cuts, uncovered, step, q)
    requires SumOf(p) == SumOf(q) && -1 <= step <= 1
    ensures p == q
  {
    var P, Q := Bumped(cuts, p), Bumped(cuts, q);
    SumShift(cuts, p, P, step);
    SumShift(cuts, q, Q, step);
    if step != 0 {
      BumpedUnique(cuts, uncovered, step, p, q);
    }
    assert forall i: nat :: i < |p| ==> (i in P <==> p[i] != cuts[i]) && (i in Q <==> q[i] != cuts[i]);
  }

  lemma OutranksAsymmetric(uncovered: seq<int>, i: int, j: int)
    requires 0 <= i < |uncovered| && 0 <= j < |uncovered|
    ensures !(Outranks(uncovered, i, j) && Outranks(uncovered, j, i))
  {
  }

  lemma BumpedUnique(cuts: seq<int>, uncovered: seq<int>, step: int, p: seq<int>, q: seq<int>)
    requires Served(cuts, uncovered, step, p) && Served(cuts, uncovered, step, q)
    requires |Bumped(cuts, p)| == |Bumped(cuts, q)|
    ensures Bumped(cuts, p) == Bumped(cuts, q)
  {
    var P, Q := Bumped(cuts, p), Bumped(cuts, q);
    if P != Q {
      EqualSizeDiffers(P, Q);
      var i :| i in P - Q;
      var j :| j in Q - P;
      OutranksAsymmetric(uncovered, i, j);
    }
  }

  lemma ProportionalUnique(a: int, ratios: seq<int>, p: seq<int>, q: seq<int>)
    requires Proportional(a, ratios, p) && Proportional(a, ratios, q)
    ensures p == q
  {
    var t := SumOf(ratios);
    ServedUnique(Cuts(a, ratios, t), Uncovereds(a, ratios, t), Signed(a, 1), p, q);
  }

  // ----- one round after another serves the right positions -----

  lemma BestIsTop(rems: seq<int>, step: int, k: nat)
    requires step == 1 || step == -1
    requires k <= |rems|
    requires forall i :: 0 <= i < |rems| ==> Signed(step, rems[i]) >= 0
    ensures var b := BestUpTo(rems, step, k);
            forall i :: 0 <= i < k && rems[i] != 0 ==>
              b >= 0 && rems[b] != 0
                  && (Signed(step, rems[i]) < Signed(step, rems[b]) || (rems[i] == rems[b] && b <= i))
  {
  }

  /** If only positions in B are non-zero, the sum is at most bound * |B|. */
  lemma {:induction false} SumBound(s: seq<int>, B: set<nat>, bound: nat)
    requires forall i: nat :: i < |s| ==> 0 <= s[i] <= bound && (i !in B ==> s[i] == 0)
    ensures SumOf(s) <= bound * |B|
  {
    if s != [] {
      var n := |s| - 1;
      if n in B {
        SumBound(s[..n], B - {n}, bound);
        assert |B| == |B - {n}| + 1;
        Distributes(bound, |B - {n}|, 1);
      } else {
        SumBound(s[..n], B, bound);
      }
    }
  }

  ghost function Waiting(uncovered: seq<int>): set<nat> {
    set i: nat | i < |uncovered| && uncovered[i] > 0
  }

  /** There are at least as many positions with something uncovered as units to hand out. */
  lemma EnoughWait(uncovered: seq<int>, total: nat, units: nat)
    requires total > 0
    requires forall i :: 0 <= i < |uncovered| ==> 0 <= uncovered[i] <= total
    requires SumOf(uncovered) == total * units
    ensures units <= |Waiting(uncovered)|
  {
    var w := |Waiting(uncovered)|;
    SumBound(uncovered, Waiting(uncovered), total);
    if units > w {
      MulMono(w + 1, units, total);
      Distributes(total, w, 1);
    }
  }

  /** A position with something uncovered has a positive ratio, so there are at most SumOf(ratios) of them. */
  lemma {:induction false} FewWait(a: int, ratios: seq<int>, total: int)
    requires total > 0 && NonNegative(ratios)
    ensures |Waiting(Uncovereds(a, ratios, total))| <= SumOf(ratios)
  {
    if ratios == [] {
      assert Waiting(Uncovereds(a, ratios, total)) == {};
    } else {
      var n := |ratios| - 1;
      FewWait(a, ratios[..n], total);
      var W, W' := Waiting(Uncovereds(a, ratios, total)), Waiting(Uncovereds(a, ratios[..n], total));
      if ratios[n] == 0 {
        CutCovers(a * ratios[n], total);
        assert W == W';
      } else {
        assert W <= W' + {n};
        SetSize(W, W', n);
      }
    }
  }

  lemma SetSize(W: set<nat>, W': set<nat>, n: nat)
    requires W <= W' + {n}
    ensures |W| <= |W'| + 1
  {
    if W == {} {
    } else if n in W {
      SubsetSize(W - {n}, W');
    } else {
      SubsetSize(W, W');
    }
  }

  lemma SubsetSize(A: set<nat>, B: set<nat>)
    requires A <= B
    ensures |A| <= |B|
  {
    assert B == A + (B - A);
  }

  /** Where the hand stands once B is served: parts moved one step there, remainders cleared there. */
  ghost predicate Midway(cuts: seq<int>, uncovered: seq<int>, step: int, B: set<nat>, h: Hand) {
    && (step == 1 || step == -1)
    && |cuts| == |uncovered| && h.Dealt(|cuts|)
    && (forall i :: i in B ==> i < |cuts| && uncovered[i] > 0)
    && (forall i: nat :: i < |cuts| ==>
          && uncovered[i] >= 0
          && h.parts[i] == (if i in B then cuts[i] + step else cuts[i])
          && h.rems[i] == (if i in B then 0 else Signed(step, uncovered[i])))
    && (forall i, j: nat {:trigger Outranks(uncovered, i, j)} ::
          i in B && j < |cuts| && j !in B ==> Outranks(uncovered, i, j))
  }

  lemma {:induction false} RoundsServe(cuts: seq<int>, uncovered: seq<int>, step: int, units: nat, h: Hand)
      returns (B: set<nat>)
    requires Midway(cuts, uncovered, step, {}, h)
    requires forall i :: 0 <= i < |cuts| && uncovered[i] > 0 ==> Fits(cuts[i] + step)
    requires units <= |Waiting(uncovered)|
    ensures |B| == units && Midway(cuts, uncovered, step, B, Rounds(h, step, units))
    decreases units
  {
    if units == 0 {
      B := {};
    } else {
      var B' := RoundsServe(cuts, uncovered, step, units - 1, h);
      B := RoundServes(cuts, uncovered, step, B', Rounds(h, step, units - 1));
    }
  }

  lemma MidwayServed(cuts: seq<int>, uncovered: seq<int>, step: int, B: set<nat>, h: Hand)
    requires Midway(cuts, uncovered, step, B, h)
    ensures Served(cuts, uncovered, step, h.parts)
    ensures SumOf(h.parts) == SumOf(cuts) + Signed(step, |B|)
  {
    SumShift(cuts, h.parts, B, step);
  }

  lemma RoundServes(cuts: seq<int>, uncovered: seq<int>, step: int, B: set<nat>, h: Hand) returns (B': set<nat>)
    requires Midway(cuts, uncovered, step, B, h)
    requires forall i :: 0 <= i < |cuts| && uncovered[i] > 0 ==> Fits(cuts[i] + step)
    requires |B| < |Waiting(uncovered)|
    ensures |B'| == |B| + 1 && Midway(cuts, uncovered, step, B', Round(h, step))
  {
    B' := B + {Best(h.rems, step)};
    BestWaits(cuts, uncovered, step, B, h);
  }

  lemma BestWaits(cuts: seq<int>, uncovered: seq<int>, step: int, B: set<nat>, h: Hand)
    requires Midway(cuts, uncovered, step, B, h)
    requires |B| < |Waiting(uncovered)|
    ensures var b := Best(h.rems, step);
            && b !in B && uncovered[b] > 0
            && forall j: nat :: j < |cuts| && j !in B && j != b ==> Outranks(uncovered, b, j)
  {
    assert B <= Waiting(uncovered);
    assert Waiting(uncovered) - B != {} by {
      assert B + (Waiting(uncovered) - B) == Waiting(uncovered);
    }
    var w :| w in Waiting(uncovered) - B;
    assert h.rems[w] != 0;
    BestIsTop(h.rems, step, |h.rems|);
    var b := Best(h.rems, step);
    forall j: nat | j < |cuts| && j !in B && j != b
      ensures Outranks(uncovered, b, j)
    {
      assert h.rems[j] != 0 || uncovered[j] == 0;
    }
  }

  // ----- Allocate is proportional whenever its products fit -----

  predicate ProductsFit(a: int, ratios: seq<int>) {
    && Fits(SumOf(ratios))
    && forall i :: 0 <= i < |ratios| ==> Fits(a * ratios[i])
  }

  lemma {:induction false} SumNonNegative(s: seq<int>)
    requires NonNegative(s)
    ensures SumOf(s) >= 0
  {
    if s != [] {
      SumNonNegative(s[..|s| - 1]);
    }
  }

  lemma {:induction false} TotalRatioExact(ratios: seq<int>)
    requires NonNegative(ratios) && Fits(SumOf(ratios))
    ensures TotalRatio(ratios) == Ok(SumOf(ratios))
  {
    if ratios != [] {
      var n := |ratios| - 1;
      SumNonNegative(ratios[..n]);
      TotalRatioExact(ratios[..n]);
    }
  }

  /** The signed uncovered parts sum to total times what the cuts leave over. */
  lemma {:induction false} UncoveredSum(a: int, ratios: seq<int>, total: int)
    requires total > 0 && NonNegative(ratios)
    ensures Signed(a, SumOf(Uncovereds(a, ratios, total)))
            == a * SumOf(ratios) - total * SumOf(Cuts(a, ratios, total))
  {
    if ratios != [] {
      var n := |ratios| - 1;
      UncoveredSum(a, ratios[..n], total);
      var p := a * ratios[n];
      CutCovers(p, total);
      if p != 0 {
        SignOfProduct(a, ratios[n]);
      }
      assert Uncovereds(a, ratios, total)[..n] == Uncovereds(a, ratios[..n], total);
      assert Cuts(a, ratios, total)[..n] == Cuts(a, ratios[..n], total);
      Distributes(a, SumOf(ratios[..n]), ratios[n]);
      Distributes(total, SumOf(Cuts(a, ratios[..n], total)), Cut(p, total));
    }
  }

  /** Hence the cuts never overshoot, and the uncovered parts are worth exactly the units left over. */
  lemma UnitsLeftOver(a: int, ratios: seq<int>) returns (units: nat)
    requires Acceptable(ratios)
    ensures var t := SumOf(ratios);
            && a == SumOf(Cuts(a, ratios, t)) + Signed(a, units)
            && SumOf(Uncovereds(a, ratios, t)) == t * units
            && (a == 0 ==> units == 0)
  {
    var t := SumOf(ratios);
    var c, u := SumOf(Cuts(a, ratios, t)), SumOf(Uncovereds(a, ratios, t));
    UncoveredSum(a, ratios, t);
    SumNonNegative(Uncovereds(a, ratios, t));
    if a == 0 {
      ZeroCuts(ratios, t);
      units := 0;
    } else {
      units := NonNegativeQuotient(a, c, t, u);
    }
  }

  lemma NonNegativeQuotient(a: int, c: int, t: int, u: nat) returns (units: nat)
    requires t > 0 && a != 0
    requires Signed(a, u) == a * t - t * c
    ensures a == c + Signed(a, units) && u == t * units
  {
    assert Signed(a, u) == t * (a - c);
    assert u == t * Signed(a, a - c);
    if Signed(a, a - c) < 0 {
      MulMono(1, -Signed(a, a - c), t);
    }
    units := Signed(a, a - c);
  }

  lemma {:induction false} ZeroCuts(ratios: seq<int>, total: int)
    requires total > 0
    ensures SumOf(Cuts(0, ratios, total)) == 0
    ensures SumOf(Uncovereds(0, ratios, total)) == 0
  {
    if ratios != [] {
      var n := |ratios| - 1;
      ZeroCuts(ratios[..n], total);
      CutCovers(0 * ratios[n], total);
      assert Uncovereds(0, ratios, total)[..n] == Uncovereds(0, ratios[..n], total);
      assert Cuts(0, ratios, total)[..n] == Cuts(0, ratios[..n], total);
    }
  }

  lemma RegistersExact(prod: int, total: int)
    requires total > 0 && Fits(prod)
    ensures Share(prod, total) == Cut(prod, total)
    ensures Scaled(prod, total) == Signed(prod, Uncovered(prod, total))
    ensures Uncovered(prod, total) > 0 ==> Fits(Cut(prod, total) + Signed(prod, 1))
  {
    CutCovers(prod, total);
    RegisterArithmetic(prod, Cut(prod, total), total * Cut(prod, total), Uncovered(prod, total));
    assert Cut(prod, total) * total == total * Cut(prod, total);
  }

  lemma RegisterArithmetic(prod: int, c: int, tc: int, u: nat)
    requires Fits(prod) && prod == tc + Signed(prod, u)
    requires Abs(c) <= Abs(tc) && Abs(prod) == Abs(tc) + u
    requires c > 0 ==> tc > 0
    ensures Wrap(c) == c && Wrap(prod - Wrap(tc)) == Signed(prod, u)
    ensures u > 0 ==> Fits(c + Signed(prod, 1))
  {
  }

  lemma RegistersMatch(a: int, ratios: seq<int>, total: int)
    requires total > 0 && NonNegative(ratios)
    requires forall i :: 0 <= i < |ratios| ==> Fits(a * ratios[i])
    ensures Shares(a, ratios, total) == Cuts(a, ratios, total)
    ensures forall i :: 0 <= i < |ratios| ==>
              && 0 <= Uncovereds(a, ratios, total)[i] < total
              && Remainders(a, ratios, total)[i] == Signed(a, Uncovereds(a, ratios, total)[i])
              && (Uncovereds(a, ratios, total)[i] > 0 ==> Fits(Cuts(a, ratios, total)[i] + Signed(a, 1)))
  {
    forall i | 0 <= i < |ratios|
      ensures Shares(a, ratios, total)[i] == Cuts(a, ratios, total)[i]
      ensures 0 <= Uncovereds(a, ratios, total)[i] < total
      ensures Remainders(a, ratios, total)[i] == Signed(a, Uncovereds(a, ratios, total)[i])
      ensures Uncovereds(a, ratios, total)[i] > 0 ==> Fits(Cuts(a, ratios, total)[i] + Signed(a, 1))
    {
      RegistersExact(a * ratios[i], total);
      CutCovers(a * ratios[i], total);
      if a * ratios[i] != 0 {
        SignOfProduct(a, ratios[i]);
      }
    }
  }

  lemma SpendServes(a: int, shares: seq<int>, uncovered: seq<int>, rems: seq<int>, units: nat, left: int)
    requires Fits(a) && |shares| == |uncovered| == |rems| > 0
    requires forall i :: 0 <= i < |rems| ==>
               && 0 <= uncovered[i] && rems[i] == Signed(a, uncovered[i])
               && (uncovered[i] > 0 ==> Fits(shares[i] + Signed(a, 1)))
    requires a == SumOf(shares) + Signed(a, units) && left == Signed(a, units)
    requires Units(left) == units && (units > 0 ==> Step(left) == Signed(a, 1))
    requires units <= |Waiting(uncovered)| && (a == 0 ==> units == 0)
    ensures var out := Rounds(Hand(shares, rems), Step(left), Units(left)).parts;
            Served(shares, uncovered, Signed(a, 1), out) && SumOf(out) == a
  {
    var h := Hand(shares, rems);
    if units == 0 {
      assert Rounds(h, Step(left), 0) == h;
    } else {
      var step := Signed(a, 1);
      var B := RoundsServe(shares, uncovered, step, units, h);
      MidwayServed(shares, uncovered, step, B, Rounds(h, step, units));
    }
  }

  lemma LeftoverRegister(a: int, sum: int, units: nat)
    requires Fits(a) && units <= MAX && a == sum + Signed(a, units)
    ensures Wrap(a - Wrap(sum)) == Signed(a, units)
    ensures (a == 0 ==> units == 0) ==> Units(Signed(a, units)) == units
    ensures units > 0 && a != 0 ==> Step(Signed(a, units)) == Signed(a, 1)
  {
  }

  lemma AllocateByServes(a: int, ratios: seq<int>, total: int)
    requires Fits(a) && Acceptable(ratios) && ProductsFit(a, ratios) && total == SumOf(ratios)
    ensures SumOf(AllocateBy(a, ratios, total)) == a
    ensures Served(Cuts(a, ratios, total), Uncovereds(a, ratios, total), Signed(a, 1), AllocateBy(a, ratios, total))
  {
    var shares, uncovered, rems := Shares(a, ratios, total), Uncovereds(a, ratios, total), Remainders(a, ratios, total);
    RegistersMatch(a, ratios, total);
    var units := UnitsWait(a, ratios, total);
    LeftoverRegister(a, SumOf(shares), units);
    var left := Leftover(a, ratios, total);
    SpendServes(a, shares, uncovered, rems, units, left);
    AllocateByIs(a, ratios, total, shares, rems, left);
  }

  lemma AllocateByIs(a: int, ratios: seq<int>, total: int, shares: seq<int>, rems: seq<int>, left: int)
    requires total != 0 && ratios != []
    requires shares == Shares(a, ratios, total) && rems == Remainders(a, ratios, total)
        && left == Leftover(a, ratios, total)
    ensures AllocateBy(a, ratios, total) == Rounds(Hand(shares, rems), Step(left), Units(left)).parts
  {
  }

  lemma UnitsWait(a: int, ratios: seq<int>, total: int) returns (units: nat)
    requires Acceptable(ratios) && total == SumOf(ratios)
    ensures a == SumOf(Cuts(a, ratios, total)) + Signed(a, units)
    ensures units <= |Waiting(Uncovereds(a, ratios, total))| <= total && (a == 0 ==> units == 0)
  {
    units := UnitsLeftOver(a, ratios);
    forall i | 0 <= i < |ratios|
      ensures 0 <= Uncovereds(a, ratios, total)[i] <= total
    {
      CutCovers(a * ratios[i], total);
    }
    EnoughWait(Uncovereds(a, ratios, total), total, units);
    FewWait(a, ratios, total);
  }

  lemma AllocateProportional(a: int, ratios: seq<int>)
    requires Fits(a) && Acceptable(ratios) && ProductsFit(a, ratios)
    ensures AllocateSpec(a, ratios).Ok? && Proportional(a, ratios, AllocateSpec(a, ratios).value)
  {
    TotalRatioExact(ratios);
    AllocateByServes(a, ratios, SumOf(ratios));
  }

  // ----- negation, equal split -----

  function Negated(s: seq<int>): (r: seq<int>)
    ensures |r| == |s|
  {
    seq(|s|, i requires 0 <= i < |s| => -s[i])
  }

  lemma {:induction false} SumNegated(s: seq<int>)
    ensures SumOf(Negated(s)) == -SumOf(s)
  {
    if s != [] {
      var n := |s| - 1;
      assert Negated(s)[..n] == Negated(s[..n]);
      SumNegated(s[..n]);
    }
  }

  lemma CutNegated(p: int, total: int)
    requires total > 0
    ensures Cut(-p, total) == -Cut(p, total)
    ensures Uncovered(-p, total) == Uncovered(p, total)
  {
    assert Abs(-p) == Abs(p);
    var c := Cut(p, total);
    if p == 0 {
      CutCovers(0, total);
    }
    assert Cut(-p, total) == -c;
    assert total * -c == -(total * c);
  }

  lemma CutsNegated(a: int, ratios: seq<int>, t: int)
    requires t > 0
    ensures Cuts(-a, ratios, t) == Negated(Cuts(a, ratios, t)) && Uncovereds(-a, ratios, t) == Uncovereds(a, ratios, t)
  {
    forall i | 0 <= i < |ratios|
      ensures Cuts(-a, ratios, t)[i] == -Cuts(a, ratios, t)[i]
      ensures Uncovereds(-a, ratios, t)[i] == Uncovereds(a, ratios, t)[i]
    {
      assert -a * ratios[i] == -(a * ratios[i]);
      CutNegated(a * ratios[i], t);
    }
  }

  lemma ServedNegated(cuts: seq<int>, uncovered: seq<int>, step: int, parts: seq<int>)
    requires Served(cuts, uncovered, step, parts)
    ensures Served(Negated(cuts), uncovered, -step, Negated(parts))
  {
  }

  lemma ProportionalNegated(a: int, ratios: seq<int>, parts: seq<int>)
    requires Proportional(a, ratios, parts)
    ensures Proportional(-a, ratios, Negated(parts))
  {
    var t := SumOf(ratios);
    SumNegated(parts);
    CutsNegated(a, ratios, t);
    ServedNegated(Cuts(a, ratios, t), Uncovereds(a, ratios, t), Signed(a, 1), parts);
    assert Signed(-a, 1) == -Signed(a, 1);
  }

  /** Allocating the negated amount negates every part. */
  lemma AllocateNegated(a: int, ratios: seq<int>)
    requires Acceptable(ratios)
    requires Fits(a) && ProductsFit(a, ratios) && Fits(-a) && ProductsFit(-a, ratios)
    ensures AllocateSpec(a, ratios).Ok? && AllocateSpec(-a, ratios) == Ok(Negated(AllocateSpec(a, ratios).value))
  {
    AllocateProportional(a, ratios);
    AllocateProportional(-a, ratios);
    ProportionalNegated(a, ratios, AllocateSpec(a, ratios).value);
    ProportionalUnique(-a, ratios, AllocateSpec(-a, ratios).value, Negated(AllocateSpec(a, ratios).value));
  }

  function Ones(n: nat): (s: seq<int>)
    ensures |s| == n
  {
    seq(n, _ => 1)
  }

  lemma {:induction false} SumConstant(s: seq<int>, c: int)
    requires forall i :: 0 <= i < |s| ==> s[i] == c
    ensures SumOf(s) == c * |s|
  {
    if s != [] {
      SumConstant(s[..|s| - 1], c);
      Distributes(c, |s| - 1, 1);
    }
  }

  function EqualParts(a: int, n: nat): (s: seq<int>)
    requires n > 0
    ensures |s| == n
  {
    seq(n, i => if i < Abs(a) % n then Quo(a, n) + Signed(a, 1) else Quo(a, n))
  }

  ghost function FirstIndices(u: nat): (s: set<nat>)
    ensures |s| == u
    ensures forall i: nat :: i in s <==> i < u
  {
    if u == 0 then {} else FirstIndices(u - 1) + {u - 1}
  }

  lemma UncoveredIsModulo(a: int, n: nat)
    requires n > 0
    ensures Uncovered(a, n) == Abs(a) % n
  {
  }

  lemma EqualCuts(a: int, n: nat)
    requires n > 0
    ensures forall i :: 0 <= i < n ==> Cuts(a, Ones(n), n)[i] == Quo(a, n)
    ensures forall i :: 0 <= i < n ==> Uncovereds(a, Ones(n), n)[i] == Abs(a) % n
  {
  }

  lemma SumEqualParts(a: int, n: nat)
    requires n > 0
    ensures SumOf(EqualParts(a, n)) == a
  {
    var cuts, u := seq(n, _ => Quo(a, n)), Abs(a) % n;
    SumConstant(cuts, Quo(a, n));
    SumShift(cuts, EqualParts(a, n), FirstIndices(u), Signed(a, 1));
    UncoveredIsModulo(a, n);
    CutCovers(a, n);
    SignedUnits(a, u);
    assert Quo(a, n) * n == n * Quo(a, n);
  }

  lemma SignedUnits(a: int, u: int)
    ensures Signed(a, 1) * u == Signed(a, u)
  {
  }

  lemma EqualPartsProportional(a: int, n: nat)
    requires n > 0
    ensures SumOf(Ones(n)) == n && Proportional(a, Ones(n), EqualParts(a, n))
  {
    SumConstant(Ones(n), 1);
    EqualCuts(a, n);
    SumEqualParts(a, n);
  }

  /** Split has no overflow case: the first |a| mod n parts get one unit more, away from zero. */
  lemma SplitClosedForm(a: int, n: int)
    requires Fits(a) && 0 < n <= MAX
    ensures SplitSpec(a, n) == Ok(EqualParts(a, n))
  {
    EqualPartsProportional(a, n);
    assert seq(n, _ => 1) == Ones(n);
    assert forall i :: 0 <= i < n ==> a * Ones(n)[i] == a;
    AllocateProportional(a, Ones(n));
    ProportionalUnique(a, Ones(n), AllocateSpec(a, Ones(n)).value, EqualParts(a, n));
  }

  // ----- what survives overflow -----

  lemma {:induction false} SumUpdate(s: seq<int>, i: nat, v: int)
    requires i < |s|
    ensures SumOf(s[i := v]) == SumOf(s) - s[i] + v
  {
    var n := |s| - 1;
    if i == n {
      assert s[i := v][..n] == s[..n];
    } else {
      assert s[i := v][..n] == s[..n][i := v];
      SumUpdate(s[..n], i, v);
    }
  }

  lemma RoundMoves(h: Hand, step: int) returns (q: int)
    requires h.Dealt(|h.parts|)
    ensures SumOf(Round(h, step).parts) == SumOf(h.parts) + step + q * 0x1_0000_0000_0000_0000
  {
    var i := Best(h.rems, step);
    SumUpdate(h.parts, i, Wrap(h.parts[i] + step));
    q := WrapOffset(h.parts[i] + step);
  }

  /** Rounds move the sum by step each, modulo 2^64. */
  lemma {:induction false} RoundsConserve(h: Hand, step: int, k: nat) returns (q: int)
    requires h.Dealt(|h.parts|) && (step == 1 || step == -1)
    ensures SumOf(Rounds(h, step, k).parts) == SumOf(h.parts) + Signed(step, k) + q * 0x1_0000_0000_0000_0000
  {
    q := 0;
    if k > 0 {
      var q1 := RoundsConserve(h, step, k - 1);
      var q2 := RoundMoves(Rounds(h, step, k - 1), step);
      q := q1 + q2;
    }
  }

  lemma LeftoverMoves(a: int, s: int, out: int, q: int)
    requires Fits(a)
    requires var left := Wrap(a - Wrap(s));
             out == s + Signed(Step(left), Units(left)) + q * 0x1_0000_0000_0000_0000
    ensures Wrap(out) == a <==> Wrap(a - Wrap(s)) != MIN
  {
    var left := Wrap(a - Wrap(s));
    var q1 := WrapOffset(s);
    var q2 := WrapOffset(a - Wrap(s));
    if left == MIN {
      assert Units(left) == 0;
      WrapUnique(out, Wrap(s), q1 - q);
      assert Wrap(s) == a ==> left == 0;
    } else {
      assert Signed(Step(left), Units(left)) == left;
      WrapUnique(out, a, q1 - q2 - q);
    }
  }

  lemma RoundsRestore(h: Hand, a: int, left: int, step: int, units: nat)
    requires h.Dealt(|h.parts|) && Fits(a)
    requires left == Wrap(a - Wrap(SumOf(h.parts))) && step == Step(left) && units == Units(left)
    ensures Wrap(SumOf(Rounds(h, step, units).parts)) == a <==> left != MIN
  {
    var q := RoundsConserve(h, step, units);
    LeftoverMoves(a, SumOf(h.parts), SumOf(Rounds(h, step, units).parts), q);
  }

  /**
   * Overflow or not, the parts sum to the amount modulo 2^64, except where the leftover is MinInt64:
   * its negation is negative again and nothing at all is handed out.
   */
  lemma AllocateConserves(a: int, ratios: seq<int>)
    requires Fits(a) && AllocateSpec(a, ratios).Ok?
    ensures Wrap(SumOf(AllocateSpec(a, ratios).value)) == a
            <==> Leftover(a, ratios, TotalRatio(ratios).value) != MIN
  {
    var total := TotalRatio(ratios).value;
    var left := Leftover(a, ratios, total);
    RoundsRestore(Hand(Shares(a, ratios, total), Remainders(a, ratios, total)), a, left, Step(left), Units(left));
  }

  /** Such a leftover exists, and the whole amount is lost: products that do not fit void the promise. */
  lemma OverflowLosesAll()
    ensures AllocateSpec(MIN, [2]) == Ok([0])
  {
    assert [2][..0] == [];
    assert TotalRatio([2]) == Ok(2);
    NothingShared();
    AllocateByIs(MIN, [2], 2, [0], [0], MIN);
  }

  lemma NothingShared()
    ensures Shares(MIN, [2], 2) == [0] && Remainders(MIN, [2], 2) == [0] && Leftover(MIN, [2], 2) == MIN
  {
    WrapUnique(MIN * 2, 0, 1);
    assert Share(0, 2) == 0 && Scaled(0, 2) == 0;
    assert [0][..0] == [];
    assert SumOf([0]) == 0;
  }
}
