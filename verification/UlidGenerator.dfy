/** The identifier generator: monotonic within a millisecond (pkg/ids/ids.go, NewAt and increment). */
module UlidGenerator {
  import opened Digits
  import opened Lexicographic
  import opened Ulid
  import opened Strings

  const UINT64_MODULUS := 0x1_0000_0000_0000_0000
  const STAMP_MODULUS := 0x1_0000_0000_0000

  /** The state between calls: the last stamp and the last ten bytes of entropy, which are the last identifier's. */
  datatype Gen = Gen(ms: int, rand: seq<int>)

  ghost predicate IsEntropy(b: seq<int>) {
    |b| == 10 && InBase(256, b)
  }

  ghost predicate Valid(g: Gen) {
    0 <= g.ms < UINT64_MODULUS && IsEntropy(g.rand)
  }

  /** Add one to a big-endian number in place, byte by byte from the right; false when every byte wrapped. */
  function Increment(b: seq<int>): (r: (seq<int>, bool))
    ensures |r.0| == |b|
  {
    if b == [] then (b, false)
    else
      var n := |b| - 1;
      if b[n] != 255 then (b[..n] + [b[n] + 1], true)
      else
        var carried := Increment(b[..n]);
        (carried.0 + [0], carried.1)
  }

  /** The sum is one more, unless the number was the largest there is, when it wraps to zero. */
  lemma {:induction false} IncrementAddsOne(b: seq<int>)
    requires InBase(256, b)
    ensures InBase(256, Increment(b).0)
    ensures Increment(b).1 ==> Value(256, Increment(b).0) == Value(256, b) + 1
    ensures !Increment(b).1 ==> (forall i :: 0 <= i < |b| ==> b[i] == 255)
    decreases |b|
  {
    if b != [] {
      var n := |b| - 1;
      assert b == b[..n] + [b[n]];
      if b[n] != 255 {
        ValueAppend(256, b[..n], b[n] + 1);
      } else {
        IncrementAddsOne(b[..n]);
        CarryAddsOne(b[..n], Increment(b[..n]).0);
        assert !Increment(b).1 ==> forall i :: 0 <= i < n ==> b[i] == b[..n][i];
      }
    }
  }

  /** A byte that wraps hands one unit to the byte before it. */
  lemma CarryAddsOne(before: seq<int>, after: seq<int>)
    ensures Value(256, after) == Value(256, before) + 1 ==> Value(256, after + [0]) == Value(256, before + [255]) + 1
  {
  }

  /** increment, in place on the array. */
  method IncrementInPlace(b: array<int>) returns (ok: bool)
    requires InBase(256, b[..])
    modifies b
    ensures (b[..], ok) == Increment(old(b[..]))
  {
    ghost var was := b[..];
    var i := b.Length;
    assert was[..i] == was && Increment(was).0 + b[i..] == Increment(was).0;
    while i > 0
      invariant 0 <= i <= b.Length
      invariant b[..i] == was[..i]
      invariant Increment(was) == (Increment(was[..i]).0 + b[i..], Increment(was[..i]).1)
    {
      i := i - 1;
      var carried := b[i] == 255;
      assert was[..i + 1][..i] == was[..i] && was[i] == b[i];
      ghost var tail := b[i + 1..];
      b[i] := if carried then 0 else b[i] + 1;
      assert b[i..] == [b[i]] + tail;
      if !carried {
        assert Increment(was[..i + 1]) == (was[..i] + [was[i] + 1], true);
        assert b[..] == b[..i] + b[i..] == was[..i] + [was[i] + 1] + tail;
        return true;
      }
      assert Increment(was[..i + 1]).0 + tail == Increment(was[..i]).0 + b[i..];
    }
    assert was[..0] == [] && Increment([]).0 + b[0..] == b[..];
    return false;
  }

  /** byte(ms >> 8*(k-1)), ..., byte(ms): the low k bytes of a number. */
  function LowBytes(n: int, k: nat): (b: seq<int>)
    ensures |b| == k && InBase(256, b)
    decreases k
  {
    if k == 0 then [] else LowBytes(n / 256, k - 1) + [n % 256]
  }

  lemma ModuloByte(n: int, p: int)
    requires n >= 0 && p > 0
    ensures n % (p * 256) == (n / 256 % p) * 256 + n % 256
  {
    var m, low := n / 256, n % 256;
    var high, rest := m / p, m % p;
    assert n == (high * p + rest) * 256 + low;
    assert (high * p + rest) * 256 == high * (p * 256) + rest * 256;
    assert rest * 256 + low < p * 256;
    Fields(high, rest * 256 + low, p * 256);
  }

  lemma {:induction false} LowBytesValue(n: int, k: nat)
    requires n >= 0
    ensures Pow(256, k) > 0
    ensures Value(256, LowBytes(n, k)) == n % Pow(256, k)
    decreases k
  {
    if k > 0 {
      LowBytesValue(n / 256, k - 1);
      ValueAppend(256, LowBytes(n / 256, k - 1), n % 256);
      ModuloByte(n, Pow(256, k - 1));
    }
  }

  /** The sixteen bytes of the last identifier. */
  function Raw(g: Gen): (raw: seq<int>)
    requires |g.rand| == 10
    ensures |raw| == 16
  {
    LowBytes(g.ms, 6) + g.rand
  }

  /** The 48 bits of a clock that an identifier carries. */
  function Stamp(ms: int): int {
    ms % STAMP_MODULUS
  }

  /** The last identifier of h is greater: by stamp, then by entropy. */
  predicate Later(g: Gen, h: Gen) {
    Stamp(g.ms) < Stamp(h.ms) || (Stamp(g.ms) == Stamp(h.ms) && Value(256, g.rand) < Value(256, h.rand))
  }

  lemma RawOrder(g: Gen, h: Gen)
    requires Valid(g) && Valid(h)
    ensures Less(Raw(g), Raw(h)) <==> Later(g, h)
  {
    PowOf256();
    LowBytesValue(g.ms, 6);
    LowBytesValue(h.ms, 6);
    LessAppend(LowBytes(g.ms, 6), g.rand, LowBytes(h.ms, 6), h.rand);
    LessIsNumeric(256, LowBytes(g.ms, 6), LowBytes(h.ms, 6));
    LessIsNumeric(256, g.rand, h.rand);
  }

  lemma RawIsRaw(g: Gen)
    requires Valid(g)
    ensures IsRaw(Raw(g))
  {
  }

  /** The last identifier emitted, under a given prefix. */
  ghost function LastId(p: string, g: Gen): string
    requires Valid(g)
  {
    RawIsRaw(g);
    Id(p, Raw(g))
  }

  lemma LastIdOrder(p: string, g: Gen, h: Gen)
    requires Valid(g) && Valid(h)
    ensures Before(LastId(p, g), LastId(p, h)) <==> Later(g, h)
  {
    RawIsRaw(g);
    RawIsRaw(h);
    RawOrder(g, h);
    IdsCompareAsNumbers(p, Raw(g), Raw(h));
    LessIsNumeric(256, Raw(g), Raw(h));
  }

  /** Parse takes an emitted identifier back, and TimeOf reads its stamp: the low 48 bits of the clock. */
  lemma EmittedReadsBack(p: string, g: Gen)
    requires Valid(g) && p in PREFIXES
    ensures ParseSpec(LastId(p, g)) == Accepted(LastId(p, g))
    ensures TimeSpec(LastId(p, g)) == Millis(Stamp(g.ms))
  {
    RawIsRaw(g);
    EmittedIsAccepted(p, Raw(g));
    EmittedIsSpelled(p, Raw(g));
    TimeOfSpelled(LastId(p, g), p, Raw(g));
    assert Raw(g)[..6] == LowBytes(g.ms, 6);
    PowOf256();
    LowBytesValue(g.ms, 6);
  }

  /** One call: at this clock reading, with these bytes from the random source. */
  datatype Call = Call(ms: int, entropy: seq<int>)

  ghost predicate ValidCall(c: Call) {
    0 <= c.ms < UINT64_MODULUS && IsEntropy(c.entropy)
  }

  function Next(g: Gen, c: Call): Gen {
    if c.ms == g.ms then
      var bumped := Increment(g.rand);
      if bumped.1 then Gen(c.ms, bumped.0) else Gen((c.ms + 1) % UINT64_MODULUS, c.entropy)
    else Gen(c.ms, c.entropy)
  }

  lemma NextValid(g: Gen, c: Call)
    requires Valid(g) && ValidCall(c)
    ensures Valid(Next(g, c))
  {
    IncrementAddsOne(g.rand);
  }

  /**
   * In the last stamp's millisecond: the entropy does not overflow, or there is a next stamp to move to. At any other
   * clock: what the clock and the random source give is greater than the last identifier.
   */
  predicate Forward(g: Gen, c: Call) {
    if c.ms == g.ms then Increment(g.rand).1 || Stamp(g.ms) < STAMP_MODULUS - 1 else Later(g, Gen(c.ms, c.entropy))
  }

  lemma NextStamp(ms: int)
    requires 0 <= ms < UINT64_MODULUS
    ensures Stamp((ms + 1) % UINT64_MODULUS) == if Stamp(ms) < STAMP_MODULUS - 1 then Stamp(ms) + 1 else 0
  {
  }

  lemma NextIsLaterIff(g: Gen, c: Call)
    requires Valid(g) && ValidCall(c)
    ensures Later(g, Next(g, c)) <==> Forward(g, c)
  {
    IncrementAddsOne(g.rand);
    NextStamp(g.ms);
  }

  /** For clocks that fit the stamp: the clock is not behind the last stamp, and the new stamp fits, too. */
  lemma ForwardWithinRange(g: Gen, c: Call)
    requires Valid(g) && ValidCall(c) && g.ms < STAMP_MODULUS && c.ms < STAMP_MODULUS
    ensures Forward(g, c) <==> c.ms >= g.ms && Next(g, c).ms < STAMP_MODULUS
  {
    assert Stamp(g.ms) == g.ms && Stamp(c.ms) == c.ms;
  }

  /** A run of calls. */
  datatype Calls = Start | Then(before: Calls, last: Call)

  ghost predicate Run(g: Gen, calls: Calls) {
    match calls
    case Start => Valid(g)
    case Then(before, c) => Run(g, before) && ValidCall(c)
  }

  function After(g: Gen, calls: Calls): Gen {
    match calls
    case Start => g
    case Then(before, c) => Next(After(g, before), c)
  }

  lemma {:induction false} AfterValid(g: Gen, calls: Calls)
    requires Run(g, calls)
    ensures Valid(After(g, calls))
  {
    if calls.Then? {
      AfterValid(g, calls.before);
      NextValid(After(g, calls.before), calls.last);
    }
  }

  predicate ClockKeepsUp(g: Gen, calls: Calls) {
    match calls
    case Start => true
    case Then(before, c) => ClockKeepsUp(g, before) && Forward(After(g, before), c)
  }

  /** The identifier emitted last in a run; before any call, the one before the run. */
  ghost function Emitted(p: string, g: Gen, calls: Calls): string
    requires Run(g, calls)
  {
    AfterValid(g, calls);
    LastId(p, After(g, calls))
  }

  /** Each identifier of the run is before the next. */
  ghost predicate Increasing(p: string, g: Gen, calls: Calls)
    requires Run(g, calls)
  {
    calls.Then? ==> Increasing(p, g, calls.before) && Before(Emitted(p, g, calls.before), Emitted(p, g, calls))
  }

  /** calls is earlier with at least one call more. */
  predicate Extends(earlier: Calls, calls: Calls) {
    calls.Then? && (calls.before == earlier || Extends(earlier, calls.before))
  }

  /** Then every identifier of the run is before, and so differs from, every later one. */
  lemma {:induction false} IncreasingPairwise(p: string, g: Gen, earlier: Calls, calls: Calls)
    requires Run(g, calls) && Increasing(p, g, calls) && Extends(earlier, calls)
    ensures Run(g, earlier) && Before(Emitted(p, g, earlier), Emitted(p, g, calls))
    decreases calls
  {
    if calls.before != earlier {
      IncreasingPairwise(p, g, earlier, calls.before);
      BeforeTransitive(Emitted(p, g, earlier), Emitted(p, g, calls.before), Emitted(p, g, calls));
    }
  }

  lemma LastCallIncreasesIff(p: string, g: Gen, calls: Calls)
    requires Run(g, calls) && calls.Then?
    ensures Before(Emitted(p, g, calls.before), Emitted(p, g, calls)) <==> Forward(After(g, calls.before), calls.last)
  {
    AfterValid(g, calls.before);
    AfterValid(g, calls);
    LastIdOrder(p, After(g, calls.before), After(g, calls));
    NextIsLaterIff(After(g, calls.before), calls.last);
  }

  /**
   * The identifiers of any run, at any clocks, are strictly increasing under Compare exactly when every call goes
   * forward.
   */
  lemma {:induction false} IdsIncreaseIff(p: string, g: Gen, calls: Calls)
    requires Run(g, calls)
    ensures Increasing(p, g, calls) <==> ClockKeepsUp(g, calls)
  {
    if calls.Then? {
      IdsIncreaseIff(p, g, calls.before);
      LastCallIncreasesIff(p, g, calls);
    }
  }

  function LastClock(g: Gen, calls: Calls): int {
    if calls.Start? then g.ms else calls.last.ms
  }

  /** The clock fits the stamp and never goes back, and the entropy never overflows. */
  predicate Steady(g: Gen, calls: Calls) {
    match calls
    case Start => g.ms < STAMP_MODULUS
    case Then(before, c) =>
      && Steady(g, before)
      && LastClock(g, before) <= c.ms < STAMP_MODULUS
      && Increment(After(g, before).rand).1
  }

  /** That suffices. */
  lemma {:induction false} SteadyClockKeepsUp(g: Gen, calls: Calls)
    requires Run(g, calls) && Steady(g, calls)
    ensures ClockKeepsUp(g, calls) && After(g, calls).ms == LastClock(g, calls) < STAMP_MODULUS
  {
    if calls.Then? {
      SteadyClockKeepsUp(g, calls.before);
      AfterValid(g, calls.before);
      ForwardWithinRange(After(g, calls.before), calls.last);
    }
  }

  /**
   * A clock that never goes back alone does not: once the entropy overflows, the next call in that millisecond goes
   * back.
   */
  lemma OverflowThenBack(p: string, ms: int, entropy: seq<int>)
    requires 0 <= ms < STAMP_MODULUS - 1 && IsEntropy(entropy)
    ensures var g := Gen(ms, seq(10, _ => 255));
      var calls := Then(Then(Start, Call(ms, entropy)), Call(ms, entropy));
      Run(g, calls) && !Increasing(p, g, calls)
  {
    var g := Gen(ms, seq(10, _ => 255));
    var c := Call(ms, entropy);
    AllOnesOverflow(g.rand);
    OverflowedFallsBack(p, g, c);
  }

  lemma OverflowedFallsBack(p: string, g: Gen, c: Call)
    requires Valid(g) && ValidCall(c) && c.ms == g.ms < STAMP_MODULUS - 1 && !Increment(g.rand).1
    ensures Run(g, Then(Then(Start, c), c)) && !Increasing(p, g, Then(Then(Start, c), c))
  {
    var once := Then(Start, c);
    assert After(g, once) == Gen(c.ms + 1, c.entropy);
    ForwardWithinRange(Gen(c.ms + 1, c.entropy), c);
    IdsIncreaseIff(p, g, Then(once, c));
  }

  lemma {:induction false} AllOnesOverflow(b: seq<int>)
    requires forall i :: 0 <= i < |b| ==> b[i] == 255
    ensures !Increment(b).1
    decreases |b|
  {
    if b != [] {
      AllOnesOverflow(b[..|b| - 1]);
    }
  }

  datatype Minted = Panic | Minted(id: string)

  /** The process-wide generator. */
  class Generator {
    var lastMS: int
    var lastRand: seq<int>

    constructor ()
      ensures View() == Gen(0, [0, 0, 0, 0, 0, 0, 0, 0, 0, 0])
    {
      lastMS, lastRand := 0, [0, 0, 0, 0, 0, 0, 0, 0, 0, 0];
    }

    function View(): Gen
      reads this
    {
      Gen(lastMS, lastRand)
    }

    /** The next stamp and entropy: one more in the same millisecond, fresh bytes otherwise. */
    method Advance(ms: int, entropy: seq<int>)
      requires Valid(View()) && ValidCall(Call(ms, entropy))
      modifies this
      ensures View() == Next(old(View()), Call(ms, entropy))
    {
      var stamp := ms;
      var bytes := new int[10];
      if ms == lastMS {
        Fill(bytes, lastRand);
        var ok := IncrementInPlace(bytes);
        if !ok {
          stamp := (ms + 1) % UINT64_MODULUS;
          Fill(bytes, entropy);
        }
      } else {
        Fill(bytes, entropy);
      }
      lastMS, lastRand := stamp, bytes[..];
    }

    /** NewAt: an unregistered prefix panics before anything changes. */
    method NewAt(p: string, ms: int, entropy: seq<int>) returns (r: Minted)
      requires Valid(View()) && ValidCall(Call(ms, entropy))
      modifies this
      ensures p !in PREFIXES ==> r == Panic && View() == old(View())
      ensures p in PREFIXES ==>
        View() == Next(old(View()), Call(ms, entropy)) && Valid(View()) && r == Minted(LastId(p, View()))
    {
      if p !in PREFIXES {
        return Panic;
      }
      NextValid(View(), Call(ms, entropy));
      Advance(ms, entropy);
      RawIsRaw(View());
      return Minted(Id(p, Raw(View())));
    }
  }

  method Fill(a: array<int>, s: seq<int>)
    requires a.Length == |s|
    modifies a
    ensures a[..] == s
  {
    for i := 0 to a.Length
      invariant a[..i] == s[..i]
    {
      a[i] := s[i];
    }
  }
}
