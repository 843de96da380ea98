/** Digit strings compared lexicographically and as numbers. */
module Digits {
  import opened Int64
  import opened Lexicographic

  ghost predicate InBase(base: int, s: seq<int>) {
    forall i :: 0 <= i < |s| ==> 0 <= s[i] < base
  }

  /** The number a digit string denotes, most significant digit first. */
  function Value(base: int, s: seq<int>): int {
    if s == [] then 0 else Value(base, s[..|s| - 1]) * base + s[|s| - 1]
  }

  /** Over digits of one base, and equal lengths, lexicographic order is numeric order. */
  lemma {:induction false} LessIsNumeric(base: int, a: seq<int>, b: seq<int>)
    requires |a| == |b| && InBase(base, a) && InBase(base, b)
    ensures Less(a, b) <==> Value(base, a) < Value(base, b)
    ensures a == b <==> Value(base, a) == Value(base, b)
    decreases |a|
  {
    if a != [] {
      var n := |a| - 1;
      var x, y := a[..n], b[..n];
      LessIsNumeric(base, x, y);
      assert a == x + [a[n]] && b == y + [b[n]];
      LessAppend(x, [a[n]], y, [b[n]]);
      var v, w := Value(base, x), Value(base, y);
      if v < w {
        LeadingWins(base, v, w, a[n], b[n]);
      } else if w < v {
        LeadingWins(base, w, v, b[n], a[n]);
      }
    }
  }
}

/** Prefixed ULIDs: encoding, parsing and timestamps (pkg/ids/ids.go). */
module Ulid {
  import opened Digits
  import opened Lexicographic
  import opened Int64
  import opened Strings

  const CROCKFORD := "0123456789ABCDEFGHJKMNPQRSTVWXYZ"

  const PREFIXES: set<string> := {
    "ten", "cli", "mrc", "onb", "wfr", "wfs", "gw", "gwc", "cfv", "pay",
    "att", "ref", "rpl", "led", "whk", "evt", "aud", "rcn", "req", "crt"
  }

  // ---- five bytes as eight symbols, and back ----

  /** The eight 5-bit symbols of five bytes: the repeating block of encode. */
  function Pack(b: seq<int>): (s: seq<int>)
    requires |b| == 5
  {
    [ b[0] / 8,
      (b[0] % 8) * 4 + b[1] / 64,
      b[1] / 2 % 32,
      (b[1] % 2) * 16 + b[2] / 16,
      (b[2] % 16) * 2 + b[3] / 128,
      b[3] / 4 % 32,
      (b[3] % 4) * 8 + b[4] / 32,
      b[4] % 32 ]
  }

  function Unpack(s: seq<int>): (b: seq<int>)
    requires |s| == 8
  {
    [ s[0] * 8 + s[1] / 4,
      (s[1] % 4) * 64 + s[2] * 2 + s[3] / 16,
      (s[3] % 16) * 16 + s[4] / 2,
      (s[4] % 2) * 128 + s[5] * 4 + s[6] / 8,
      (s[6] % 8) * 32 + s[7] ]
  }

  /** Two bit fields side by side: reading each back gives what was put in. */
  lemma Fields(high: int, low: int, width: int)
    requires 0 <= low < width
    ensures (high * width + low) / width == high && (high * width + low) % width == low
  {
    QuotientUnique(high, low, width);
  }

  /** Bytes 1 and 3 of a block straddle three symbols. */
  lemma MiddleFields(high: int, middle: int, low: int, width: int)
    requires 0 <= low < width && 0 <= middle < 32
    ensures var x := (high * 32 + middle) * width + low;
      x / width / 32 == high && x / width % 32 == middle && x % width == low
  {
    Fields(high * 32 + middle, low, width);
  }

  /** The three fields of bytes 1 and 3 make up the byte. */
  lemma MiddleBytes(b: int)
    requires 0 <= b < 256
    ensures b / 64 * 64 + (b / 2 % 32) * 2 + b % 2 == b
    ensures b / 128 * 128 + (b / 4 % 32) * 4 + b % 4 == b
  {
    Regroup(b / 2, b % 2, 2);
    Regroup(b / 4, b % 4, 4);
    assert b / 2 * 2 + b % 2 == b && b / 4 * 4 + b % 4 == b;
  }

  /** Cutting a number at five bits above a low field is cutting the rest at five bits. */
  lemma Regroup(high: int, low: int, width: int)
    requires 0 <= low < width
    ensures (high * width + low) / (32 * width) == high / 32
    ensures (high / 32) * (32 * width) + (high % 32) * width == high * width
  {
    var q, r := high / 32, high % 32;
    assert (q * 32 + r) * width == q * (32 * width) + r * width;
    MulMono(r + 1, 32, width);
    MulMono(0, r, width);
    assert (r + 1) * width == r * width + width;
    QuotientUnique(q, r * width + low, 32 * width);
  }

  lemma PackInBase(b: seq<int>)
    requires |b| == 5 && InBase(256, b)
    ensures InBase(32, Pack(b))
  {
  }

  lemma PackUnpack(b: seq<int>)
    requires |b| == 5 && InBase(256, b)
    ensures InBase(32, Pack(b)) && Unpack(Pack(b)) == b
  {
    PackInBase(b);
    Fields(b[0] % 8, b[1] / 64, 4);
    Fields(b[1] % 2, b[2] / 16, 16);
    Fields(b[2] % 16, b[3] / 128, 2);
    Fields(b[3] % 4, b[4] / 32, 8);
    MiddleBytes(b[1]);
    MiddleBytes(b[3]);
  }

  lemma UnpackInBase(s: seq<int>)
    requires |s| == 8 && InBase(32, s)
    ensures InBase(256, Unpack(s))
  {
  }

  lemma UnpackPack(s: seq<int>)
    requires |s| == 8 && InBase(32, s)
    ensures InBase(256, Unpack(s)) && Pack(Unpack(s)) == s
  {
    UnpackInBase(s);
    Fields(s[0], s[1] / 4, 8);
    MiddleFields(s[1] % 4, s[2], s[3] / 16, 2);
    Fields(s[3] % 16, s[4] / 2, 16);
    MiddleFields(s[4] % 2, s[5], s[6] / 8, 4);
    Fields(s[6] % 8, s[7], 32);
  }

  lemma {:induction false} ValueOf5(base: int, s: seq<int>)
    requires |s| == 5
    ensures Value(base, s) == (((s[0] * base + s[1]) * base + s[2]) * base + s[3]) * base + s[4]
  {
    assert s[..4][..3] == s[..3] && s[..3][..2] == s[..2] && s[..2][..1] == s[..1] && s[..1][..0] == [];
    assert Value(base, s[..1]) == s[0];
    assert Value(base, s[..2]) == s[0] * base + s[1];
    assert Value(base, s[..3]) == (s[0] * base + s[1]) * base + s[2];
    assert Value(base, s[..4]) == ((s[0] * base + s[1]) * base + s[2]) * base + s[3];
  }

  lemma {:induction false} ValueOf8(s: seq<int>)
    requires |s| == 8
    ensures Value(32, s) == ((Value(32, s[..5]) * 32 + s[5]) * 32 + s[6]) * 32 + s[7]
  {
    assert s[..7][..6] == s[..6] && s[..6][..5] == s[..5];
    assert Value(32, s[..6]) == Value(32, s[..5]) * 32 + s[5];
    assert Value(32, s[..7]) == Value(32, s[..6]) * 32 + s[6];
  }

  /** Five bytes and their eight symbols denote the same 40-bit number. */
  lemma UnpackKeepsValue(s: seq<int>)
    requires |s| == 8
    ensures Value(256, Unpack(s)) == Value(32, s)
  {
    ValueOf5(256, Unpack(s));
    ValueOf8(s);
    ValueOf5(32, s[..5]);
  }

  lemma PackKeepsOrder(x: seq<int>, y: seq<int>)
    requires |x| == 5 && |y| == 5 && InBase(256, x) && InBase(256, y)
    ensures Less(Pack(x), Pack(y)) <==> Less(x, y)
    ensures Pack(x) == Pack(y) <==> x == y
  {
    PackUnpack(x);
    PackUnpack(y);
    UnpackKeepsValue(Pack(x));
    UnpackKeepsValue(Pack(y));
    LessIsNumeric(256, x, y);
    LessIsNumeric(32, Pack(x), Pack(y));
  }

  // ---- sixteen bytes as twenty-six symbols ----

  function Symbols(raw: seq<int>): (s: seq<int>)
    requires |raw| == 16
    ensures |s| == 26
  {
    [raw[0] / 32, raw[0] % 32] + Pack(raw[1..6]) + Pack(raw[6..11]) + Pack(raw[11..16])
  }

  function Bytes(s: seq<int>): (raw: seq<int>)
    requires |s| == 26
    ensures |raw| == 16
  {
    [s[0] * 32 + s[1]] + Unpack(s[2..10]) + Unpack(s[10..18]) + Unpack(s[18..26])
  }

  lemma SymbolsInBase(raw: seq<int>)
    requires |raw| == 16 && InBase(256, raw)
    ensures InBase(32, Symbols(raw)) && Symbols(raw)[0] <= 7
  {
    PackInBase(raw[1..6]);
    PackInBase(raw[6..11]);
    PackInBase(raw[11..16]);
  }

  lemma SymbolBlocks(raw: seq<int>, s: seq<int>)
    requires |raw| == 16 && s == Symbols(raw)
    ensures s[0] == raw[0] / 32 && s[1] == raw[0] % 32
    ensures s[2..10] == Pack(raw[1..6]) && s[10..18] == Pack(raw[6..11]) && s[18..26] == Pack(raw[11..16])
  {
  }

  lemma SymbolsBytes(raw: seq<int>)
    requires |raw| == 16 && InBase(256, raw)
    ensures InBase(32, Symbols(raw)) && Symbols(raw)[0] <= 7
    ensures Bytes(Symbols(raw)) == raw
  {
    SymbolsInBase(raw);
    SymbolBlocks(raw, Symbols(raw));
    PackUnpack(raw[1..6]);
    PackUnpack(raw[6..11]);
    PackUnpack(raw[11..16]);
    SixteenBytes(raw);
  }

  lemma BytesSymbols(s: seq<int>)
    requires |s| == 26 && InBase(32, s) && s[0] <= 7
    ensures InBase(256, Bytes(s)) && Symbols(Bytes(s)) == s
  {
    var raw := Bytes(s);
    UnpackPack(s[2..10]);
    UnpackPack(s[10..18]);
    UnpackPack(s[18..26]);
    assert raw[1..6] == Unpack(s[2..10]) && raw[6..11] == Unpack(s[10..18]) && raw[11..16] == Unpack(s[18..26]);
    assert s == s[..2] + s[2..10] + s[10..18] + s[18..26];
    Fields(s[0], s[1], 32);
    assert [raw[0] / 32, raw[0] % 32] == s[..2];
  }

  lemma LessOne(x: int, y: int)
    ensures Less([x], [y]) <==> x < y
  {
  }

  lemma FirstByteKeepsOrder(x: int, y: int)
    requires 0 <= x < 256 && 0 <= y < 256
    ensures Less([x / 32, x % 32], [y / 32, y % 32]) <==> Less([x], [y])
    ensures [x / 32, x % 32] == [y / 32, y % 32] <==> [x] == [y]
  {
    assert [x / 32, x % 32] == [x / 32] + [x % 32] && [y / 32, y % 32] == [y / 32] + [y % 32];
    LessAppend([x / 32], [x % 32], [y / 32], [y % 32]);
    SamePieces([x / 32], [x % 32], [y / 32], [y % 32]);
    LessOne(x / 32, y / 32);
    LessOne(x % 32, y % 32);
    LessOne(x, y);
    assert [x / 32] == [y / 32] <==> [x / 32][0] == [y / 32][0];
    assert [x % 32] == [y % 32] <==> [x % 32][0] == [y % 32][0];
    assert [x] == [y] <==> [x][0] == [y][0];
  }

  /** Two ways of writing a pair order it alike, and tell it apart alike. */
  ghost predicate SameOrder(a: seq<int>, p: seq<int>, a': seq<int>, p': seq<int>) {
    |a| == |p| && |a'| == |p'| && (Less(a, p) <==> Less(a', p')) && (a == p <==> a' == p')
  }

  lemma SameOrderAppends(
      a: seq<int>, p: seq<int>, a': seq<int>, p': seq<int>,
      b: seq<int>, q: seq<int>, b': seq<int>, q': seq<int>)
    requires SameOrder(a, p, a', p') && SameOrder(b, q, b', q')
    ensures SameOrder(a + b, p + q, a' + b', p' + q')
  {
    LessAppend(a, b, p, q);
    LessAppend(a', b', p', q');
    SamePieces(a, b, p, q);
    SamePieces(a', b', p', q');
  }

  /** Comparing symbols is comparing the sixteen bytes. */
  lemma SymbolsKeepOrder(x: seq<int>, y: seq<int>)
    requires |x| == 16 && |y| == 16 && InBase(256, x) && InBase(256, y)
    ensures SameOrder(Symbols(x), Symbols(y), x, y)
  {
    var a, b := [x[0] / 32, x[0] % 32], [y[0] / 32, y[0] % 32];
    FirstByteKeepsOrder(x[0], y[0]);
    PackKeepsOrder(x[1..6], y[1..6]);
    PackKeepsOrder(x[6..11], y[6..11]);
    PackKeepsOrder(x[11..16], y[11..16]);
    var s1, s2, s3 := Pack(x[1..6]), Pack(x[6..11]), Pack(x[11..16]);
    var t1, t2, t3 := Pack(y[1..6]), Pack(y[6..11]), Pack(y[11..16]);
    SameOrderAppends(a, b, [x[0]], [y[0]], s1, t1, x[1..6], y[1..6]);
    SameOrderAppends(a + s1, b + t1, [x[0]] + x[1..6], [y[0]] + y[1..6], s2, t2, x[6..11], y[6..11]);
    SameOrderAppends(a + s1 + s2, b + t1 + t2, [x[0]] + x[1..6] + x[6..11], [y[0]] + y[1..6] + y[6..11],
      s3, t3, x[11..16], y[11..16]);
    SixteenBytes(x);
    SixteenBytes(y);
  }

  lemma SixteenBytes(x: seq<int>)
    requires |x| == 16
    ensures x == [x[0]] + x[1..6] + x[6..11] + x[11..16]
  {
  }

  lemma SamePieces(a: seq<int>, b: seq<int>, p: seq<int>, q: seq<int>)
    requires |a| == |p|
    ensures a + b == p + q <==> a == p && b == q
  {
    assert (a + b)[..|a|] == a && (p + q)[..|p|] == p && (a + b)[|a|..] == b && (p + q)[|p|..] == q;
  }

  // ---- symbols as text ----

  function Symbol(v: int): char
    requires 0 <= v < 32
  {
    CROCKFORD[v]
  }

  /** The decode table: both cases of the alphabet, I and L as 1, O as 0, everything else 0xFF. */
  function Decode(c: char): int {
    var u := if 'a' <= c <= 'z' then c as int - 32 else c as int;
    if 48 <= u <= 57 then u - 48            // 0-9
    else if 65 <= u <= 72 then u - 55       // A-H
    else if u == 73 || u == 76 then 1       // I, L
    else if 74 <= u <= 75 then u - 56       // J, K
    else if 77 <= u <= 78 then u - 57       // M, N
    else if u == 79 then 0                  // O
    else if 80 <= u <= 84 then u - 58       // P-T
    else if 86 <= u <= 90 then u - 59       // V-Z
    else 255
  }

  /** The alphabet is ascending and the table reads it back. */
  lemma AlphabetAscends(v: int)
    requires 0 <= v < 32
    ensures Decode(Symbol(v)) == v
    ensures v < 31 ==> Symbol(v) < Symbol(v + 1)
  {
    if v < 16 {
      if v < 8 {
        assert v == 0 || v == 1 || v == 2 || v == 3 || v == 4 || v == 5 || v == 6 || v == 7;
      } else {
        assert v == 8 || v == 9 || v == 10 || v == 11 || v == 12 || v == 13 || v == 14 || v == 15;
      }
    } else if v < 24 {
      assert v == 16 || v == 17 || v == 18 || v == 19 || v == 20 || v == 21 || v == 22 || v == 23;
    } else {
      assert v == 24 || v == 25 || v == 26 || v == 27 || v == 28 || v == 29 || v == 30 || v == 31;
    }
  }

  lemma {:induction false} SymbolMonotone(v: int, w: int)
    requires 0 <= v < w < 32
    ensures Symbol(v) < Symbol(w)
    decreases w
  {
    AlphabetAscends(w - 1);
    if v < w - 1 {
      SymbolMonotone(v, w - 1);
    }
  }

  function Text(s: seq<int>): (t: string)
    requires InBase(32, s)
    ensures |t| == |s|
  {
    if s == [] then [] else [Symbol(s[0])] + Text(s[1..])
  }

  lemma {:induction false} TextKeepsOrder(s: seq<int>, t: seq<int>)
    requires |s| == |t| && InBase(32, s) && InBase(32, t)
    ensures Before(Text(s), Text(t)) <==> Less(s, t)
    ensures Text(s) == Text(t) <==> s == t
    decreases |s|
  {
    if s != [] {
      BeforeUnfolds(Text(s), Text(t));
      TextKeepsOrder(s[1..], t[1..]);
      if s[0] < t[0] {
        SymbolMonotone(s[0], t[0]);
      } else if t[0] < s[0] {
        SymbolMonotone(t[0], s[0]);
      }
      assert Text(s)[1..] == Text(s[1..]) && Text(t)[1..] == Text(t[1..]);
      assert s == [s[0]] + s[1..] && t == [t[0]] + t[1..];
    }
  }

  lemma {:induction false} TextAt(s: seq<int>, i: nat)
    requires InBase(32, s) && i < |s|
    ensures Text(s)[i] == Symbol(s[i]) && Decode(Text(s)[i]) == s[i]
    decreases i
  {
    AlphabetAscends(s[i]);
    if i > 0 {
      TextAt(s[1..], i - 1);
    }
  }

  /** encode. */
  function Encode(raw: seq<int>): string
    requires |raw| == 16 && InBase(256, raw)
  {
    SymbolsBytes(raw);
    Text(Symbols(raw))
  }

  function Id(prefix: string, raw: seq<int>): string
    requires |raw| == 16 && InBase(256, raw)
  {
    prefix + "_" + Encode(raw)
  }

  /**
   * Identifiers of one prefix compare as their sixteen bytes do, read as 128-bit big-endian numbers, and never
   * collide.
   */
  lemma IdsCompareAsNumbers(prefix: string, x: seq<int>, y: seq<int>)
    requires |x| == 16 && |y| == 16 && InBase(256, x) && InBase(256, y)
    ensures Before(Id(prefix, x), Id(prefix, y)) <==> Value(256, x) < Value(256, y)
    ensures Id(prefix, x) == Id(prefix, y) <==> x == y
  {
    SymbolsBytes(x);
    SymbolsBytes(y);
    SymbolsKeepOrder(x, y);
    TextKeepsOrder(Symbols(x), Symbols(y));
    LessIsNumeric(256, x, y);
    BeforeSamePrefix(prefix + "_", Encode(x), Encode(y));
    var n := |prefix + "_"|;
    assert Id(prefix, x)[n..] == Encode(x) && Id(prefix, y)[n..] == Encode(y);
  }

  // ---- Parse ----

  datatype ParseError = Empty | Malformed | UnknownPrefix | BadEncoding
  datatype Parsed = Accepted(id: string) | Refused(error: ParseError)

  /** strings.IndexByte(s, '_'): the first underscore, or -1. */
  function Underscore(s: string): (r: int)
    ensures -1 <= r < |s|
    ensures r >= 0 ==> s[r] == '_' && '_' !in s[..r]
    ensures r < 0 ==> '_' !in s
  {
    if s == [] then -1
    else if s[0] == '_' then 0
    else
      var rest := Underscore(s[1..]);
      assert s == [s[0]] + s[1..];
      if rest < 0 then -1 else
      assert s[..rest + 1] == [s[0]] + s[1..][..rest];
      rest + 1
  }

  const BODY := 26

  /** The body is a legal ULID: 26 symbols, the first of at most three bits. */
  predicate LegalBody(body: string) {
    |body| == BODY && Decode(body[0]) <= 7 && forall i :: 0 <= i < BODY ==> Decode(body[i]) != 255
  }

  function ParseSpec(s: string): Parsed {
    var i := Underscore(s);
    if s == "" then Refused(Empty)
    else if i <= 0 || |s| - i - 1 != BODY then Refused(Malformed)
    else if s[..i] !in PREFIXES then Refused(UnknownPrefix)
    else if !LegalBody(s[i + 1..]) then Refused(BadEncoding)
    else Accepted(s)
  }

  method Parse(s: string) returns (r: Parsed)
    ensures r == ParseSpec(s)
  {
    if s == "" { return Refused(Empty); }
    var i := Underscore(s);
    if i <= 0 || |s| - i - 1 != BODY { return Refused(Malformed); }
    if s[..i] !in PREFIXES { return Refused(UnknownPrefix); }
    var body := s[i + 1..];
    if Decode(body[0]) > 7 { return Refused(BadEncoding); }
    var j := 0;
    while j < BODY
      invariant 0 <= j <= BODY
      invariant forall k :: 0 <= k < j ==> Decode(body[k]) != 255
    {
      if Decode(body[j]) == 255 { return Refused(BadEncoding); }
      j := j + 1;
    }
    return Accepted(s);
  }

  function DecodeAll(t: string): (d: seq<int>)
    ensures |d| == |t| && forall i :: 0 <= i < |t| ==> d[i] == Decode(t[i])
  {
    seq(|t|, i requires 0 <= i < |t| => Decode(t[i]))
  }

  /** s is the prefix, an underscore, and some spelling of the symbols of those sixteen bytes. */
  ghost predicate Spells(s: string, prefix: string, raw: seq<int>)
    requires |raw| == 16
  {
    && |s| == |prefix| + 1 + BODY
    && s[..|prefix| + 1] == prefix + "_"
    && DecodeAll(s[|prefix| + 1..]) == Symbols(raw)
  }

  ghost predicate IsRaw(raw: seq<int>) {
    |raw| == 16 && InBase(256, raw)
  }

  lemma PrefixesHaveNoUnderscore(p: string)
    requires p in PREFIXES
    ensures p != "" && '_' !in p
  {
  }

  lemma UnderscoreAfterPrefix(s: string, p: string)
    requires '_' !in p && |s| > |p| && s[..|p| + 1] == p + "_"
    ensures Underscore(s) == |p| && s[..|p|] == p
  {
    assert s[..|p| + 1][..|p|] == s[..|p|] == p;
    assert s[|p|] == s[..|p| + 1][|p|] == '_';
    assert forall k :: 0 <= k < |p| ==> s[..|p|][k] in p;
    assert forall k :: 0 <= k < |p| ==> s[k] != '_' by {
      assert forall k :: 0 <= k < |p| ==> s[k] == s[..|p|][k];
    }
  }

  lemma SpelledIsAccepted(s: string, p: string, raw: seq<int>)
    requires p in PREFIXES && IsRaw(raw) && Spells(s, p, raw)
    ensures ParseSpec(s) == Accepted(s)
  {
    PrefixesHaveNoUnderscore(p);
    UnderscoreAfterPrefix(s, p);
    SymbolsBytes(raw);
    var body := s[|p| + 1..];
    assert forall i :: 0 <= i < BODY ==> Decode(body[i]) == DecodeAll(body)[i];
  }

  lemma LegalBodySpells(body: string) returns (raw: seq<int>)
    requires LegalBody(body)
    ensures IsRaw(raw) && Symbols(raw) == DecodeAll(body)
  {
    var digits := DecodeAll(body);
    assert InBase(32, digits);
    BytesSymbols(digits);
    raw := Bytes(digits);
  }

  lemma LegalTextSpells(s: string, i: nat) returns (raw: seq<int>)
    requires i < |s| && s[i] == '_' && LegalBody(s[i + 1..])
    ensures IsRaw(raw) && Spells(s, s[..i], raw)
  {
    raw := LegalBodySpells(s[i + 1..]);
    assert s[..i + 1] == s[..i] + "_";
  }

  lemma AcceptedIsSpelled(s: string) returns (raw: seq<int>)
    requires ParseSpec(s).Accepted?
    ensures IsRaw(raw) && s[..Underscore(s)] in PREFIXES && Spells(s, s[..Underscore(s)], raw)
  {
    raw := LegalTextSpells(s, Underscore(s));
  }

  /** Parse accepts exactly the spellings of a registered prefix and sixteen bytes. */
  lemma ParseAcceptsIff(s: string)
    ensures ParseSpec(s).Accepted? <==> exists p, raw :: p in PREFIXES && IsRaw(raw) && Spells(s, p, raw)
  {
    if ParseSpec(s).Accepted? {
      var raw := AcceptedIsSpelled(s);
    } else if p, raw :| p in PREFIXES && IsRaw(raw) && Spells(s, p, raw) {
      SpelledIsAccepted(s, p, raw);
      assert false;
    }
  }

  lemma EmittedIsSpelled(p: string, raw: seq<int>)
    requires IsRaw(raw)
    ensures Spells(Id(p, raw), p, raw)
  {
    var id := Id(p, raw);
    SymbolsBytes(raw);
    assert id[..|p| + 1] == p + "_" && id[|p| + 1..] == Encode(raw);
    forall i | 0 <= i < BODY ensures Decode(Encode(raw)[i]) == Symbols(raw)[i] {
      TextAt(Symbols(raw), i);
    }
  }

  /** Parse takes back every identifier the generator emits. */
  lemma EmittedIsAccepted(p: string, raw: seq<int>)
    requires p in PREFIXES && IsRaw(raw)
    ensures ParseSpec(Id(p, raw)) == Accepted(Id(p, raw))
  {
    EmittedIsSpelled(p, raw);
    SpelledIsAccepted(Id(p, raw), p, raw);
  }

  // ---- timestamps ----

  datatype Stamp = NoTime | Millis(ms: int)

  /** The number spelled by the first ten symbols of the body, unless one of them is not a symbol. */
  function TimeSpec(id: string): Stamp {
    var i := Underscore(id);
    if i <= 0 || |id| - i - 1 != BODY then NoTime
    else
      var digits := DecodeAll(id[i + 1..])[..10];
      if 255 in digits then NoTime else Millis(Value(32, digits))
  }

  method TimeOf(id: string) returns (t: Stamp)
    ensures t == TimeSpec(id)
  {
    var i := Underscore(id);
    if i <= 0 || |id| - i - 1 != BODY { return NoTime; }
    var body := id[i + 1..];
    var digits := DecodeAll(body);
    var ms, j := 0, 0;
    while j < 10
      invariant 0 <= j <= 10
      invariant 255 !in digits[..j] && ms == Value(32, digits[..j])
    {
      var v := Decode(body[j]);
      if v == 255 {
        assert digits[..10][j] == 255;
        return NoTime;
      }
      assert digits[..j + 1][..j] == digits[..j];
      ms := ms * 32 + v;
      j := j + 1;
    }
    return Millis(ms);
  }

  lemma ValueAppend(base: int, s: seq<int>, d: int)
    ensures Value(base, s + [d]) == Value(base, s) * base + d
  {
  }

  lemma FirstByteValue(x: int)
    ensures Value(32, [x / 32, x % 32]) == x && Value(256, [x]) == x
  {
    assert [x / 32, x % 32] == [] + [x / 32] + [x % 32] && [x] == [] + [x];
    ValueAppend(32, [], x / 32);
    ValueAppend(32, [] + [x / 32], x % 32);
    ValueAppend(256, [], x);
  }

  /** A block of five bytes after one more byte, and its ten symbols, denote the same 48-bit number. */
  lemma StampSymbols(raw: seq<int>)
    requires IsRaw(raw)
    ensures Value(32, Symbols(raw)[..10]) == Value(256, raw[..6])
  {
    var s, b, high := Pack(raw[1..6]), raw[1..6], [raw[0] / 32, raw[0] % 32];
    PackUnpack(b);
    UnpackKeepsValue(s);
    FirstByteValue(raw[0]);
    assert Symbols(raw)[..10] == high + s && raw[..6] == [raw[0]] + b;
    BlockValue(32, high, s);
    BlockValue(256, [raw[0]], b);
    PowOf32();
    PowOf256();
  }

  function Pow(base: int, n: nat): int {
    if n == 0 then 1 else Pow(base, n - 1) * base
  }

  lemma PowOf32()
    ensures Pow(32, 8) == 0x100_0000_0000
  {
  }

  lemma PowOf256()
    ensures Pow(256, 5) == 0x100_0000_0000 && Pow(256, 6) == 0x1_0000_0000_0000
  {
  }

  lemma {:induction false} BlockValue(base: int, a: seq<int>, b: seq<int>)
    ensures Value(base, a + b) == Value(base, a) * Pow(base, |b|) + Value(base, b)
    decreases |b|
  {
    if b == [] {
      assert a + b == a;
    } else {
      var n := |b| - 1;
      BlockValue(base, a, b[..n]);
      assert b == b[..n] + [b[n]];
      BlockGrows(base, a, b[..n], b[n]);
    }
  }

  lemma BlockGrows(base: int, a: seq<int>, b: seq<int>, d: int)
    requires Value(base, a + b) == Value(base, a) * Pow(base, |b|) + Value(base, b)
    ensures Value(base, a + (b + [d])) == Value(base, a) * Pow(base, |b| + 1) + Value(base, b + [d])
  {
    assert a + (b + [d]) == a + b + [d];
    ValueAppend(base, a + b, d);
    ValueAppend(base, b, d);
    BlockArithmetic(Value(base, a), Pow(base, |b|), base, Value(base, b), d, Value(base, a + b), Pow(base, |b| + 1));
  }

  lemma BlockArithmetic(v: int, p: int, base: int, w: int, d: int, whole: int, pow: int)
    requires whole == v * p + w && pow == p * base
    ensures whole * base + d == v * pow + (w * base + d)
  {
    assert v * (p * base) == v * p * base;
    assert (v * p + w) * base == v * p * base + w * base;
  }

  /** TimeOf reads back exactly the 48-bit stamp the first six bytes hold, however the identifier is spelled. */
  lemma TimeOfSpelled(s: string, p: string, raw: seq<int>)
    requires p in PREFIXES && IsRaw(raw) && Spells(s, p, raw)
    ensures TimeSpec(s) == Millis(Value(256, raw[..6]))
  {
    PrefixesHaveNoUnderscore(p);
    UnderscoreAfterPrefix(s, p);
    SymbolsBytes(raw);
    StampSymbols(raw);
    assert forall k :: 0 <= k < 10 ==> Symbols(raw)[..10][k] != 255;
  }
}
