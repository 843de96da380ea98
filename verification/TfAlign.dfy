/**
 * The Terraform formatter (terraform/scripts/tfalign.py): aligns the "=" of consecutive attribute lines.
 * Lines are strings of Unicode characters; a text is split and joined on the newline character.
 */
module TfAlignSyntax {
  import opened Options

  /** str.isspace, which is also what \s matches in a string pattern. */
  predicate IsSpace(c: char) {
    var u := c as int;
    || 0x09 <= u <= 0x0D || 0x1C <= u <= 0x20 || u == 0x85 || u == 0xA0 || u == 0x1680
    || 0x2000 <= u <= 0x200A || u == 0x2028 || u == 0x2029 || u == 0x202F || u == 0x205F || u == 0x3000
  }

  predicate IsWordStart(c: char) {
    'A' <= c <= 'Z' || 'a' <= c <= 'z' || c == '_'
  }

  predicate IsTagPart(c: char) {
    IsWordStart(c) || '0' <= c <= '9'
  }

  predicate IsNamePart(c: char) {
    IsTagPart(c) || c == '-'
  }

  /** The end of the longest stretch from i on whose characters all satisfy p. */
  function Skip(s: string, i: nat, p: char -> bool): (e: nat)
    requires i <= |s|
    ensures i <= e <= |s|
    ensures forall k :: i <= k < e ==> p(s[k])
    ensures e < |s| ==> !p(s[e])
    decreases |s| - i
  {
    if i < |s| && p(s[i]) then Skip(s, i + 1, p) else i
  }

  /** The three parts of an attribute line that matter. */
  datatype Attr = Attr(indent: string, name: string, value: string)

  /** The ATTR pattern, matched the way a backtracking matcher does. */
  function ParseAttr(line: string): Option<Attr> {
    var a := Skip(line, 0, IsSpace);
    var b := Skip(line, a, IsNamePart);
    var c := Skip(line, b, IsSpace);
    if a == |line| || !IsWordStart(line[a]) || c == |line| || line[c] != '=' then None
    else
      var d := Skip(line, c + 1, IsSpace);
      if d == |line| then None else Some(Attr(line[..a], line[a..b], line[d..]))
  }

  ghost predicate All(s: string, p: char -> bool) {
    forall k :: 0 <= k < |s| ==> p(s[k])
  }

  /** What may be the parts of an attribute line. */
  ghost predicate IsAttr(t: Attr) {
    && All(t.indent, IsSpace)
    && |t.name| > 0 && IsWordStart(t.name[0]) && All(t.name, IsNamePart)
    && |t.value| > 0 && !IsSpace(t.value[0])
  }

  /** The line is indent, name, blanks, "=", blanks, value. */
  ghost predicate Reads(line: string, t: Attr, gap: string, lead: string) {
    IsAttr(t) && All(gap, IsSpace) && All(lead, IsSpace) && line == t.indent + t.name + gap + "=" + lead + t.value
  }

  /** Where a stretch is known to end, Skip ends there. */
  lemma {:induction false} SkipTo(s: string, i: nat, e: nat, p: char -> bool)
    requires i <= e <= |s|
    requires forall k :: i <= k < e ==> p(s[k])
    requires e < |s| ==> !p(s[e])
    ensures Skip(s, i, p) == e
    decreases e - i
  {
  }

  /** Cutting a line after its parts gives the parts. */
  lemma Cut(line: string, x: string, y: string, z: string, u: string, v: string)
    requires line == x + y + z + "=" + u + v
    ensures var a := |x|; var b := a + |y|; var c := b + |z|; var d := c + 1 + |u|;
      && line[..a] == x && line[a..b] == y && line[b..c] == z && line[c] == '=' && line[c + 1..d] == u && line[d..] == v
  {
  }

  lemma SkipPart(line: string, i: nat, e: nat, part: string, p: char -> bool)
    requires i <= e <= |line| && line[i..e] == part && All(part, p) && (e < |line| ==> !p(line[e]))
    ensures Skip(line, i, p) == e
  {
    assert forall k :: i <= k < e ==> line[k] == part[k - i];
    SkipTo(line, i, e, p);
  }

  /** The four stretches of the pattern end where the parts end. */
  lemma SkipsFit(line: string, t: Attr, gap: string, lead: string, a: nat, b: nat, c: nat, d: nat)
    requires IsAttr(t) && All(gap, IsSpace) && All(lead, IsSpace)
    requires a < b <= c < d < |line| && line[c] == '='
    requires line[..a] == t.indent && line[a..b] == t.name && line[b..c] == gap
    requires line[c + 1..d] == lead && line[d..] == t.value
    ensures Skip(line, 0, IsSpace) == a && Skip(line, a, IsNamePart) == b
    ensures Skip(line, b, IsSpace) == c && Skip(line, c + 1, IsSpace) == d
  {
    assert line[0..a] == line[..a];
    assert line[a] == t.name[0];
    assert line[d] == t.value[0];
    assert b < c ==> line[b] == gap[0];
    SkipPart(line, 0, a, t.indent, IsSpace);
    SkipPart(line, a, b, t.name, IsNamePart);
    SkipPart(line, b, c, gap, IsSpace);
    SkipPart(line, c + 1, d, lead, IsSpace);
  }

  /** An attribute line reads one way only, whatever the blanks. */
  lemma ReadsOneWay(line: string, t: Attr, gap: string, lead: string)
    requires Reads(line, t, gap, lead)
    ensures ParseAttr(line) == Some(t)
  {
    Cut(line, t.indent, t.name, gap, lead, t.value);
    var a := |t.indent|;
    var b := a + |t.name|;
    var c := b + |gap|;
    var d := c + 1 + |lead|;
    SkipsFit(line, t, gap, lead, a, b, c, d);
    assert line[a] == t.name[0];
  }

  lemma Join(line: string, a: nat, b: nat, c: nat, d: nat)
    requires a <= b <= c < d <= |line|
    ensures line == line[..a] + line[a..b] + line[b..c] + [line[c]] + line[c + 1..d] + line[d..]
  {
  }

  lemma PartOf(line: string, i: nat, p: char -> bool)
    requires i <= |line|
    ensures All(line[i..Skip(line, i, p)], p)
  {
  }

  /** The pattern matches only lines that read as an attribute. */
  lemma ParsedReads(line: string) returns (gap: string, lead: string)
    requires ParseAttr(line).Some?
    ensures Reads(line, ParseAttr(line).value, gap, lead)
  {
    var a := Skip(line, 0, IsSpace);
    var b := Skip(line, a, IsNamePart);
    var c := Skip(line, b, IsSpace);
    var d := Skip(line, c + 1, IsSpace);
    gap, lead := line[b..c], line[c + 1..d];
    Join(line, a, b, c, d);
    PartOf(line, 0, IsSpace);
    PartOf(line, a, IsNamePart);
    PartOf(line, b, IsSpace);
    PartOf(line, c + 1, IsSpace);
    assert line[0..a] == line[..a];
  }

  /** The pattern matches exactly those, and takes them apart in the one way there is. */
  lemma ParsesIff(line: string, t: Attr)
    ensures ParseAttr(line) == Some(t) <==> exists gap, lead :: Reads(line, t, gap, lead)
  {
    if ParseAttr(line) == Some(t) {
      var gap, lead := ParsedReads(line);
    } else if gap, lead :| Reads(line, t, gap, lead) {
      ReadsOneWay(line, t, gap, lead);
      assert false;
    }
  }

  // ---- heredoc openings ----

  /** HEREDOC_START matching at p: "<<", an optional mark, an identifier, and blanks to the end. */
  function TagAt(value: string, p: nat): Option<string>
    requires p <= |value|
  {
    if p + 2 > |value| || value[p] != '<' || value[p + 1] != '<' then None
    else
      var q := if p + 2 < |value| && (value[p + 2] == '-' || value[p + 2] == '~') then p + 3 else p + 2;
      var e := Skip(value, q, IsTagPart);
      if e == q || !IsWordStart(value[q]) || Skip(value, e, IsSpace) < |value| then None else Some(value[q..e])
  }

  function SearchTag(value: string, p: nat): Option<string>
    requires p <= |value|
    decreases |value| - p
  {
    if TagAt(value, p).Some? then TagAt(value, p)
    else if p == |value| then None
    else SearchTag(value, p + 1)
  }

  function HeredocTag(value: string): Option<string> {
    SearchTag(value, 0)
  }

  ghost predicate IsTag(tag: string) {
    tag != "" && IsWordStart(tag[0]) && All(tag, IsTagPart)
  }

  /** The value ends in "<<", an optional mark, the tag, and blanks. */
  ghost predicate OpensWith(value: string, before: string, mark: string, tag: string, blanks: string) {
    && value == before + "<<" + mark + tag + blanks
    && mark in {"", "-", "~"} && IsTag(tag) && All(blanks, IsSpace)
  }

  /** Where the pattern matches, nothing after its two brackets is one. */
  lemma NoBracketAfter(value: string, p: nat, k: nat)
    requires p <= |value| && TagAt(value, p).Some? && p + 2 <= k < |value|
    ensures value[k] != '<'
  {
    var q := if value[p + 2] == '-' || value[p + 2] == '~' then p + 3 else p + 2;
    var e := Skip(value, q, IsTagPart);
    var f := Skip(value, e, IsSpace);
    PartOf(value, q, IsTagPart);
    PartOf(value, e, IsSpace);
    if q <= k < e {
      assert value[k] == value[q..e][k - q];
    } else if e <= k {
      assert value[k] == value[e..f][k - e];
    }
  }

  lemma {:induction false} SearchFinds(value: string, from: nat, p: nat)
    requires from <= p <= |value| && TagAt(value, p).Some?
    requires forall k :: from <= k < p ==> TagAt(value, k).None?
    ensures SearchTag(value, from) == TagAt(value, p)
    decreases p - from
  {
    if from < p {
      SearchFinds(value, from + 1, p);
    }
  }

  lemma {:induction false} SearchFound(value: string, from: nat) returns (p: nat)
    requires from <= |value| && SearchTag(value, from).Some?
    ensures from <= p <= |value| && TagAt(value, p) == SearchTag(value, from)
    decreases |value| - from
  {
    p := from;
    if TagAt(value, from).None? {
      p := SearchFound(value, from + 1);
    }
  }

  lemma CutOpening(value: string, before: string, mark: string, tag: string, blanks: string)
    requires value == before + "<<" + mark + tag + blanks
    ensures var p := |before|; var q := p + 2 + |mark|; var e := q + |tag|;
      && e <= |value| && value[p] == '<' && value[p + 1] == '<'
      && value[p + 2..q] == mark && value[q..e] == tag && value[e..|value|] == blanks
  {
  }

  /** Past the brackets and the mark, the stretches of the pattern are the tag and the blanks. */
  lemma TagEnds(value: string, q: nat, e: nat)
    requires q < e <= |value| && IsTag(value[q..e]) && All(value[e..|value|], IsSpace)
    ensures Skip(value, q, IsTagPart) == e && Skip(value, e, IsSpace) == |value| && IsWordStart(value[q])
  {
    assert value[q] == value[q..e][0];
    assert e < |value| ==> value[e] == value[e..|value|][0];
    SkipPart(value, q, e, value[q..e], IsTagPart);
    SkipPart(value, e, |value|, value[e..|value|], IsSpace);
  }

  lemma OpeningIsFound(value: string, before: string, mark: string, tag: string, blanks: string)
    requires OpensWith(value, before, mark, tag, blanks)
    ensures TagAt(value, |before|) == Some(tag)
    ensures value[|before|] == '<' && value[|before| + 1] == '<'
  {
    var p := |before|;
    var q := p + 2 + |mark|;
    CutOpening(value, before, mark, tag, blanks);
    TagEnds(value, q, q + |tag|);
    assert mark != "" ==> value[p + 2] == value[p + 2..q][0];
  }

  lemma JoinOpening(value: string, p: nat, q: nat, e: nat)
    requires p + 2 <= q <= e <= |value| && value[p] == '<' && value[p + 1] == '<'
    ensures value == value[..p] + "<<" + value[p + 2..q] + value[q..e] + value[e..]
  {
  }

  lemma FoundOpens(value: string, p: nat) returns (mark: string, blanks: string)
    requires p <= |value| && TagAt(value, p).Some?
    ensures OpensWith(value, value[..p], mark, TagAt(value, p).value, blanks)
  {
    var q := if p + 2 < |value| && (value[p + 2] == '-' || value[p + 2] == '~') then p + 3 else p + 2;
    var e := Skip(value, q, IsTagPart);
    mark, blanks := value[p + 2..q], value[e..];
    PartOf(value, q, IsTagPart);
    PartOf(value, e, IsSpace);
    assert value[e..|value|] == value[e..];
    JoinOpening(value, p, q, e);
    assert q == p + 3 ==> mark == [value[p + 2]];
  }

  /** The search finds a tag exactly in the values that end in an opening, and finds the one tag of that opening. */
  lemma HeredocTagIff(value: string, tag: string)
    ensures HeredocTag(value) == Some(tag) <==>
      exists before, mark, blanks :: OpensWith(value, before, mark, tag, blanks)
  {
    if HeredocTag(value) == Some(tag) {
      var p := SearchFound(value, 0);
      var mark, blanks := FoundOpens(value, p);
    }
    forall before, mark, blanks | OpensWith(value, before, mark, tag, blanks)
      ensures HeredocTag(value) == Some(tag)
    {
      OpeningIsFound(value, before, mark, tag, blanks);
      var p := |before|;
      forall k | 0 <= k < p ensures TagAt(value, k).None? {
        if TagAt(value, k).Some? {
          NoBracketAfter(value, k, p + 1);
        }
      }
      SearchFinds(value, 0, p);
    }
  }

  // ---- bracket depth ----

  datatype Mode = Code | Quoted | Escaped | Comment

  /** One character of HCL: brackets count in code only, a quote ends unless escaped, a comment runs to the end. */
  function Advance(m: Mode, c: char, following: Option<char>): Mode {
    match m
    case Code =>
      if c == '#' || (c == '/' && following == Some('/')) then Comment
      else if c == '"' then Quoted
      else Code
    case Quoted => if c == '\\' then Escaped else if c == '"' then Code else Quoted
    case Escaped => Quoted
    case Comment => Comment
  }

  function Weight(m: Mode, c: char): int {
    if m != Code then 0
    else if c in "{[(" then 1
    else if c in "}])" then -1
    else 0
  }

  function Following(s: string, i: nat): Option<char> {
    if i + 1 < |s| then Some(s[i + 1]) else None
  }

  /** The mode and depth after the first n characters. */
  function Scan(s: string, n: nat): (Mode, int)
    requires n <= |s|
  {
    if n == 0 then (Code, 0)
    else
      var before := Scan(s, n - 1);
      (Advance(before.0, s[n - 1], Following(s, n - 1)), before.1 + Weight(before.0, s[n - 1]))
  }

  function Depth(s: string): int {
    Scan(s, |s|).1
  }

  lemma {:induction false} CommentStays(s: string, i: nat, n: nat)
    requires i <= n <= |s| && Scan(s, i).0 == Comment
    ensures Scan(s, n) == Scan(s, i)
    decreases n - i
  {
    if i < n {
      CommentStays(s, i, n - 1);
    }
  }

  // ---- what the depth counts ----

  /** A value as it is written: texts and quoted strings in turn, with a comment or an open quote at the end perhaps. */
  datatype Spelling =
    | Bare(text: string)
    | Remarked(text: string, comment: string)
    | Unclosed(text: string, body: string)
    | Spliced(text: string, body: string, rest: Spelling)

  function Render(v: Spelling): string {
    match v
    case Bare(text) => text
    case Remarked(text, comment) => text + comment
    case Unclosed(text, body) => text + "\"" + body
    case Spliced(text, body, rest) => text + "\"" + body + "\"" + Render(rest)
  }

  /** A quote or a comment starts at k. */
  predicate OpensAt(s: string, k: nat)
    requires k < |s|
  {
    s[k] == '"' || s[k] == '#' || (s[k] == '/' && k + 1 < |s| && s[k + 1] == '/')
  }

  predicate IsText(t: string) {
    forall k :: 0 <= k < |t| ==> !OpensAt(t, k)
  }

  predicate IsComment(c: string) {
    "#" <= c || "//" <= c
  }

  /** Within quotes: a backslash goes with the character after it, and no other quote stands there. */
  predicate IsBody(b: string) {
    b == [] || (if b[0] == '\\' then |b| > 1 && IsBody(b[2..]) else b[0] != '"' && IsBody(b[1..]))
  }

  /** The same, but the end may come right after a backslash. */
  predicate IsOpenBody(b: string) {
    b == [] || (if b[0] == '\\' then |b| == 1 || IsOpenBody(b[2..]) else b[0] != '"' && IsOpenBody(b[1..]))
  }

  predicate IsSpelling(v: Spelling) {
    IsText(v.text) &&
    match v
    case Bare(_) => true
    case Remarked(_, comment) => IsComment(comment)
    case Unclosed(_, body) => IsOpenBody(body)
    case Spliced(_, body, rest) => IsBody(body) && IsSpelling(rest)
  }

  /** How many characters of t are among cs. */
  function Count(t: string, cs: string): nat {
    if t == [] then 0 else Count(t[..|t| - 1], cs) + if t[|t| - 1] in cs then 1 else 0
  }

  function Net(t: string): int {
    Count(t, "{[(") - Count(t, "}])")
  }

  /** The brackets of the texts alone. */
  function NetOutside(v: Spelling): int {
    Net(v.text) + if v.Spliced? then NetOutside(v.rest) else 0
  }

  lemma NetGrows(t: string, c: char)
    ensures Net(t + [c]) == Net(t) + Weight(Code, c)
  {
    assert (t + [c])[..|t|] == t;
  }

  lemma TextStep(s: string, j: nat, d: int)
    requires j < |s| && Scan(s, j) == (Code, d) && !OpensAt(s, j)
    ensures Scan(s, j + 1) == (Code, d + Weight(Code, s[j]))
  {
  }

  lemma {:induction false} TextScan(s: string, i: nat, j: nat, d: int)
    requires i <= j <= |s| && Scan(s, i) == (Code, d)
    requires forall k :: i <= k < j ==> !OpensAt(s, k)
    ensures Scan(s, j) == (Code, d + Net(s[i..j]))
    decreases j
  {
    if i < j {
      TextScan(s, i, j - 1, d);
      TextStep(s, j - 1, d + Net(s[i..j - 1]));
      assert s[i..j] == s[i..j - 1] + [s[j - 1]];
      NetGrows(s[i..j - 1], s[j - 1]);
    }
  }

  lemma {:induction false} BodyScan(s: string, i: nat, j: nat, d: int)
    requires i <= j <= |s| && Scan(s, i) == (Quoted, d) && IsBody(s[i..j])
    ensures Scan(s, j) == (Quoted, d)
    decreases j - i
  {
    if i < j {
      var step := if s[i] == '\\' then 2 else 1;
      assert s[i..j][step..] == s[i + step..j];
      assert Scan(s, i + 1).1 == d;
      BodyScan(s, i + step, j, d);
    }
  }

  lemma {:induction false} OpenBodyScan(s: string, i: nat, d: int)
    requires i <= |s| && Scan(s, i) == (Quoted, d) && IsOpenBody(s[i..])
    ensures Depth(s) == d
    decreases |s| - i
  {
    if i < |s| {
      var step := if s[i] == '\\' then 2 else 1;
      assert Scan(s, i + 1).1 == d;
      if i + step <= |s| {
        assert s[i..][step..] == s[i + step..];
        OpenBodyScan(s, i + step, d);
      }
    }
  }

  lemma Part(s: string, i: nat, part: string, more: string)
    requires i <= |s| && s[i..] == part + more
    ensures var j := i + |part|; j <= |s| && s[i..j] == part && s[j..] == more
  {
    assert s[i..][..|part|] == part && s[i..][|part|..] == more;
  }

  /** Nothing starts within a text, unless its last slash and a slash after it are a comment. */
  lemma TextOpens(s: string, i: nat, j: nat, k: nat)
    requires i <= k < j <= |s| && IsText(s[i..j])
    ensures OpensAt(s, k) ==> k == j - 1 && j < |s| && s[k] == '/' && s[j] == '/'
  {
    assert !OpensAt(s[i..j], k - i);
    assert k + 1 < j ==> s[i..j][k - i + 1] == s[k + 1];
  }

  lemma TextBefore(s: string, i: nat, j: nat, d: int)
    requires i <= j <= |s| && Scan(s, i) == (Code, d) && IsText(s[i..j]) && (j < |s| ==> s[j] != '/')
    ensures Scan(s, j) == (Code, d + Net(s[i..j]))
  {
    forall k | i <= k < j
      ensures !OpensAt(s, k)
    {
      TextOpens(s, i, j, k);
    }
    TextScan(s, i, j, d);
  }

  /** The text before a comment counts in full, even if its last slash already opens the comment. */
  lemma CommentScan(s: string, i: nat, j: nat, d: int)
    requires i <= j < |s| && Scan(s, i) == (Code, d) && IsText(s[i..j]) && OpensAt(s, j) && s[j] != '"'
    ensures Depth(s) == d + Net(s[i..j])
  {
    var e := if i < j && OpensAt(s, j - 1) then j - 1 else j;
    forall k | i <= k < e
      ensures !OpensAt(s, k)
    {
      TextOpens(s, i, j, k);
    }
    TextScan(s, i, e, d);
    if e < j {
      TextOpens(s, i, j, e);
      assert s[i..j] == s[i..e] + [s[e]];
      NetGrows(s[i..e], s[e]);
    }
    CommentStays(s, e + 1, |s|);
  }

  lemma SplicedParts(s: string, i: nat, text: string, body: string, rest: string)
    requires i <= |s| && s[i..] == text + "\"" + body + "\"" + rest
    ensures var j := i + |text|; var e := j + 1 + |body|;
      e < |s| && s[i..j] == text && s[j] == '"' && s[j + 1..e] == body && s[e] == '"' && s[e + 1..] == rest
  {
    var j := i + |text|;
    var e := j + 1 + |body|;
    assert s[i..] == text + ("\"" + (body + ("\"" + rest)));
    Part(s, i, text, "\"" + (body + ("\"" + rest)));
    Part(s, j, "\"", body + ("\"" + rest));
    Part(s, j + 1, body, "\"" + rest);
    Part(s, e, "\"", rest);
    assert s[j..j + 1][0] == '"' && s[e..e + 1][0] == '"';
  }

  lemma BareScan(s: string, i: nat, text: string, d: int)
    requires i <= |s| && Scan(s, i) == (Code, d) && s[i..] == text && IsText(text)
    ensures Depth(s) == d + Net(text)
  {
    assert s[i..|s|] == text;
    TextBefore(s, i, |s|, d);
  }

  lemma RemarkedScan(s: string, i: nat, text: string, comment: string, d: int)
    requires i <= |s| && Scan(s, i) == (Code, d) && s[i..] == text + comment && IsText(text) && IsComment(comment)
    ensures Depth(s) == d + Net(text)
  {
    var j := i + |text|;
    Part(s, i, text, comment);
    assert s[j..][0] == comment[0] && (|comment| > 1 ==> s[j..][1] == comment[1]);
    CommentScan(s, i, j, d);
  }

  lemma UnclosedParts(s: string, i: nat, text: string, body: string)
    requires i <= |s| && s[i..] == text + "\"" + body
    ensures var j := i + |text|; j < |s| && s[i..j] == text && s[j] == '"' && s[j + 1..] == body
  {
    var j := i + |text|;
    assert s[i..] == text + ("\"" + body);
    Part(s, i, text, "\"" + body);
    Part(s, j, "\"", body);
    assert s[j..j + 1][0] == '"';
  }

  lemma UnclosedScan(s: string, i: nat, text: string, body: string, d: int)
    requires i <= |s| && Scan(s, i) == (Code, d) && s[i..] == text + "\"" + body && IsText(text) && IsOpenBody(body)
    ensures Depth(s) == d + Net(text)
  {
    var j := i + |text|;
    UnclosedParts(s, i, text, body);
    TextBefore(s, i, j, d);
    OpenBodyScan(s, j + 1, d + Net(text));
  }

  lemma SplicedScan(s: string, i: nat, text: string, body: string, rest: string, d: int)
    requires i <= |s| && Scan(s, i) == (Code, d) && s[i..] == text + "\"" + body + "\"" + rest
    requires IsText(text) && IsBody(body)
    ensures var e := i + |text| + |body| + 2; e <= |s| && s[e..] == rest && Scan(s, e) == (Code, d + Net(text))
  {
    var j := i + |text|;
    SplicedParts(s, i, text, body, rest);
    TextBefore(s, i, j, d);
    BodyScan(s, j + 1, j + 1 + |body|, d + Net(text));
  }

  lemma {:induction false} SpellingScan(s: string, i: nat, v: Spelling, d: int)
    requires i <= |s| && Scan(s, i) == (Code, d) && s[i..] == Render(v) && IsSpelling(v)
    ensures Depth(s) == d + NetOutside(v)
    decreases v
  {
    match v
    case Bare(text) => BareScan(s, i, text, d);
    case Remarked(text, comment) => RemarkedScan(s, i, text, comment, d);
    case Unclosed(text, body) => UnclosedScan(s, i, text, body, d);
    case Spliced(text, body, rest) =>
      SplicedScan(s, i, text, body, Render(rest), d);
      SpellingScan(s, i + |text| + |body| + 2, rest, d + Net(text));
  }

  /** The depth of a value counts the brackets that stand outside strings and comments, and no others. */
  lemma DepthCounts(v: Spelling)
    requires IsSpelling(v)
    ensures Depth(Render(v)) == NetOutside(v)
  {
    SpellingScan(Render(v), 0, v, 0);
  }

  // ---- every value is written in some way ----

  /** Where the text at the front of s ends. */
  function TextEnd(s: string, k: nat): (e: nat)
    requires k <= |s|
    ensures k <= e <= |s|
    ensures forall j :: k <= j < e ==> !OpensAt(s, j)
    ensures e < |s| ==> OpensAt(s, e)
    decreases |s| - k
  {
    if k == |s| || OpensAt(s, k) then k else TextEnd(s, k + 1)
  }

  /** Where the string body at the front of s ends: at a quote, or nowhere. */
  function BodyEnd(s: string): (e: nat)
    ensures e < |s| ==> s[e] == '"' && IsBody(s[..e])
    ensures e >= |s| ==> IsOpenBody(s)
  {
    if s == [] || s[0] == '"' then 0
    else
      var step := if s[0] == '\\' then 2 else 1;
      if |s| < step then 2 else
      var e := BodyEnd(s[step..]);
      assert step + e < |s| ==> s[..step + e][step..] == s[step..][..e];
      step + e
  }

  lemma TextAtFront(s: string, e: nat)
    requires e <= |s| && forall k :: 0 <= k < e ==> !OpensAt(s, k)
    ensures IsText(s[..e])
  {
    forall k | 0 <= k < e
      ensures !OpensAt(s[..e], k)
    {
      assert !OpensAt(s, k);
    }
  }

  lemma Rejoined(s: string, e: nat, n: nat)
    requires e + 1 + n < |s| && s[e] == '"' && s[e + 1 + n] == '"'
    ensures s == s[..e] + "\"" + s[e + 1..][..n] + "\"" + s[e + n + 2..]
  {
  }

  lemma {:induction false} EveryValueIsSpelled(s: string) returns (v: Spelling)
    ensures IsSpelling(v) && Render(v) == s
    decreases |s|
  {
    var e := TextEnd(s, 0);
    TextAtFront(s, e);
    if e == |s| {
      v := Bare(s[..e]);
    } else if s[e] != '"' {
      v := Remarked(s[..e], s[e..]);
    } else {
      var n := BodyEnd(s[e + 1..]);
      if e + 1 + n >= |s| {
        v := Unclosed(s[..e], s[e + 1..]);
      } else {
        var rest := EveryValueIsSpelled(s[e + n + 2..]);
        Rejoined(s, e, n);
        v := Spliced(s[..e], s[e + 1..][..n], rest);
      }
    }
  }

  /** bracket_delta: the index-driven scan computes the depth the automaton defines. */
  method BracketDelta(value: string) returns (depth: int)
    ensures depth == Depth(value)
  {
    depth := 0;
    var i, n := 0, |value|;
    while i < n
      invariant 0 <= i
      invariant i <= n ==> Scan(value, i) == (Code, depth)
      invariant i > n ==> depth == Depth(value)
    {
      var c := value[i];
      if c == '#' || (c == '/' && i + 1 < n && value[i + 1] == '/') {
        CommentStays(value, i + 1, n);
        break;
      }
      if c == '"' {
        i := SkipQuoted(value, i + 1, depth);
      } else if c in "{[(" {
        depth := depth + 1;
      } else if c in "}])" {
        depth := depth - 1;
      }
      i := i + 1;
    }
  }

  /** The inner loop: from after an opening quote to its closing quote, or past the end. */
  method SkipQuoted(value: string, start: nat, ghost depth: int) returns (i: nat)
    requires start <= |value| && Scan(value, start) == (Quoted, depth)
    ensures i < |value| ==> Scan(value, i + 1) == (Code, depth)
    ensures i >= |value| ==> Depth(value) == depth
    ensures i >= start
  {
    i := start;
    while i < |value|
      invariant start <= i
      invariant i <= |value| ==> Scan(value, i) == (Quoted, depth)
      invariant i > |value| ==> Depth(value) == depth
    {
      if value[i] == '\\' {
        assert Scan(value, i + 1) == (Escaped, depth);
        i := i + 2;
      } else if value[i] == '"' {
        break;
      } else {
        i := i + 1;
      }
    }
  }
}
