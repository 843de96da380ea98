/** What the formatter does to a file, line by line, and that doing it twice changes nothing. */
module TfAlignment {
  import opened TfAlignSyntax
  import opened Options

  // ---- lines ----

  function Split(text: string): (lines: seq<string>)
    ensures |lines| > 0 && forall k :: 0 <= k < |lines| ==> '\n' !in lines[k]
  {
    if text == "" then [""]
    else
      var rest := Split(text[1..]);
      if text[0] == '\n' then [""] + rest else [[text[0]] + rest[0]] + rest[1..]
  }

  function JoinLines(lines: seq<string>): string
    requires |lines| > 0
  {
    if |lines| == 1 then lines[0] else lines[0] + "\n" + JoinLines(lines[1..])
  }

  lemma {:induction false} JoinSplit(text: string)
    ensures JoinLines(Split(text)) == text
    decreases |text|
  {
    if text != "" {
      JoinSplit(text[1..]);
      var rest := Split(text[1..]);
      var lines := Split(text);
      assert text == [text[0]] + text[1..];
      if text[0] == '\n' {
        assert lines[1..] == rest;
      } else {
        assert lines[1..] == rest[1..];
      }
    }
  }

  lemma {:induction false} SplitFirst(line: string, text: string)
    requires '\n' !in line
    ensures Split(line + "\n" + text) == [line] + Split(text)
    decreases |line|
  {
    var all := line + "\n" + text;
    if line == "" {
      assert all[1..] == text;
    } else {
      assert all[1..] == line[1..] + "\n" + text;
      SplitFirst(line[1..], text);
      assert [line[0]] + line[1..] == line;
      assert [line[1..]] + Split(text) == Split(all[1..]);
      assert Split(all[1..])[1..] == Split(text);
    }
  }

  lemma {:induction false} SplitOne(line: string)
    requires '\n' !in line
    ensures Split(line) == [line]
    decreases |line|
  {
    if line != "" {
      SplitOne(line[1..]);
      assert [line[0]] + line[1..] == line;
    }
  }

  lemma {:induction false} SplitJoin(lines: seq<string>)
    requires |lines| > 0 && forall k :: 0 <= k < |lines| ==> '\n' !in lines[k]
    ensures Split(JoinLines(lines)) == lines
    decreases |lines|
  {
    if |lines| == 1 {
      SplitOne(lines[0]);
    } else {
      SplitJoin(lines[1..]);
      SplitFirst(lines[0], JoinLines(lines[1..]));
      assert [lines[0]] + lines[1..] == lines;
    }
  }

  // ---- what each line is ----

  /**
   * A line is kept as it is, opens a heredoc (and is kept), is an attribute whose value spans several
   * lines, or is an attribute that takes part in a run.
   */
  datatype Kind = Keep | Opens(tag: string) | Spanning(t: Attr) | Aligned(t: Attr)

  function KindOf(t: Attr): Kind {
    var tag := HeredocTag(t.value);
    if tag.Some? then Opens(tag.value)
    else if Depth(t.value) != 0 then Spanning(t)
    else Aligned(t)
  }

  function Classify(line: string): Kind {
    var m := ParseAttr(line);
    if m.None? then Keep else KindOf(m.value)
  }

  function Strip(s: string): string {
    var a := Skip(s, 0, IsSpace);
    StripEnd(s[a..])
  }

  function StripEnd(s: string): string {
    if s != "" && IsSpace(s[|s| - 1]) then StripEnd(s[..|s| - 1]) else s
  }

  /** The heredoc open before a line, after it. */
  function NextTag(tag: Option<string>, line: string): Option<string> {
    match tag
    case Some(t) => if Strip(line) == t then None else tag
    case None => if Classify(line).Opens? then Some(Classify(line).tag) else None
  }

  function TagBefore(lines: seq<string>, k: nat): Option<string>
    requires k <= |lines|
  {
    if k == 0 then None else NextTag(TagBefore(lines, k - 1), lines[k - 1])
  }

  function KindAt(lines: seq<string>, k: nat): Kind
    requires k < |lines|
  {
    if TagBefore(lines, k).Some? then Keep else Classify(lines[k])
  }

  function Kinds(lines: seq<string>): (ks: seq<Kind>)
    ensures |ks| == |lines|
  {
    seq(|lines|, k requires 0 <= k < |lines| => KindAt(lines, k))
  }

  // ---- runs ----

  /** Lines k and k + 1 belong to one run. */
  predicate Joined(ks: seq<Kind>, k: nat)
    requires k + 1 < |ks|
  {
    ks[k].Aligned? && ks[k + 1].Aligned? && ks[k].t.indent == ks[k + 1].t.indent
  }

  function First(ks: seq<Kind>, k: nat): (a: nat)
    requires k < |ks|
    ensures a <= k
  {
    if k > 0 && Joined(ks, k - 1) then First(ks, k - 1) else k
  }

  function End(ks: seq<Kind>, k: nat): (b: nat)
    requires k < |ks|
    ensures k < b <= |ks|
    decreases |ks| - k
  {
    if k + 1 < |ks| && Joined(ks, k) then End(ks, k + 1) else k + 1
  }

  function NameLength(k: Kind): nat {
    if k.Aligned? then |k.t.name| else 0
  }

  /** The longest name among lines a to b. */
  function Longest(ks: seq<Kind>, a: nat, b: nat): (w: nat)
    requires a <= b <= |ks|
    decreases b - a
  {
    if a == b then 0
    else
      var w, last := Longest(ks, a, b - 1), NameLength(ks[b - 1]);
      if last >= w then last else w
  }

  lemma {:induction false} LongestCovers(ks: seq<Kind>, a: nat, b: nat, k: nat)
    requires a <= k < b <= |ks|
    ensures NameLength(ks[k]) <= Longest(ks, a, b)
    decreases b - a
  {
    if k < b - 1 {
      LongestCovers(ks, a, b - 1, k);
    }
  }

  function Width(ks: seq<Kind>, k: nat): nat
    requires k < |ks|
  {
    Longest(ks, First(ks, k), End(ks, k))
  }

  // ---- the rewritten file ----

  function Blanks(n: nat): (s: string)
    ensures |s| == n && forall k :: 0 <= k < n ==> s[k] == ' '
  {
    seq(n, _ => ' ')
  }

  /** name.ljust(width). */
  function Padded(name: string, width: nat): string {
    if |name| >= width then name else name + Blanks(width - |name|)
  }

  function Written(t: Attr, width: nat): string {
    t.indent + Padded(t.name, width) + " = " + t.value
  }

  /** A line rewritten as what it is, with room for a name of the given width. */
  function Rewrite(kind: Kind, line: string, width: nat): string {
    match kind
    case Aligned(t) => Written(t, width)
    case Spanning(t) => t.indent + t.name + " = " + t.value
    case _ => line
  }

  function LineOut(ks: seq<Kind>, line: string, k: nat): string
    requires k < |ks|
  {
    Rewrite(ks[k], line, Width(ks, k))
  }

  function AlignLines(lines: seq<string>): (out: seq<string>)
    ensures |out| == |lines|
  {
    var ks := Kinds(lines);
    seq(|lines|, k requires 0 <= k < |lines| => LineOut(ks, lines[k], k))
  }

  function Align(text: string): string {
    JoinLines(AlignLines(Split(text)))
  }

  // ---- theorems ----

  lemma WrittenReads(t: Attr, width: nat)
    requires IsAttr(t)
    ensures ParseAttr(Written(t, width)) == Some(t)
  {
    var gap := Blanks((if |t.name| >= width then 0 else width - |t.name|) + 1);
    assert t.indent + Padded(t.name, width) + " = " + t.value == t.indent + t.name + gap + "=" + " " + t.value;
    ReadsOneWay(Written(t, width), t, gap, " ");
  }

  lemma AttrReadsBack(line: string, t: Attr, width: nat)
    requires ParseAttr(line) == Some(t)
    ensures IsAttr(t) && ParseAttr(Written(t, width)) == Some(t)
  {
    var gap, lead := ParsedReads(line);
    WrittenReads(t, width);
  }

  lemma UnpaddedIsWritten(t: Attr)
    ensures t.indent + t.name + " = " + t.value == Written(t, 0)
  {
  }

  /** A rewritten line is what it was: same parts, so same heredoc tag and same depth. */
  lemma RewriteKeepsKind(line: string, width: nat)
    ensures ParseAttr(Rewrite(Classify(line), line, width)) == ParseAttr(line)
  {
    match Classify(line)
    case Aligned(t) => AttrReadsBack(line, t, width);
    case Spanning(t) =>
      UnpaddedIsWritten(t);
      AttrReadsBack(line, t, 0);
    case _ =>
  }

  lemma NextTagStays(tag: Option<string>, line: string, width: nat)
    ensures NextTag(tag, Rewrite(if tag.Some? then Keep else Classify(line), line, width)) == NextTag(tag, line)
  {
    RewriteKeepsKind(line, width);
  }

  /** Line k of the output is line k rewritten, whatever the width. */
  ghost predicate Rewrites(lines: seq<string>, out: seq<string>, k: nat) {
    k < |lines| && k < |out| && exists width: nat :: out[k] == Rewrite(KindAt(lines, k), lines[k], width)
  }

  ghost predicate AllRewritten(lines: seq<string>, out: seq<string>) {
    |out| == |lines| && forall k :: 0 <= k < |lines| ==> Rewrites(lines, out, k)
  }

  lemma TagStays(lines: seq<string>, out: seq<string>, k: nat)
    requires AllRewritten(lines, out) && k < |lines| && TagBefore(out, k) == TagBefore(lines, k)
    ensures TagBefore(out, k + 1) == TagBefore(lines, k + 1)
  {
    assert Rewrites(lines, out, k);
    var width: nat :| out[k] == Rewrite(KindAt(lines, k), lines[k], width);
    NextTagStays(TagBefore(lines, k), lines[k], width);
  }

  lemma KindStays(lines: seq<string>, out: seq<string>, k: nat)
    requires AllRewritten(lines, out) && k < |lines| && TagBefore(out, k) == TagBefore(lines, k)
    ensures KindAt(out, k) == KindAt(lines, k)
  {
    assert Rewrites(lines, out, k);
    var width: nat :| out[k] == Rewrite(KindAt(lines, k), lines[k], width);
    RewriteKeepsKind(lines[k], width);
  }

  lemma TagsStay(lines: seq<string>, out: seq<string>, k: nat)
    requires AllRewritten(lines, out) && k <= |lines|
    ensures TagBefore(out, k) == TagBefore(lines, k)
  {
    for i := 0 to k
      invariant TagBefore(out, i) == TagBefore(lines, i)
    {
      TagStays(lines, out, i);
    }
  }

  lemma KindsStay(lines: seq<string>)
    ensures Kinds(AlignLines(lines)) == Kinds(lines)
  {
    var out := AlignLines(lines);
    forall j | 0 <= j < |lines| ensures Rewrites(lines, out, j) {
      assert out[j] == Rewrite(KindAt(lines, j), lines[j], Width(Kinds(lines), j));
    }
    forall k | 0 <= k < |lines| ensures KindAt(out, k) == KindAt(lines, k) {
      TagsStay(lines, out, k);
      KindStays(lines, out, k);
    }
  }

  lemma LinesStay(lines: seq<string>)
    ensures AlignLines(AlignLines(lines)) == AlignLines(lines)
  {
    KindsStay(lines);
  }

  lemma NoNewlineRead(line: string, t: Attr)
    requires '\n' !in line && ParseAttr(line) == Some(t)
    ensures '\n' !in t.indent && '\n' !in t.name && '\n' !in t.value
  {
  }

  lemma NoNewlineWritten(line: string, width: nat)
    requires '\n' !in line
    ensures '\n' !in Rewrite(Classify(line), line, width)
  {
    var kind := Classify(line);
    if kind.Aligned? || kind.Spanning? {
      NoNewlineRead(line, kind.t);
      assert '\n' !in " = " && '\n' !in Padded(kind.t.name, width);
    }
  }

  lemma NoNewlines(lines: seq<string>, k: nat)
    requires k < |lines| && '\n' !in lines[k]
    ensures '\n' !in AlignLines(lines)[k]
  {
    NoNewlineWritten(lines[k], Width(Kinds(lines), k));
  }

  lemma SplitAlign(text: string)
    ensures Split(Align(text)) == AlignLines(Split(text))
  {
    var lines := Split(text);
    forall k | 0 <= k < |lines| ensures '\n' !in AlignLines(lines)[k] {
      NoNewlines(lines, k);
    }
    SplitJoin(AlignLines(lines));
  }

  /** Formatting a formatted text changes nothing, for every text. */
  lemma AlignIsIdempotent(text: string)
    ensures Align(Align(text)) == Align(text)
  {
    SplitAlign(text);
    LinesStay(Split(text));
  }

  /** The line is as the formatter would write it. */
  predicate Formatted(lines: seq<string>, k: nat)
    requires k < |lines|
  {
    lines[k] == Rewrite(KindAt(lines, k), lines[k], Width(Kinds(lines), k))
  }

  /**
   * What --check decides: a text is left alone exactly if each of its lines is as the formatter would write it, and
   * what --write leaves always is.
   */
  lemma CheckPassesIff(text: string)
    ensures Align(text) == text <==> forall k :: 0 <= k < |Split(text)| ==> Formatted(Split(text), k)
    ensures forall k :: 0 <= k < |Split(Align(text))| ==> Formatted(Split(Align(text)), k)
  {
    ChecksLines(text);
    AlignIsIdempotent(text);
    ChecksLines(Align(text));
  }

  lemma ChecksLines(text: string)
    ensures Align(text) == text <==> forall k :: 0 <= k < |Split(text)| ==> Formatted(Split(text), k)
  {
    SameTextIff(text, Split(text));
    SameLinesIff(Split(text));
  }

  lemma SameTextIff(text: string, lines: seq<string>)
    requires lines == Split(text)
    ensures Align(text) == text <==> AlignLines(lines) == lines
  {
    JoinSplit(text);
    SplitAlign(text);
  }

  lemma SameLinesIff(lines: seq<string>)
    ensures AlignLines(lines) == lines <==> forall k :: 0 <= k < |lines| ==> Formatted(lines, k)
  {
    var out := AlignLines(lines);
    forall k | 0 <= k < |lines| ensures Formatted(lines, k) <==> out[k] == lines[k] {
      assert out[k] == Rewrite(KindAt(lines, k), lines[k], Width(Kinds(lines), k));
    }
  }

  /** The line count stays; a kept line stays; an attribute line keeps its indent, its name and its value. */
  lemma AlignPreserves(text: string, k: nat)
    requires k < |Split(text)|
    ensures |Split(Align(text))| == |Split(text)|
    ensures var before, after := Split(text), Split(Align(text));
      && KindAt(after, k) == KindAt(before, k)
      && (KindAt(before, k).Keep? || KindAt(before, k).Opens? ==> after[k] == before[k])
      && (TagBefore(before, k).None? ==> ParseAttr(after[k]) == ParseAttr(before[k]))
  {
    var lines := Split(text);
    SplitAlign(text);
    KindsStay(lines);
    assert Kinds(AlignLines(lines))[k] == Kinds(lines)[k];
    RewriteKeepsKind(lines[k], Width(Kinds(lines), k));
  }

  /** Where the "=" of an attribute line stands: after the indent, the name and the blanks. */
  function Column(line: string): nat {
    Skip(line, Skip(line, Skip(line, 0, IsSpace), IsNamePart), IsSpace)
  }

  predicate EqualsAt(line: string, column: nat) {
    Column(line) == column && column < |line| && line[column] == '='
  }

  lemma WrittenColumn(t: Attr, width: nat)
    requires IsAttr(t) && |t.name| <= width
    ensures EqualsAt(Written(t, width), |t.indent| + width + 1)
  {
    var line := Written(t, width);
    var gap := Blanks(width - |t.name| + 1);
    assert line == t.indent + t.name + gap + "=" + " " + t.value;
    Cut(line, t.indent, t.name, gap, " ", t.value);
    var a := |t.indent|;
    var b := a + |t.name|;
    SkipsFit(line, t, gap, " ", a, b, b + |gap|, b + |gap| + 2);
  }

  /** The column of a run: one blank after the longest name between its first and its last line. */
  function RunColumn(ks: seq<Kind>, k: nat): nat
    requires k < |ks| && ks[k].Aligned?
  {
    |ks[k].t.indent| + Width(ks, k) + 1
  }

  lemma LineColumn(lines: seq<string>, k: nat)
    requires k < |lines| && Kinds(lines)[k].Aligned?
    ensures EqualsAt(AlignLines(lines)[k], RunColumn(Kinds(lines), k))
  {
    var ks := Kinds(lines);
    AttrReadsBack(lines[k], ks[k].t, 0);
    LongestCovers(ks, First(ks, k), End(ks, k), k);
    WrittenColumn(ks[k].t, Width(ks, k));
  }

  lemma JoinedColumn(ks: seq<Kind>, k: nat)
    requires k + 1 < |ks| && Joined(ks, k)
    ensures RunColumn(ks, k + 1) == RunColumn(ks, k)
  {
  }

  /** Every "=" of a run stands in one column. */
  lemma {:induction false} RunIsAligned(lines: seq<string>, k: nat, n: nat)
    requires k <= n < |lines| && Kinds(lines)[k].Aligned?
    requires forall j: nat :: k <= j < n ==> Joined(Kinds(lines), j)
    ensures EqualsAt(AlignLines(lines)[k], RunColumn(Kinds(lines), k))
    ensures EqualsAt(AlignLines(lines)[n], RunColumn(Kinds(lines), k))
    decreases n - k
  {
    LineColumn(lines, k);
    if k < n {
      JoinedColumn(Kinds(lines), k);
      RunIsAligned(lines, k + 1, n);
    }
  }
}

/** The formatter as the script runs it: one pass that appends lines, collects a run and flushes it. */
module TfAlignTool {
  import opened TfAlignSyntax
  import opened TfAlignment
  import opened Options

  /** An attribute line waiting in the run, and where it stands in the output. */
  datatype Entry = Entry(index: nat, t: Attr)

  function LongestName(run: seq<Entry>): nat {
    if run == [] then 0
    else
      var w, last := LongestName(run[..|run| - 1]), |run[|run| - 1].t.name|;
      if last >= w then last else w
  }

  method MaxName(run: seq<Entry>) returns (width: nat)
    ensures width == LongestName(run)
  {
    width := 0;
    var k := 0;
    while k < |run|
      invariant 0 <= k <= |run| && width == LongestName(run[..k])
    {
      assert run[..k + 1][..k] == run[..k];
      if |run[k].t.name| > width {
        width := |run[k].t.name|;
      }
      k := k + 1;
    }
    assert run[..|run|] == run;
  }

  /** The entries stand on consecutive lines of the output, from line a on. */
  ghost predicate Standing(run: seq<Entry>, a: nat) {
    forall k :: 0 <= k < |run| ==> run[k].index == a + k
  }

  /** flush: rewrites the lines of the run to one width and leaves the others alone. */
  method Flush(out: seq<string>, run: seq<Entry>, ghost a: nat) returns (flushed: seq<string>)
    requires |out| == a + |run| && Standing(run, a)
    ensures |flushed| == |out| && forall j :: 0 <= j < a ==> flushed[j] == out[j]
    ensures forall k :: 0 <= k < |run| ==> flushed[a + k] == Written(run[k].t, LongestName(run))
  {
    flushed := out;
    var width := MaxName(run);
    var k := 0;
    while k < |run|
      invariant 0 <= k <= |run| && |flushed| == |out|
      invariant forall j :: 0 <= j < a ==> flushed[j] == out[j]
      invariant forall j :: 0 <= j < k ==> flushed[a + j] == Written(run[j].t, width)
    {
      flushed := flushed[run[k].index := Written(run[k].t, width)];
      k := k + 1;
    }
  }

  /** The run holds the aligned lines from a on, all of one indent, and the line before them is of another run. */
  ghost predicate Collected(ks: seq<Kind>, run: seq<Entry>, a: nat) {
    && a + |run| <= |ks| && Standing(run, a)
    && (forall k :: 0 <= k < |run| ==> ks[a + k] == Aligned(run[k].t))
    && (forall k :: 0 <= k < |run| ==> run[k].t.indent == run[0].t.indent)
    && (0 < a < |ks| ==> !Joined(ks, a - 1))
  }

  /** Line i does not go on with the run of the line before it. */
  ghost predicate Closed(ks: seq<Kind>, i: nat) {
    0 < i < |ks| ==> !Joined(ks, i - 1)
  }

  lemma {:induction false} FirstOfRun(ks: seq<Kind>, run: seq<Entry>, a: nat, k: nat)
    requires Collected(ks, run, a) && k < |run|
    ensures First(ks, a + k) == a
    decreases k
  {
    if k > 0 {
      FirstOfRun(ks, run, a, k - 1);
      assert ks[a + (k - 1)] == Aligned(run[k - 1].t) && ks[a + k] == Aligned(run[k].t);
    }
  }

  lemma {:induction false} EndOfRun(ks: seq<Kind>, run: seq<Entry>, a: nat, k: nat)
    requires Collected(ks, run, a) && Closed(ks, a + |run|) && k < |run|
    ensures End(ks, a + k) == a + |run|
    decreases |run| - k
  {
    if k + 1 < |run| {
      EndOfRun(ks, run, a, k + 1);
      assert ks[a + k] == Aligned(run[k].t) && ks[a + (k + 1)] == Aligned(run[k + 1].t);
    }
  }

  lemma {:induction false} LongestOfRun(ks: seq<Kind>, run: seq<Entry>, a: nat)
    requires a + |run| <= |ks| && forall k :: 0 <= k < |run| ==> ks[a + k] == Aligned(run[k].t)
    ensures Longest(ks, a, a + |run|) == LongestName(run)
    decreases |run|
  {
    if run != [] {
      LongestOfRun(ks, run[..|run| - 1], a);
      assert ks[a + (|run| - 1)] == Aligned(run[|run| - 1].t);
    }
  }

  lemma RunWidth(ks: seq<Kind>, run: seq<Entry>, a: nat, k: nat)
    requires Collected(ks, run, a) && Closed(ks, a + |run|) && k < |run|
    ensures Width(ks, a + k) == LongestName(run)
  {
    FirstOfRun(ks, run, a, k);
    EndOfRun(ks, run, a, k);
    LongestOfRun(ks, run, a);
  }

  /** The file the pass is after: its lines, what each of them is, and what each of them becomes. */
  ghost predicate Goal(lines: seq<string>, ks: seq<Kind>, goal: seq<string>) {
    |ks| == |lines| && |goal| == |lines| && forall j :: 0 <= j < |goal| ==> goal[j] == LineOut(ks, lines[j], j)
  }

  /** The first n lines of the output are what they should be. */
  ghost predicate Final(goal: seq<string>, out: seq<string>, n: nat) {
    n <= |out| <= |goal| && forall j :: 0 <= j < n ==> out[j] == goal[j]
  }

  /** Where the pass stands: everything before the run is final. */
  ghost predicate Passed(ks: seq<Kind>, goal: seq<string>, out: seq<string>, run: seq<Entry>) {
    |run| <= |out| && Collected(ks, run, |out| - |run|) && Final(goal, out, |out| - |run|)
  }

  lemma FlushedLines(lines: seq<string>, ks: seq<Kind>, goal: seq<string>, run: seq<Entry>, a: nat)
    requires Goal(lines, ks, goal) && Collected(ks, run, a) && Closed(ks, a + |run|)
    ensures forall k :: 0 <= k < |run| ==> goal[a + k] == Written(run[k].t, LongestName(run))
  {
    forall k | 0 <= k < |run| ensures goal[a + k] == Written(run[k].t, LongestName(run)) {
      RunWidth(ks, run, a, k);
      assert ks[a + k] == Aligned(run[k].t);
    }
  }

  method FlushRun(
      ghost lines: seq<string>, ghost ks: seq<Kind>, ghost goal: seq<string>, out: seq<string>, run: seq<Entry>)
    returns (flushed: seq<string>)
    requires Goal(lines, ks, goal) && Passed(ks, goal, out, run) && Closed(ks, |out|)
    ensures |flushed| == |out| && Final(goal, flushed, |out|)
  {
    ghost var a := |out| - |run|;
    FlushedLines(lines, ks, goal, run, a);
    flushed := Flush(out, run, a);
    forall j | a <= j < |out| ensures flushed[j] == goal[j] {
      assert flushed[a + (j - a)] == Written(run[j - a].t, LongestName(run));
    }
  }

  /** A line that is no part of a run is final at once, and no run goes on across it. */
  lemma KeptLine(lines: seq<string>, ks: seq<Kind>, goal: seq<string>, out: seq<string>, line: string)
    requires Goal(lines, ks, goal) && |out| < |lines| && Final(goal, out, |out|)
    requires !ks[|out|].Aligned? && line == LineOut(ks, lines[|out|], |out|)
    ensures Passed(ks, goal, out + [line], [])
  {
  }

  /** An aligned line of another indent than the run starts a run of its own. */
  lemma NewRun(ks: seq<Kind>, goal: seq<string>, out: seq<string>, line: string, t: Attr)
    requires |ks| == |goal| && |out| < |ks| && Final(goal, out, |out|)
    requires ks[|out|] == Aligned(t) && Closed(ks, |out|)
    ensures Passed(ks, goal, out + [line], [Entry(|out|, t)])
  {
    var run := [Entry(|out|, t)];
    assert Collected(ks, run, |out|);
  }

  lemma LongerRun(ks: seq<Kind>, goal: seq<string>, out: seq<string>, run: seq<Entry>, line: string, t: Attr)
    requires |ks| == |goal| && |out| < |ks| && Passed(ks, goal, out, run)
    requires ks[|out|] == Aligned(t) && (run != [] ==> run[|run| - 1].t.indent == t.indent)
    ensures Passed(ks, goal, out + [line], run + [Entry(|out|, t)])
  {
    var longer, a := run + [Entry(|out|, t)], |out| - |run|;
    assert Standing(longer, a);
    forall k | 0 <= k < |longer| ensures ks[a + k] == Aligned(longer[k].t) {
      if k < |run| {
        assert longer[k] == run[k];
      }
    }
  }

  lemma OtherIndentCloses(ks: seq<Kind>, run: seq<Entry>, a: nat, t: Attr)
    requires Collected(ks, run, a) && run != [] && a + |run| < |ks|
    requires ks[a + |run|] == Aligned(t) && run[|run| - 1].t.indent != t.indent
    ensures Closed(ks, a + |run|)
  {
    assert ks[a + (|run| - 1)] == Aligned(run[|run| - 1].t);
  }

  /** One turn of the loop over the lines. */
  method TakeLine(line: string, ghost lines: seq<string>, ghost ks: seq<Kind>, ghost goal: seq<string>,
                  out: seq<string>, run: seq<Entry>, tag: Option<string>)
    returns (out': seq<string>, run': seq<Entry>, tag': Option<string>)
    requires Goal(lines, ks, goal) && |out| < |lines| && line == lines[|out|]
    requires ks[|out|] == if tag.Some? then Keep else Classify(line)
    requires Passed(ks, goal, out, run) && (tag.Some? ==> run == [])
    ensures |out'| == |out| + 1 && Passed(ks, goal, out', run') && (tag'.Some? ==> run' == [])
    ensures tag' == NextTag(tag, line)
  {
    if tag.Some? {
      KeptLine(lines, ks, goal, out, line);
      return out + [line], [], if Strip(line) == tag.value then None else tag;
    }
    var m := ParseAttr(line);
    if m.None? {
      out' := FlushRun(lines, ks, goal, out, run);
      KeptLine(lines, ks, goal, out', line);
      return out' + [line], [], None;
    }
    out', run', tag' := TakeAttr(line, m.value, lines, ks, goal, out, run);
  }

  method TakeAttr(line: string, t: Attr, ghost lines: seq<string>, ghost ks: seq<Kind>, ghost goal: seq<string>,
                  out: seq<string>, run: seq<Entry>)
    returns (out': seq<string>, run': seq<Entry>, tag': Option<string>)
    requires Goal(lines, ks, goal) && |out| < |lines| && line == lines[|out|]
    requires ks[|out|] == KindOf(t) && Passed(ks, goal, out, run)
    ensures |out'| == |out| + 1 && Passed(ks, goal, out', run') && (tag'.Some? ==> run' == [])
    ensures tag' == HeredocTag(t.value)
  {
    tag' := HeredocTag(t.value);
    if tag'.Some? {
      out' := FlushRun(lines, ks, goal, out, run);
      KeptLine(lines, ks, goal, out', line);
      out', run' := out' + [line], [];
      return;
    }
    var depth := BracketDelta(t.value);
    if depth != 0 {
      out' := FlushRun(lines, ks, goal, out, run);
      var written := t.indent + t.name + " = " + t.value;
      KeptLine(lines, ks, goal, out', written);
      out', run' := out' + [written], [];
      return;
    }
    if run != [] && run[|run| - 1].t.indent != t.indent {
      OtherIndentCloses(ks, run, |out| - |run|, t);
      out' := FlushRun(lines, ks, goal, out, run);
      NewRun(ks, goal, out', line, t);
      out', run' := out' + [line], [Entry(|out|, t)];
      return;
    }
    LongerRun(ks, goal, out, run, line, t);
    out', run' := out + [line], run + [Entry(|out|, t)];
  }

  ghost predicate IsKinds(lines: seq<string>, ks: seq<Kind>) {
    ks == Kinds(lines)
  }

  lemma KindOfLine(lines: seq<string>, ks: seq<Kind>, k: nat)
    requires IsKinds(lines, ks) && k < |lines|
    ensures |ks| == |lines| && ks[k] == if TagBefore(lines, k).Some? then Keep else Classify(lines[k])
    ensures TagBefore(lines, k + 1) == NextTag(TagBefore(lines, k), lines[k])
  {
  }

  lemma GoalOfFile(lines: seq<string>) returns (ks: seq<Kind>, goal: seq<string>)
    ensures IsKinds(lines, ks) && Goal(lines, ks, goal) && goal == AlignLines(lines)
  {
    ks, goal := Kinds(lines), AlignLines(lines);
  }

  /** The loop over the lines, and the last flush. */
  method AlignAll(lines: seq<string>, ghost ks: seq<Kind>, ghost goal: seq<string>) returns (out: seq<string>)
    requires IsKinds(lines, ks) && Goal(lines, ks, goal)
    ensures out == goal
  {
    out := [];
    var run, tag := [], None;
    NothingPassed(ks, goal);
    while |out| < |lines|
      invariant |out| <= |lines| && Passed(ks, goal, out, run) && (tag.Some? ==> run == [])
      invariant tag == TagBefore(lines, |out|)
      decreases |lines| - |out|
    {
      KindOfLine(lines, ks, |out|);
      out, run, tag := TakeLine(lines[|out|], lines, ks, goal, out, run, tag);
    }
    out := FlushRun(lines, ks, goal, out, run);
    FinalIsGoal(goal, out);
  }

  lemma FinalIsGoal(goal: seq<string>, out: seq<string>)
    requires Final(goal, out, |out|) && |out| == |goal|
    ensures out == goal
  {
  }

  lemma NothingPassed(ks: seq<Kind>, goal: seq<string>)
    ensures Passed(ks, goal, [], [])
  {
  }

  /** align computes exactly the specified text. */
  method AlignText(text: string) returns (r: string)
    ensures r == Align(text)
  {
    var lines := Split(text);
    ghost var ks, goal := GoalOfFile(lines);
    var out := AlignAll(lines, ks, goal);
    return JoinLines(out);
  }
}
