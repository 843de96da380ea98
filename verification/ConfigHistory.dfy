/** The version history of a merchant's configuration (internal/application/config/service.go, Publish and Rollback). */
module ConfigHistorySpec {
  import opened Int64
  import D = Decimal
  import opened Options

  /** A published version. Everything but the status is written once. */
  datatype Doc<C> = Doc(version: int, previous: int, active: bool, content: C)

  /** itoa as config.go writes it: MinInt64 has no positive counterpart and leaves only its sign. */
  function Itoa(v: int): string {
    if v == MIN then "-" else D.FormatInt(v)
  }

  function ETag(merchant: string, version: int): string {
    "\"" + merchant + "-" + Itoa(version) + "\""
  }

  /** GetActive: the last active version. */
  function Active<C>(h: seq<Doc<C>>): Option<Doc<C>> {
    if h == [] then None
    else if h[|h| - 1].active then Some(h[|h| - 1])
    else Active(h[..|h| - 1])
  }

  /** GetVersion: the first version of that number. */
  function Numbered<C>(h: seq<Doc<C>>, version: int): Option<Doc<C>> {
    if h == [] then None
    else if h[0].version == version then Some(h[0])
    else Numbered(h[1..], version)
  }

  /** The highest version number, or 0. */
  function Latest<C>(h: seq<Doc<C>>): int {
    if h == [] then 0
    else
      var before, v := Latest(h[..|h| - 1]), h[|h| - 1].version;
      if v > before then v else before
  }

  function Superseded<C>(h: seq<Doc<C>>): (r: seq<Doc<C>>)
    ensures |r| == |h| && forall i :: 0 <= i < |h| ==> r[i] == h[i].(active := false)
  {
    seq(|h|, i requires 0 <= i < |h| => h[i].(active := false))
  }

  /** The repository's Publish: refuse unless the history is where the caller believes it is. */
  function Append<C>(h: seq<Doc<C>>, doc: Doc<C>, expected: int): Option<seq<Doc<C>>> {
    if expected >= 0 && Latest(h) != expected then None else Some(Superseded(h) + [doc])
  }

  /**
   * A request. readFails is a GetActive that errs although there is an active version; fails stands for
   * every refusal that reads neither history nor precondition, and for an audit, outbox or commit that fails.
   */
  datatype Command<C> =
    | Publish(draftVersion: int, content: C, ifMatch: string, readFails: bool, fails: bool)
    | Rollback(toVersion: int, ifMatch: string, readFails: bool, fails: bool)

  /** checkPrecondition. */
  predicate Matches<C>(merchant: string, current: Option<Doc<C>>, ifMatch: string) {
    current.None? || (ifMatch != "" && ETag(merchant, current.value.version) == ifMatch)
  }

  /** The history once a draft is published on top of the active version. */
  function PublishOn<C>(h: seq<Doc<C>>, current: Option<Doc<C>>, draftVersion: int, content: C): Option<seq<Doc<C>>> {
    var base := if current.Some? then current.value.version else draftVersion;
    Append(h, Doc(Wrap(base + 1), base, true, content), if current.Some? then current.value.version else 0)
  }

  /** The history once an earlier version is restored on top of the active one. */
  function RollbackOn<C>(h: seq<Doc<C>>, current: Option<Doc<C>>, toVersion: int): Option<seq<Doc<C>>> {
    if current.None? then None
    else
      var target, version := Numbered(h, toVersion), current.value.version;
      if target.None? || target.value.version >= version then None
      else Append(h, Doc(Wrap(version + 1), version, true, target.value.content), version)
  }

  /** The history a request leaves, or none when it is refused. */
  function Attempt<C>(m: string, h: seq<Doc<C>>, cmd: Command<C>): Option<seq<Doc<C>>> {
    var current := if cmd.readFails then None else Active(h);
    if cmd.fails || !Matches(m, current, cmd.ifMatch) then None
    else
      match cmd
      case Publish(draftVersion, content, _, _, _) => PublishOn(h, current, draftVersion, content)
      case Rollback(toVersion, _, _, _) => RollbackOn(h, current, toVersion)
  }

  function Step<C>(m: string, h: seq<Doc<C>>, cmd: Command<C>): seq<Doc<C>> {
    var next := Attempt(m, h, cmd);
    if next.Some? then next.value else h
  }

  datatype Commands<C> = Start | Then(before: Commands<C>, last: Command<C>)

  function Run<C>(m: string, h: seq<Doc<C>>, cmds: Commands<C>): seq<Doc<C>> {
    match cmds
    case Start => h
    case Then(before, cmd) => Step(m, Run(m, h, before), cmd)
  }
}

module ConfigHistory {
  import opened Int64
  import opened ConfigHistorySpec
  import opened Options

  /** Versions strictly increase from 1 on, and exactly the last one, the highest, is active. */
  ghost predicate Good<C>(h: seq<Doc<C>>) {
    && (forall i :: 0 <= i < |h| ==> 1 <= h[i].version <= MAX)
    && (forall i, j :: 0 <= i < j < |h| ==> h[i].version < h[j].version)
    && (forall i :: 0 <= i < |h| ==> (h[i].active <==> i == |h| - 1))
  }

  /** Nothing written is ever changed but a status. */
  ghost predicate Extends<C(!new)>(h: seq<Doc<C>>, later: seq<Doc<C>>) {
    |h| <= |later| && forall i :: 0 <= i < |h| ==> later[i].(active := false) == h[i].(active := false)
  }

  lemma {:induction false} LatestOfGood<C>(h: seq<Doc<C>>)
    requires Good(h)
    ensures Latest(h) == if h == [] then 0 else h[|h| - 1].version
    decreases |h|
  {
    if |h| > 1 {
      var before := h[..|h| - 1];
      LatestOfIncreasing(before);
    }
  }

  lemma {:induction false} LatestOfIncreasing<C>(h: seq<Doc<C>>)
    requires forall i :: 0 <= i < |h| ==> 1 <= h[i].version
    requires forall i, j :: 0 <= i < j < |h| ==> h[i].version < h[j].version
    ensures Latest(h) == if h == [] then 0 else h[|h| - 1].version
    decreases |h|
  {
    if h != [] {
      LatestOfIncreasing(h[..|h| - 1]);
    }
  }

  lemma {:induction false} NumberedIsThere<C>(h: seq<Doc<C>>, version: int)
    ensures Numbered(h, version).Some?
        ==> Numbered(h, version).value in h && Numbered(h, version).value.version == version
    decreases |h|
  {
    if h != [] {
      NumberedIsThere(h[1..], version);
    }
  }

  /** Room for one more version: the first takes its number from the draft, later ones from the history. */
  predicate Room<C>(h: seq<Doc<C>>, cmd: Command<C>) {
    if h == [] then cmd.Publish? && 0 <= cmd.draftVersion < MAX else h[|h| - 1].version < MAX
  }

  /**
   * Over an existing history a request commits only on top of the version whose ETag it presents, even when the active
   * read fails.
   */
  lemma CommitsOnPresentedVersion<C>(m: string, h: seq<Doc<C>>, cmd: Command<C>)
    requires Good(h) && h != [] && Attempt(m, h, cmd).Some?
    ensures var last, next := h[|h| - 1], Attempt(m, h, cmd).value;
      && !cmd.readFails && cmd.ifMatch == ETag(m, last.version)
      && |next| == |h| + 1 && next[|h|].previous == last.version && next[|h|].version == Wrap(last.version + 1)
  {
    LatestOfGood(h);
  }

  /** A rollback that commits restores the content of the version it names, an earlier one. */
  lemma RollbackRestores<C>(m: string, h: seq<Doc<C>>, cmd: Command<C>)
    requires Good(h) && cmd.Rollback? && Attempt(m, h, cmd).Some?
    ensures var next := Attempt(m, h, cmd).value;
      exists i :: 0 <= i < |h| - 1 && h[i].version == cmd.toVersion && next[|h|].content == h[i].content
  {
    NumberedIsThere(h, cmd.toVersion);
    var target := Numbered(h, cmd.toVersion).value;
    var i :| 0 <= i < |h| && h[i] == target;
    assert h[|h| - 1].active;
  }

  /** A publication that commits, over any history, stores exactly the content submitted, as the active version. */
  lemma PublishStores<C>(m: string, h: seq<Doc<C>>, cmd: Command<C>)
    requires cmd.Publish? && Attempt(m, h, cmd).Some?
    ensures var next := Attempt(m, h, cmd).value;
      && |next| == |h| + 1 && next[|h|].content == cmd.content && next[|h|].active
      && forall i :: 0 <= i < |h| ==> next[i] == h[i].(active := false)
  {
  }

  lemma {:induction false} NumberedIff<C>(h: seq<Doc<C>>, version: int)
    ensures Numbered(h, version).Some? <==> exists i :: 0 <= i < |h| && h[i].version == version
    decreases |h|
  {
    if h != [] && h[0].version != version {
      NumberedIff(h[1..], version);
      assert h == [h[0]] + h[1..];
    }
  }

  /** The request names a version before the last. */
  ghost predicate NamesEarlier<C>(h: seq<Doc<C>>, version: int) {
    exists i :: 0 <= i < |h| - 1 && h[i].version == version
  }

  lemma EarlierIff<C>(h: seq<Doc<C>>, version: int)
    requires Good(h) && h != []
    ensures NamesEarlier(h, version) <==>
      Numbered(h, version).Some? && Numbered(h, version).value.version < h[|h| - 1].version
  {
    NumberedIff(h, version);
    NumberedIsThere(h, version);
  }

  /**
   * Over a good history a request commits exactly if nothing fails around it, the active version is read, the ETag is
   * that of the last version and, for a rollback, the version named is an earlier one. Over none, exactly if it is a
   * publication around which nothing fails.
   */
  lemma CommitsIff<C>(m: string, h: seq<Doc<C>>, cmd: Command<C>)
    requires Good(h)
    ensures h == [] ==> (Attempt(m, h, cmd).Some? <==> cmd.Publish? && !cmd.fails)
    ensures h != [] ==> (Attempt(m, h, cmd).Some? <==>
      && !cmd.fails && !cmd.readFails && cmd.ifMatch == ETag(m, h[|h| - 1].version)
      && (cmd.Rollback? ==> NamesEarlier(h, cmd.toVersion)))
  {
    LatestOfGood(h);
    ActiveOfGood(h);
    if h != [] && cmd.Rollback? {
      EarlierIff(h, cmd.toVersion);
    }
  }

  lemma {:induction false} ItoaInjective(v: int, w: int)
    requires Itoa(v) == Itoa(w)
    ensures v == w
  {
    if v != MIN && w != MIN {
      D.FormatIntInjective(v, w);
    } else {
      var other := if v == MIN then w else v;
      assert other != MIN && other < 0 ==> |D.FormatInt(other)| >= 2;
      assert other >= 0 ==> D.IsDigit(D.FormatInt(other)[0]);
    }
  }

  /** An ETag names one version. */
  lemma ETagInjective(m: string, v: int, w: int)
    requires ETag(m, v) == ETag(m, w)
    ensures v == w
  {
    var n := |m| + 2;
    assert ETag(m, v)[n..|ETag(m, v)| - 1] == Itoa(v);
    assert ETag(m, w)[n..|ETag(m, w)| - 1] == Itoa(w);
    ItoaInjective(v, w);
  }

  /** So an editor who read an earlier version is refused. */
  lemma StaleEditorIsRefused<C>(m: string, h: seq<Doc<C>>, cmd: Command<C>, read: int)
    requires Good(h) && h != [] && cmd.ifMatch == ETag(m, read) && read != h[|h| - 1].version
    ensures Attempt(m, h, cmd).None?
  {
    if Attempt(m, h, cmd).Some? {
      CommitsOnPresentedVersion(m, h, cmd);
      ETagInjective(m, read, h[|h| - 1].version);
    }
  }

  lemma AppendKeepsGoodIff<C>(h: seq<Doc<C>>, doc: Doc<C>)
    requires Good(h) && doc.active && Fits(doc.version)
    ensures Good(Superseded(h) + [doc]) <==> doc.version >= 1 && (h != [] ==> doc.version > h[|h| - 1].version)
  {
    var next := Superseded(h) + [doc];
    assert next[|h|] == doc;
    if doc.version >= 1 && (h != [] ==> doc.version > h[|h| - 1].version) {
      forall i, j | 0 <= i < j < |next| ensures next[i].version < next[j].version {
        if j == |h| && i < |h| - 1 {
          assert h[i].version < h[|h| - 1].version;
        }
      }
    } else if h != [] {
      assert next[|h| - 1].version == h[|h| - 1].version;
    }
  }

  /** The shape of what a request that commits appends. */
  lemma CommitAppends<C>(m: string, h: seq<Doc<C>>, cmd: Command<C>) returns (doc: Doc<C>)
    requires Good(h) && Attempt(m, h, cmd).Some?
    ensures Attempt(m, h, cmd).value == Superseded(h) + [doc] && doc.active
    ensures h == [] ==> cmd.Publish? && doc.version == Wrap(cmd.draftVersion + 1)
    ensures h != [] ==> doc.version == Wrap(h[|h| - 1].version + 1)
  {
    var next := Attempt(m, h, cmd).value;
    doc := next[|next| - 1];
    LatestOfGood(h);
    ActiveOfGood(h);
    if h != [] {
      CommitsOnPresentedVersion(m, h, cmd);
    }
  }

  lemma ActiveOfGood<C>(h: seq<Doc<C>>)
    requires Good(h)
    ensures Active(h) == if h == [] then None else Some(h[|h| - 1])
  {
  }

  /** A request that commits leaves a good history exactly when there was room. */
  lemma CommitKeepsGoodIff<C>(m: string, h: seq<Doc<C>>, cmd: Command<C>)
    requires Good(h) && Attempt(m, h, cmd).Some? && (cmd.Publish? ==> Fits(cmd.draftVersion))
    ensures Good(Attempt(m, h, cmd).value) <==> Room(h, cmd)
  {
    var doc := CommitAppends(m, h, cmd);
    AppendKeepsGoodIff(h, doc);
    if h == [] {
      WrapNext(cmd.draftVersion);
    } else {
      WrapNext(h[|h| - 1].version);
    }
  }

  lemma WrapNext(v: int)
    requires Fits(v)
    ensures Wrap(v + 1) == if v < MAX then v + 1 else MIN
  {
  }

  /** Every request that commits, over any history at all, only appends. */
  lemma StepExtends<C(!new)>(m: string, h: seq<Doc<C>>, cmd: Command<C>)
    ensures Extends(h, Step(m, h, cmd))
  {
  }

  lemma ExtendsTransitive<C(!new)>(a: seq<Doc<C>>, b: seq<Doc<C>>, c: seq<Doc<C>>)
    requires Extends(a, b) && Extends(b, c)
    ensures Extends(a, c)
  {
  }

  /** Every request that commits finds room. */
  ghost predicate RoomThroughout<C>(m: string, h: seq<Doc<C>>, cmds: Commands<C>) {
    match cmds
    case Start => true
    case Then(before, cmd) =>
      && RoomThroughout(m, h, before)
      && (Attempt(m, Run(m, h, before), cmd).Some? ==> Room(Run(m, h, before), cmd))
  }

  ghost predicate InRange<C>(cmds: Commands<C>) {
    match cmds
    case Start => true
    case Then(before, cmd) => InRange(before) && (cmd.Publish? ==> Fits(cmd.draftVersion))
  }

  /**
   * Over every run of requests: versions only grow, content is only appended, and the highest version alone is active.
   */
  lemma {:induction false} HistoryStaysGood<C(!new)>(m: string, h: seq<Doc<C>>, cmds: Commands<C>)
    requires Good(h) && InRange(cmds) && RoomThroughout(m, h, cmds)
    ensures Good(Run(m, h, cmds)) && Extends(h, Run(m, h, cmds))
  {
    if cmds.Then? {
      HistoryStaysGood(m, h, cmds.before);
      var now := Run(m, h, cmds.before);
      StepExtends(m, now, cmds.last);
      ExtendsTransitive(h, now, Run(m, h, cmds));
      if Attempt(m, now, cmds.last).Some? {
        CommitKeepsGoodIff(m, now, cmds.last);
      }
    }
  }

  /** A first draft numbered -1 publishes as version 0, and a failed active read then lets a second version 0 in. */
  lemma NegativeDraftDefeatsTheCheck<C>(m: string, a: C, b: C)
    ensures var first, second := Publish(-1, a, "", false, false), Publish(-1, b, "", true, false);
      Run(m, [], Then(Then(Start, first), second)) == [Doc(0, -1, false, a), Doc(0, -1, true, b)]
  {
    var first, second := Publish(-1, a, "", false, false), Publish(-1, b, "", true, false);
    var one := [Doc(0, -1, true, a)];
    assert Superseded<C>([]) + [Doc(0, -1, true, a)] == one;
    assert Run(m, [], Then(Start, first)) == one;
    assert one[..0] == [] && Latest(one) == 0;
    assert Superseded(one) == [Doc(0, -1, false, a)];
  }
}

/** The service over the append-only repository. */
module ConfigService {
  import opened Int64
  import opened ConfigHistorySpec
  import opened Options

  class Store<C(==)> {
    const merchant: string
    var versions: seq<Doc<C>>

    constructor (merchant: string)
      ensures this.merchant == merchant && versions == []
    {
      this.merchant, versions := merchant, [];
    }

    method GetActive() returns (r: Option<Doc<C>>)
      ensures r == Active(versions)
    {
      var i := |versions|;
      assert versions[..i] == versions;
      while i > 0
        invariant 0 <= i <= |versions| && Active(versions) == Active(versions[..i])
      {
        i := i - 1;
        assert versions[..i + 1][..i] == versions[..i];
        if versions[i].active { return Some(versions[i]); }
      }
      return None;
    }

    method GetVersion(version: int) returns (r: Option<Doc<C>>)
      ensures r == Numbered(versions, version)
    {
      var i := 0;
      while i < |versions|
        invariant 0 <= i <= |versions| && Numbered(versions, version) == Numbered(versions[i..], version)
      {
        if versions[i].version == version { return Some(versions[i]); }
        assert versions[i..][1..] == versions[i + 1..];
        i := i + 1;
      }
      return None;
    }

    /** The repository's Publish: find the highest version, check, supersede, append. */
    method AppendVersion(doc: Doc<C>, expected: int) returns (ok: bool)
      modifies this
      ensures ok == Append(old(versions), doc, expected).Some?
      ensures versions == if ok then Append(old(versions), doc, expected).value else old(versions)
    {
      var current, i := 0, 0;
      while i < |versions|
        invariant 0 <= i <= |versions| && current == Latest(versions[..i])
      {
        assert versions[..i + 1][..i] == versions[..i];
        if versions[i].version > current {
          current := versions[i].version;
        }
        i := i + 1;
      }
      assert versions[..i] == versions;
      if expected >= 0 && current != expected { return false; }
      var j := 0;
      while j < |versions|
        invariant 0 <= j <= |versions| == |old(versions)|
        invariant forall k :: 0 <= k < |versions| ==>
          versions[k] == if k < j then old(versions)[k].(active := false) else old(versions)[k]
      {
        if versions[j].active {
          versions := versions[j := versions[j].(active := false)];
        }
        j := j + 1;
      }
      assert versions == Superseded(old(versions));
      versions := versions + [doc];
      return true;
    }

    /**
     * Publish and Rollback: the history afterwards is the one the request determines, a refused or failed one leaves
     * it alone.
     */
    method Submit(cmd: Command<C>) returns (ok: bool)
      modifies this
      ensures ok == Attempt(merchant, old(versions), cmd).Some?
      ensures versions == Step(merchant, old(versions), cmd)
    {
      var current := None;
      if !cmd.readFails {
        current := GetActive();
      }
      if cmd.fails || !Matches(merchant, current, cmd.ifMatch) { return false; }
      match cmd
      case Publish(draftVersion, content, _, _, _) => ok := PublishDraft(current, draftVersion, content);
      case Rollback(toVersion, _, _, _) => ok := RollBack(current, toVersion);
    }

    method PublishDraft(current: Option<Doc<C>>, draftVersion: int, content: C) returns (ok: bool)
      modifies this
      ensures var next := PublishOn(old(versions), current, draftVersion, content);
        ok == next.Some? && versions == if ok then next.value else old(versions)
    {
      var base := if current.Some? then current.value.version else draftVersion;
      var expected := if current.Some? then current.value.version else 0;
      ok := AppendVersion(Doc(Wrap(base + 1), base, true, content), expected);
    }

    method RollBack(current: Option<Doc<C>>, toVersion: int) returns (ok: bool)
      modifies this
      ensures var next := RollbackOn(old(versions), current, toVersion);
        ok == next.Some? && versions == if ok then next.value else old(versions)
    {
      if current.None? { return false; }
      var version := current.value.version;
      var target := GetVersion(toVersion);
      if target.None? || target.value.version >= version { return false; }
      ok := AppendVersion(Doc(Wrap(version + 1), version, true, target.value.content), version);
    }
  }
}
