/** Configuration documents as trees, flattened to paths (internal/application/config/service.go, flatten and walk). */
module ConfigTree {
  import opened Options

  /** A decoded document: an object with its fields in key order, a null, or anything rendered as one text. */
  datatype Json = Object(fields: Fields) | Null | Leaf(text: string)
  datatype Fields = End | Field(key: string, value: Json, rest: Fields)

  function Keys(fs: Fields): set<string> {
    if fs.End? then {} else {fs.key} + Keys(fs.rest)
  }

  /** walk: fields in order, a later write to the same path wins; nulls write nothing. */
  function Walk(prefix: string, t: Json, out: map<string, string>): map<string, string>
    decreases t
  {
    match t
    case Object(fs) => WalkFields(prefix, fs, out)
    case Null => out
    case Leaf(text) => out[prefix := text]
  }

  function WalkFields(prefix: string, fs: Fields, out: map<string, string>): map<string, string>
    decreases fs
  {
    match fs
    case End => out
    case Field(key, value, rest) => WalkFields(prefix, rest, Walk(prefix + "/" + key, value, out))
  }

  function Flatten(t: Json): map<string, string> {
    Walk("", t, map[])
  }

  // ---- looking a path up in the tree itself ----

  /** No key is repeated within an object, and no key holds a slash. */
  predicate Plain(t: Json) {
    match t
    case Object(fs) => PlainFields(fs)
    case _ => true
  }

  predicate PlainFields(fs: Fields) {
    fs.Field? ==> '/' !in fs.key && fs.key !in Keys(fs.rest) && Plain(fs.value) && PlainFields(fs.rest)
  }

  function FieldOf(fs: Fields, key: string): Json {
    match fs
    case End => Null
    case Field(k, value, rest) => if k == key then value else FieldOf(rest, key)
  }

  /** The member of an object; a missing member is as good as a null one. */
  function Child(t: Json, key: string): Json {
    if t.Object? then FieldOf(t.fields, key) else Null
  }

  /** The end of the first segment of a path. */
  function Slash(q: string): (i: nat)
    ensures i <= |q| && (i < |q| ==> q[i] == '/') && '/' !in q[..i]
  {
    if q == "" || q[0] == '/' then 0
    else
      var i := Slash(q[1..]);
      assert q[..i + 1] == [q[0]] + q[1..][..i];
      i + 1
  }

  function Head(q: string): string
    requires q != ""
  {
    q[1..][..Slash(q[1..])]
  }

  function Tail(q: string): string
    requires q != ""
  {
    q[1..][Slash(q[1..])..]
  }

  /** The text a path leads to, segment by segment. */
  function Find(t: Json, q: string): Option<string>
    decreases |q|
  {
    if q == "" then (if t.Leaf? then Some(t.text) else None)
    else if q[0] != '/' || !t.Object? then None
    else Find(Child(t, Head(q)), Tail(q))
  }

  function Get(m: map<string, string>, p: string): Option<string> {
    if p in m then Some(m[p]) else None
  }

  /** q is a key, and then nothing or a further segment. */
  predicate Enters(q: string, key: string) {
    "/" + key <= q && (|q| == |key| + 1 || q[|key| + 1] == '/')
  }

  lemma EntersHead(q: string, key: string)
    requires '/' !in key && Enters(q, key)
    ensures q[0] == '/' && Head(q) == key && Tail(q) == q[|key| + 1..]
  {
  }

  lemma HeadEnters(q: string)
    requires q != "" && q[0] == '/'
    ensures '/' !in Head(q) && Enters(q, Head(q)) && Tail(q) == q[|Head(q)| + 1..]
  {
  }

  lemma {:induction false} NoField(fs: Fields, key: string)
    requires key !in Keys(fs)
    ensures FieldOf(fs, key) == Null
  {
    if fs.Field? {
      NoField(fs.rest, key);
    }
  }

  /** Looking up in a list of fields. */
  function FindIn(fs: Fields, q: string): Option<string> {
    if q == "" || q[0] != '/' then None else Find(FieldOf(fs, Head(q)), Tail(q))
  }

  lemma FindInFirst(fs: Fields, q: string)
    requires fs.Field? && '/' !in fs.key && fs.key !in Keys(fs.rest)
    ensures Enters(q, fs.key) ==> FindIn(fs, q) == Find(fs.value, q[|fs.key| + 1..]) && FindIn(fs.rest, q) == None
    ensures !Enters(q, fs.key) ==> FindIn(fs, q) == FindIn(fs.rest, q)
    ensures !Enters(q, fs.key) && "/" + fs.key <= q ==> Find(fs.value, q[|fs.key| + 1..]) == None
  {
    if Enters(q, fs.key) {
      EntersHead(q, fs.key);
      NoField(fs.rest, fs.key);
    } else if q != "" && q[0] == '/' {
      HeadEnters(q);
    }
  }

  /** Writing a tree below a prefix changes exactly what the tree leads to below that prefix. */
  lemma {:induction false} WalkWrites(prefix: string, t: Json, out: map<string, string>, p: string)
    requires Plain(t)
    ensures Get(Walk(prefix, t, out), p) ==
      if prefix <= p && Find(t, p[|prefix|..]).Some? then Find(t, p[|prefix|..]) else Get(out, p)
    decreases t
  {
    match t
    case Object(fs) =>
      WalkFieldsWrites(prefix, fs, out, p);
    case Null =>
    case Leaf(text) =>
      if prefix <= p {
        assert p[|prefix|..] == "" <==> p == prefix;
      }
  }

  lemma {:induction false} WalkFieldsWrites(prefix: string, fs: Fields, out: map<string, string>, p: string)
    requires PlainFields(fs)
    ensures Get(WalkFields(prefix, fs, out), p) ==
      if prefix <= p && FindIn(fs, p[|prefix|..]).Some? then FindIn(fs, p[|prefix|..]) else Get(out, p)
    decreases fs
  {
    if fs.Field? {
      var inner := prefix + "/" + fs.key;
      var first := Walk(inner, fs.value, out);
      WalkWrites(inner, fs.value, out, p);
      WalkFieldsWrites(prefix, fs.rest, first, p);
      if prefix <= p {
        var q := p[|prefix|..];
        FindInFirst(fs, q);
        PrefixSplits(prefix, fs.key, p);
      } else {
        assert !(inner <= p) by { PrefixShrinks(prefix, fs.key, p); }
      }
    }
  }

  lemma PrefixSplits(prefix: string, key: string, p: string)
    requires prefix <= p
    ensures prefix + "/" + key <= p <==> "/" + key <= p[|prefix|..]
    ensures prefix + "/" + key <= p ==> p[|prefix + "/" + key|..] == p[|prefix|..][|key| + 1..]
  {
  }

  lemma PrefixShrinks(prefix: string, key: string, p: string)
    requires !(prefix <= p)
    ensures !(prefix + "/" + key <= p)
  {
  }

  /** Flattening is path lookup, for every path. */
  lemma FlattenIsFind(t: Json, q: string)
    requires Plain(t)
    ensures Get(Flatten(t), q) == Find(t, q)
  {
    WalkWrites("", t, map[], q);
    assert q[0..] == q;
  }

  // ---- when two trees flatten alike ----

  function Size(t: Json): nat {
    match t
    case Object(fs) => 1 + SizeFields(fs)
    case Null => 0
    case Leaf(_) => 1
  }

  function SizeFields(fs: Fields): nat {
    match fs
    case End => 0
    case Field(_, value, rest) => Size(value) + SizeFields(rest)
  }

  lemma {:induction false} FieldIsSmaller(fs: Fields, key: string)
    ensures Size(FieldOf(fs, key)) <= SizeFields(fs)
  {
    if fs.Field? {
      FieldIsSmaller(fs.rest, key);
    }
  }

  lemma ChildIsSmaller(t: Json, key: string)
    ensures Size(Child(t, key)) <= Size(t) && (t.Object? ==> Size(Child(t, key)) < Size(t))
  {
    if t.Object? {
      FieldIsSmaller(t.fields, key);
    }
  }

  /** The trees agree up to nulls and empty objects: equal texts at the leaves, and agreement member by member. */
  ghost predicate Agree(t: Json, u: Json)
    decreases Size(t) + Size(u)
  {
    if t.Leaf? || u.Leaf? then t == u
    else if t.Null? && u.Null? then true
    else forall key :: ChildrenAgree(t, u, key)
  }

  ghost predicate ChildrenAgree(t: Json, u: Json, key: string)
    requires t.Object? || u.Object?
    decreases Size(t) + Size(u), 0
  {
    ChildIsSmaller(t, key);
    ChildIsSmaller(u, key);
    Agree(Child(t, key), Child(u, key))
  }

  ghost predicate FindAlike(t: Json, u: Json) {
    forall q :: Find(t, q) == Find(u, q)
  }

  lemma {:induction false} FieldIsPlain(fs: Fields, key: string)
    requires PlainFields(fs)
    ensures Plain(FieldOf(fs, key))
    ensures '/' in key ==> FieldOf(fs, key) == Null
  {
    if fs.Field? {
      FieldIsPlain(fs.rest, key);
    }
  }

  lemma ChildIsPlain(t: Json, key: string)
    requires Plain(t)
    ensures Plain(Child(t, key)) && ('/' in key ==> Child(t, key) == Null)
  {
    if t.Object? {
      FieldIsPlain(t.fields, key);
    }
  }

  /** Stepping into a member is dropping its segment. */
  lemma FindStep(t: Json, key: string, q: string)
    requires '/' !in key && !t.Leaf?
    ensures q == "" || q[0] == '/' ==> Find(t, "/" + key + q) == Find(Child(t, key), q)
    ensures q != "" && q[0] != '/' ==> Find(Child(t, key), q) == None
  {
    if q == "" || q[0] == '/' {
      var p := "/" + key + q;
      assert p[|key| + 1..] == q;
      EntersHead(p, key);
    }
  }

  lemma {:induction false} AgreeFindsAlike(t: Json, u: Json, q: string)
    requires Agree(t, u)
    ensures Find(t, q) == Find(u, q)
    decreases |q|
  {
    if !t.Leaf? && !u.Leaf? && q != "" && q[0] == '/' && (t.Object? || u.Object?) {
      assert ChildrenAgree(t, u, Head(q));
      HeadEnters(q);
      AgreeFindsAlike(Child(t, Head(q)), Child(u, Head(q)), Tail(q));
    }
  }

  lemma ChildrenFindAlike(t: Json, u: Json, key: string)
    requires Plain(t) && Plain(u) && !t.Leaf? && !u.Leaf? && FindAlike(t, u)
    ensures FindAlike(Child(t, key), Child(u, key))
  {
    ChildIsPlain(t, key);
    ChildIsPlain(u, key);
    if '/' !in key {
      forall q ensures Find(Child(t, key), q) == Find(Child(u, key), q) {
        FindStep(t, key, q);
        FindStep(u, key, q);
        assert Find(t, "/" + key + q) == Find(u, "/" + key + q);
      }
    }
  }

  lemma {:induction false} FindAlikeAgrees(t: Json, u: Json)
    requires Plain(t) && Plain(u) && FindAlike(t, u)
    ensures Agree(t, u)
    decreases Size(t) + Size(u)
  {
    assert Find(t, "") == Find(u, "");
    if !t.Leaf? && !u.Leaf? && (t.Object? || u.Object?) {
      forall key ensures ChildrenAgree(t, u, key) {
        ChildrenFindAlike(t, u, key);
        ChildIsSmaller(t, key);
        ChildIsSmaller(u, key);
        ChildIsPlain(t, key);
        ChildIsPlain(u, key);
        FindAlikeAgrees(Child(t, key), Child(u, key));
      }
    }
  }

  /**
   * Over keys without slashes, two trees flatten to the same paths and values exactly when they agree up to nulls and
   * empty objects.
   */
  lemma FlattenEqualIff(t: Json, u: Json)
    requires Plain(t) && Plain(u)
    ensures Flatten(t) == Flatten(u) <==> Agree(t, u)
  {
    forall q ensures Get(Flatten(t), q) == Find(t, q) && Get(Flatten(u), q) == Find(u, q) {
      FlattenIsFind(t, q);
      FlattenIsFind(u, q);
    }
    if Flatten(t) == Flatten(u) {
      FindAlikeAgrees(t, u);
    }
    if Agree(t, u) {
      forall q ensures Get(Flatten(t), q) == Get(Flatten(u), q) {
        AgreeFindsAlike(t, u, q);
      }
      SameLookups(Flatten(t), Flatten(u));
    }
  }

  lemma SameLookups(m: map<string, string>, n: map<string, string>)
    requires forall q :: Get(m, q) == Get(n, q)
    ensures m == n
  {
    forall q ensures q in m <==> q in n {
      assert Get(m, q) == Get(n, q);
    }
    forall q | q in m ensures m[q] == n[q] {
      assert Get(m, q) == Get(n, q);
    }
  }

  /** A slash in a key defeats this: two trees that do not agree flatten alike. */
  lemma SlashInKeyCollides(text: string)
    ensures var t := Object(Field("a/b", Leaf(text), End));
      var u := Object(Field("a", Object(Field("b", Leaf(text), End)), End));
      Flatten(t) == Flatten(u) && !Agree(t, u)
  {
    var leaf := Leaf(text);
    var t, inner := Object(Field("a/b", leaf, End)), Object(Field("b", leaf, End));
    var u := Object(Field("a", inner, End));
    assert "" + "/" + "a/b" == "/a/b" && "" + "/" + "a" == "/a" && "/a" + "/" + "b" == "/a/b";
    var out := Walk("/a/b", leaf, map[]);
    assert WalkFields("", End, out) == out && WalkFields("/a", End, out) == out;
    assert WalkFields("", t.fields, map[]) == out;
    assert WalkFields("/a", inner.fields, map[]) == out;
    assert WalkFields("", u.fields, map[]) == out;
    assert |"a"| != |"a/b"| && FieldOf(End, "a/b") == Null;
    assert Child(t, "a/b") == leaf && Child(u, "a/b") == Null;
    assert !ChildrenAgree(t, u, "a/b");
  }
}

/** The patch between two flattened documents (internal/application/config/service.go, Diff). */
module ConfigDiff {
  import opened ConfigTree
  import opened Options
  import opened Strings

  datatype Op = Add(path: string, value: string) | Remove(path: string) | Replace(path: string, value: string)

  /** Sections 4.1 to 4.3 of RFC 6902: remove and replace need a target. */
  function Patch(doc: Option<map<string, string>>, op: Op): Option<map<string, string>> {
    if doc.None? then None
    else
      match op
      case Add(path, value) => Some(doc.value[path := value])
      case Remove(path) => if path in doc.value then Some(doc.value - {path}) else None
      case Replace(path, value) => if path in doc.value then Some(doc.value[path := value]) else None
  }

  function PatchAll(doc: map<string, string>, ops: seq<Op>): Option<map<string, string>> {
    if ops == [] then Some(doc) else Patch(PatchAll(doc, ops[..|ops| - 1]), ops[|ops| - 1])
  }

  ghost predicate Ascending(keys: seq<string>) {
    forall i, j :: 0 <= i < j < |keys| ==> Before(keys[i], keys[j])
  }

  /** sort.Strings over distinct keys: one more key at its place. */
  function Insert(keys: seq<string>, k: string): seq<string> {
    if keys == [] || Before(k, keys[0]) then [k] + keys else [keys[0]] + Insert(keys[1..], k)
  }

  lemma {:induction false} InsertKeepsOrder(keys: seq<string>, k: string)
    requires Ascending(keys) && k !in keys
    ensures Ascending(Insert(keys, k)) && forall x :: x in Insert(keys, k) <==> x in keys || x == k
    decreases |keys|
  {
    if keys != [] {
      BeforeTotal(k, keys[0]);
      if Before(k, keys[0]) {
        var all := [k] + keys;
        forall i, j | 0 <= i < j < |all| ensures Before(all[i], all[j]) {
          if i == 0 && j > 1 {
            BeforeTransitive(k, keys[0], keys[j - 1]);
          }
        }
      } else {
        InsertFurther(keys, k);
      }
    }
  }

  lemma {:induction false} InsertFurther(keys: seq<string>, k: string)
    requires Ascending(keys) && k !in keys && keys != [] && Before(keys[0], k) && !Before(k, keys[0])
    ensures Ascending(Insert(keys, k)) && forall x :: x in Insert(keys, k) <==> x in keys || x == k
    decreases |keys|, 0
  {
    var rest := Insert(keys[1..], k);
    InsertKeepsOrder(keys[1..], k);
    assert keys == [keys[0]] + keys[1..];
    var all := [keys[0]] + rest;
    forall i, j | 0 <= i < j < |all| ensures Before(all[i], all[j]) {
      if i == 0 {
        assert all[j] in rest;
      }
    }
  }

  method SortedKeys(keys: set<string>) returns (sorted: seq<string>)
    ensures Ascending(sorted) && forall x :: x in sorted <==> x in keys
  {
    sorted := [];
    var left := keys;
    while left != {}
      invariant left <= keys && Ascending(sorted) && forall x :: x in sorted <==> x in keys - left
      decreases left
    {
      var k :| k in left;
      InsertKeepsOrder(sorted, k);
      sorted := Insert(sorted, k);
      left := left - {k};
    }
  }

  /** The operation a key calls for, if any. */
  function OpFor(before: map<string, string>, after: map<string, string>, k: string): seq<Op> {
    if k !in before && k in after then [Add(k, after[k])]
    else if k in before && k !in after then [Remove(k)]
    else if k in before && k in after && before[k] != after[k] then [Replace(k, after[k])]
    else []
  }

  function OpsFor(before: map<string, string>, after: map<string, string>, keys: seq<string>): seq<Op> {
    if keys == [] then []
    else OpsFor(before, after, keys[..|keys| - 1]) + OpFor(before, after, keys[|keys| - 1])
  }

  lemma OpsNext(before: map<string, string>, after: map<string, string>, keys: seq<string>, i: nat)
    requires i < |keys|
    ensures OpsFor(before, after, keys[..i + 1]) == OpsFor(before, after, keys[..i]) + OpFor(before, after, keys[i])
  {
    assert keys[..i + 1][..i] == keys[..i];
  }

  /** Diff: one pass over the sorted keys of both documents. */
  method Diff(before: map<string, string>, after: map<string, string>) returns (ops: seq<Op>)
    ensures IsDiff(before, after, ops)
  {
    var keys := SortedKeys(before.Keys + after.Keys);
    ops := [];
    var i := 0;
    while i < |keys|
      invariant 0 <= i <= |keys| && ops == OpsFor(before, after, keys[..i])
    {
      var k := keys[i];
      OpsNext(before, after, keys, i);
      if k !in before && k in after {
        ops := ops + [Add(k, after[k])];
      } else if k in before && k !in after {
        ops := ops + [Remove(k)];
      } else if k in before && k in after && before[k] != after[k] {
        ops := ops + [Replace(k, after[k])];
      }
      i := i + 1;
    }
    assert keys[..i] == keys;
    assert KeysOf(before, after, keys);
  }

  /** The patch of two documents: the operations their keys call for, in ascending key order. */
  ghost predicate IsDiff(before: map<string, string>, after: map<string, string>, ops: seq<Op>) {
    exists keys :: KeysOf(before, after, keys) && ops == OpsFor(before, after, keys)
  }

  ghost predicate KeysOf(before: map<string, string>, after: map<string, string>, keys: seq<string>) {
    Ascending(keys) && forall x :: x in keys <==> x in before || x in after
  }

  // ---- what a patch does ----

  /** The document when the keys listed so far have been brought up to date. */
  ghost function Updated(before: map<string, string>, after: map<string, string>, done: set<string>)
    : map<string, string>
  {
    map k | k in before.Keys + after.Keys && (if k in done then k in after else k in before)
      :: if k in done then after[k] else before[k]
  }

  lemma PatchOne(before: map<string, string>, after: map<string, string>, done: set<string>, k: string)
    requires k !in done && (k in before || k in after)
    ensures var ops := OpFor(before, after, k);
      var doc := Some(Updated(before, after, done));
      (if ops == [] then doc else Patch(doc, ops[0])) == Some(Updated(before, after, done + {k}))
  {
    var now, next := Updated(before, after, done), Updated(before, after, done + {k});
    if k !in before || (k in after && before[k] != after[k]) {
      assert now[k := after[k]] == next;
    } else if k !in after {
      assert now - {k} == next;
    } else {
      assert now == next;
    }
  }

  ghost function Elements(keys: seq<string>): set<string> {
    set k | k in keys
  }

  lemma PatchAppend(doc: map<string, string>, ops: seq<Op>, more: seq<Op>)
    requires |more| <= 1
    ensures PatchAll(doc, ops + more) == if more == [] then PatchAll(doc, ops) else Patch(PatchAll(doc, ops), more[0])
  {
    if more == [] {
      assert ops + more == ops;
    } else {
      assert (ops + more)[..|ops|] == ops;
    }
  }

  lemma PatchNext(before: map<string, string>, after: map<string, string>, done: set<string>, ops: seq<Op>, k: string)
    requires k !in done && (k in before || k in after)
    requires PatchAll(before, ops) == Some(Updated(before, after, done))
    ensures PatchAll(before, ops + OpFor(before, after, k)) == Some(Updated(before, after, done + {k}))
  {
    PatchOne(before, after, done, k);
    PatchAppend(before, ops, OpFor(before, after, k));
  }

  lemma NothingUpdated(before: map<string, string>, after: map<string, string>)
    ensures Updated(before, after, {}) == before
  {
  }

  /** Different keys, each of one document or the other. */
  ghost predicate Listing(before: map<string, string>, after: map<string, string>, keys: seq<string>) {
    && (forall i, j :: 0 <= i < j < |keys| ==> keys[i] != keys[j])
    && (forall i :: 0 <= i < |keys| ==> keys[i] in before || keys[i] in after)
  }

  lemma ListingShorter(before: map<string, string>, after: map<string, string>, keys: seq<string>)
    requires Listing(before, after, keys) && keys != []
    ensures var rest, k := keys[..|keys| - 1], keys[|keys| - 1];
      && Listing(before, after, rest) && (k in before || k in after)
      && k !in Elements(rest) && Elements(keys) == Elements(rest) + {k}
  {
  }

  lemma {:induction false} PatchedSoFar(before: map<string, string>, after: map<string, string>, keys: seq<string>)
    requires Listing(before, after, keys)
    ensures PatchAll(before, OpsFor(before, after, keys)) == Some(Updated(before, after, Elements(keys)))
    decreases |keys|
  {
    if keys == [] {
      assert Elements(keys) == {};
      NothingUpdated(before, after);
    } else {
      var rest, k := keys[..|keys| - 1], keys[|keys| - 1];
      ListingShorter(before, after, keys);
      PatchedSoFar(before, after, rest);
      PatchNext(before, after, Elements(rest), OpsFor(before, after, rest), k);
    }
  }

  lemma AscendingDiffer(keys: seq<string>)
    requires Ascending(keys)
    ensures forall i, j :: 0 <= i < j < |keys| ==> keys[i] != keys[j]
  {
    forall i, j | 0 <= i < j < |keys| ensures keys[i] != keys[j] {
      BeforeIrreflexive(keys[i]);
    }
  }

  lemma AllUpdated(before: map<string, string>, after: map<string, string>, done: set<string>)
    requires forall k :: k in before || k in after ==> k in done
    ensures Updated(before, after, done) == after
  {
  }

  /** Applying the patch to the first document gives the second, and no operation on the way lacks its target. */
  lemma PatchCompletes(before: map<string, string>, after: map<string, string>, ops: seq<Op>)
    requires IsDiff(before, after, ops)
    ensures PatchAll(before, ops) == Some(after)
  {
    var keys :| KeysOf(before, after, keys) && ops == OpsFor(before, after, keys);
    AscendingDiffer(keys);
    assert forall i :: 0 <= i < |keys| ==> keys[i] in keys;
    PatchedSoFar(before, after, keys);
    AllUpdated(before, after, Elements(keys));
  }

  predicate Changed(before: map<string, string>, after: map<string, string>, k: string) {
    Get(before, k) != Get(after, k)
  }

  ghost predicate InOrder(ops: seq<Op>) {
    forall i, j :: 0 <= i < j < |ops| ==> Before(ops[i].path, ops[j].path)
  }

  /** Every operation is for a changed key among these. */
  ghost predicate OnlyFor(before: map<string, string>, after: map<string, string>, keys: seq<string>, ops: seq<Op>) {
    forall i :: 0 <= i < |ops| ==> ops[i].path in keys && Changed(before, after, ops[i].path)
  }

  ghost predicate HasOp(ops: seq<Op>, k: string) {
    exists i :: 0 <= i < |ops| && ops[i].path == k
  }

  lemma OpForIs(before: map<string, string>, after: map<string, string>, k: string)
    ensures var ops := OpFor(before, after, k);
      if Changed(before, after, k) then |ops| == 1 && ops[0].path == k else ops == []
  {
  }

  lemma {:induction false} OpsOnlyForChanged(before: map<string, string>, after: map<string, string>, keys: seq<string>)
    ensures OnlyFor(before, after, keys, OpsFor(before, after, keys))
    decreases |keys|
  {
    if keys != [] {
      var rest, k := keys[..|keys| - 1], keys[|keys| - 1];
      OpsOnlyForChanged(before, after, rest);
      OpForIs(before, after, k);
      var fewer := OpsFor(before, after, rest);
      forall i | 0 <= i < |fewer| ensures fewer[i].path in keys {
        assert fewer[i].path in rest;
      }
    }
  }

  lemma {:induction false} OpsInOrder(before: map<string, string>, after: map<string, string>, keys: seq<string>)
    requires Ascending(keys)
    ensures InOrder(OpsFor(before, after, keys))
    decreases |keys|
  {
    if keys != [] {
      var rest, k := keys[..|keys| - 1], keys[|keys| - 1];
      OpsInOrder(before, after, rest);
      OpsOnlyForChanged(before, after, rest);
      OpForIs(before, after, k);
      var fewer := OpsFor(before, after, rest);
      forall i | 0 <= i < |fewer| ensures Before(fewer[i].path, k) {
        var j :| 0 <= j < |rest| && rest[j] == fewer[i].path;
        assert Before(keys[j], k);
      }
    }
  }

  lemma {:induction false} ChangedHasOp(
      before: map<string, string>, after: map<string, string>, keys: seq<string>, k: string)
    requires k in keys && Changed(before, after, k)
    ensures HasOp(OpsFor(before, after, keys), k)
    decreases |keys|
  {
    var rest, last := keys[..|keys| - 1], keys[|keys| - 1];
    var fewer, ops := OpsFor(before, after, rest), OpsFor(before, after, keys);
    OpForIs(before, after, last);
    if last == k {
      assert ops[|fewer|].path == k;
    } else {
      ChangedHasOp(before, after, rest, k);
      var i :| 0 <= i < |fewer| && fewer[i].path == k;
      assert ops[i] == fewer[i];
    }
  }

  /**
   * One operation for each path that changed and for no other, in strictly ascending order; none exactly when nothing
   * changed.
   */
  lemma PatchIsMinimal(before: map<string, string>, after: map<string, string>, ops: seq<Op>)
    requires IsDiff(before, after, ops)
    ensures InOrder(ops)
    ensures forall k :: Changed(before, after, k) <==> HasOp(ops, k)
    ensures ops == [] <==> before == after
  {
    var keys :| KeysOf(before, after, keys) && ops == OpsFor(before, after, keys);
    OpsInOrder(before, after, keys);
    OpsOnlyForChanged(before, after, keys);
    forall k | Changed(before, after, k) ensures HasOp(ops, k) {
      ChangedHasOp(before, after, keys, k);
    }
    PatchCompletes(before, after, ops);
  }

  /**
   * A published document's patch over the previous one is empty exactly when the two agree up to nulls and empty
   * objects.
   */
  lemma EmptyPatchIff(t: Json, u: Json, ops: seq<Op>)
    requires Plain(t) && Plain(u) && IsDiff(Flatten(t), Flatten(u), ops)
    ensures ops == [] <==> Agree(t, u)
  {
    PatchIsMinimal(Flatten(t), Flatten(u), ops);
    FlattenEqualIff(t, u);
  }
}
