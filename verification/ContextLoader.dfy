/** The fail-static merchant snapshot (internal/application/payment/context_loader.go). */
module ContextLoaderSpec {
  import opened Options

  type Merchant = string
  type Request = nat

  /** What assemble read: the merchant and its connections, and the configuration when it could be resolved. */
  datatype Body = Body(content: string, configured: bool)

  datatype Snapshot = Snapshot(body: Body, age: int)

  const DEFAULT_STALENESS := 900_000_000_000

  /** The cliff NewContextLoader settles on, in nanoseconds: fifteen minutes unless configured. */
  function Cliff(configured: int): int {
    if configured <= 0 then DEFAULT_STALENESS else configured
  }

  /**
   * A load, in a request that carries a memo or in none, at a snapshot age and with what assemble would
   * return (none when it fails); or an invalidation.
   */
  datatype Step =
    | Load(request: Option<Request>, id: Merchant, age: int, assembled: Option<Body>)
    | Invalidate(id: Merchant)

  /** The loader's maps: last known good, and each request's memo. */
  datatype Loader = Loader(known: map<Merchant, Snapshot>, memos: map<(Request, Merchant), Snapshot>)

  const EMPTY := Loader(map[], map[])

  function Memo(l: Loader, request: Option<Request>, id: Merchant): Option<Snapshot> {
    if request.Some? && (request.value, id) in l.memos then Some(l.memos[(request.value, id)]) else None
  }

  function Memoize(l: Loader, request: Option<Request>, id: Merchant, s: Snapshot): Loader {
    if request.None? then l else l.(memos := l.memos[(request.value, id) := s])
  }

  /** What a load answers, and the maps after it. */
  function LoadSpec(cliff: int, l: Loader, s: Step): (Loader, Option<Snapshot>)
    requires s.Load?
  {
    if s.id == "" then (l, None)
    else if Memo(l, s.request, s.id).Some? then (l, Memo(l, s.request, s.id))
    else if s.age > cliff then
      if s.id !in l.known then (l, None)
      else
        var snap := l.known[s.id].(age := s.age);
        (Memoize(l, s.request, s.id, snap), Some(snap))
    else if s.assembled.None? then (l, None)
    else
      var snap := Snapshot(s.assembled.value, s.age);
      (Memoize(l.(known := l.known[s.id := snap]), s.request, s.id, snap), Some(snap))
  }

  function Apply(cliff: int, l: Loader, s: Step): Loader {
    if s.Load? then LoadSpec(cliff, l, s).0 else l.(known := l.known - {s.id})
  }

  // ---- the same, told from what happened ----

  datatype History = Quiet | Past(before: History, last: Step)

  function Run(cliff: int, h: History): Loader {
    match h
    case Quiet => EMPTY
    case Past(before, s) => Apply(cliff, Run(cliff, before), s)
  }

  /** The first successful load of this merchant in this request. */
  function Answered(cliff: int, h: History, request: Option<Request>, id: Merchant): Option<Snapshot>
    decreases h, 0
  {
    if h.Quiet? || request.None? then None
    else
      var earlier := Answered(cliff, h.before, request, id);
      if earlier.Some? then earlier
      else if h.last.Load? && h.last.request == request && h.last.id == id then Answer(cliff, h.before, h.last)
      else None
  }

  /** The latest snapshot a load within tolerance assembled for this merchant since it was last invalidated. */
  function LastGood(cliff: int, h: History, id: Merchant): Option<Snapshot>
    decreases h, 0
  {
    if h.Quiet? then None
    else if h.last.id != id then LastGood(cliff, h.before, id)
    else if h.last.Invalidate? then None
    else if Assembles(cliff, h.before, h.last) then Some(Snapshot(h.last.assembled.value, h.last.age))
    else LastGood(cliff, h.before, id)
  }

  /** The load is within tolerance, is not answered by its request's memo, and its reads succeed. */
  predicate Assembles(cliff: int, h: History, s: Step)
    requires s.Load?
    decreases h, 1
  {
    s.id != "" && Answered(cliff, h, s.request, s.id).None? && s.age <= cliff && s.assembled.Some?
  }

  /** What a load answers after a history. */
  function Answer(cliff: int, h: History, s: Step): Option<Snapshot>
    requires s.Load?
    decreases h, 1
  {
    if s.id == "" then None
    else if Answered(cliff, h, s.request, s.id).Some? then Answered(cliff, h, s.request, s.id)
    else if s.age > cliff then
      var good := LastGood(cliff, h, s.id);
      if good.Some? then Some(good.value.(age := s.age)) else None
    else if s.assembled.Some? then Some(Snapshot(s.assembled.value, s.age))
    else None
  }
}

module ContextLoader {
  import opened ContextLoaderSpec
  import opened Options

  /** The maps hold exactly what the history says. */
  ghost predicate Reflects(cliff: int, h: History, l: Loader) {
    && (forall id :: Known(l, id) == LastGood(cliff, h, id))
    && (forall r, id :: Memo(l, r, id) == Answered(cliff, h, r, id))
  }

  function Known(l: Loader, id: Merchant): Option<Snapshot> {
    if id in l.known then Some(l.known[id]) else None
  }

  lemma AnswersAgree(cliff: int, h: History, l: Loader, s: Step)
    requires s.Load? && Reflects(cliff, h, l)
    ensures LoadSpec(cliff, l, s).1 == Answer(cliff, h, s)
  {
  }

  lemma StepReflects(cliff: int, h: History, l: Loader, s: Step)
    requires Reflects(cliff, h, l)
    ensures Reflects(cliff, Past(h, s), Apply(cliff, l, s))
  {
    var after := Apply(cliff, l, s);
    if s.Load? {
      AnswersAgree(cliff, h, l, s);
    }
    forall id ensures Known(after, id) == LastGood(cliff, Past(h, s), id) {
      assert Known(l, id) == LastGood(cliff, h, id);
      if s.Load? {
        assert Memo(l, s.request, s.id) == Answered(cliff, h, s.request, s.id);
      }
    }
    forall r, id ensures Memo(after, r, id) == Answered(cliff, Past(h, s), r, id) {
      assert Memo(l, r, id) == Answered(cliff, h, r, id);
    }
  }

  lemma {:induction false} RunReflects(cliff: int, h: History)
    ensures Reflects(cliff, h, Run(cliff, h))
  {
    if h.Past? {
      RunReflects(cliff, h.before);
      StepReflects(cliff, h.before, Run(cliff, h.before), h.last);
    }
  }

  /** After any run, a load answers what the history of loads and invalidations calls for. */
  lemma LoadAnswersHistory(cliff: int, h: History, s: Step)
    requires s.Load?
    ensures LoadSpec(cliff, Run(cliff, h), s).1 == Answer(cliff, h, s)
  {
    RunReflects(cliff, h);
    AnswersAgree(cliff, h, Run(cliff, h), s);
  }

  /**
   * Past the cliff, and not answered by its request's memo, a load succeeds exactly when a load within tolerance
   * assembled the merchant since its last invalidation, and then returns the latest such snapshot, only aged.
   */
  lemma PastTheCliff(cliff: int, h: History, s: Step)
    requires s.Load? && s.id != "" && s.age > cliff && Answered(cliff, h, s.request, s.id).None?
    ensures var answer, good := LoadSpec(cliff, Run(cliff, h), s).1, LastGood(cliff, h, s.id);
      && (answer.Some? <==> good.Some?)
      && (good.Some? ==> answer == Some(Snapshot(good.value.body, s.age)))
  {
    LoadAnswersHistory(cliff, h, s);
  }

  /** later is h with more steps after it. */
  predicate Follows(h: History, later: History) {
    later == h || (later.Past? && Follows(h, later.before))
  }

  lemma {:induction false} AnsweredStays(cliff: int, h: History, later: History, r: Option<Request>, id: Merchant)
    requires Follows(h, later) && Answered(cliff, h, r, id).Some?
    ensures Answered(cliff, later, r, id) == Answered(cliff, h, r, id)
    decreases later
  {
    if later != h {
      AnsweredStays(cliff, h, later.before, r, id);
    }
  }

  /**
   * Within one request every successful load of a merchant returns the same snapshot, whatever is published,
   * invalidated or fails in between.
   */
  lemma SameWithinRequest(cliff: int, h: History, first: Step, later: History, second: Step)
    requires first.Load? && second.Load? && first.request.Some? && second.request == first.request
        && second.id == first.id
    requires Answer(cliff, h, first).Some? && Follows(Past(h, first), later)
    ensures LoadSpec(cliff, Run(cliff, later), second).1 == LoadSpec(cliff, Run(cliff, h), first).1
        == Answer(cliff, h, first)
  {
    LoadAnswersHistory(cliff, h, first);
    LoadAnswersHistory(cliff, later, second);
    AnsweredStays(cliff, Past(h, first), later, first.request, first.id);
  }

  /** An invalidation outlives the cliff for every request that had not loaded the merchant before. */
  lemma {:induction false} SuspensionSurvivesOutage(cliff: int, h: History, outage: History, s: Step)
    requires Follows(Past(h, Invalidate(s.id)), outage) && s.Load?
    requires NoneAssembled(cliff, Past(h, Invalidate(s.id)), outage, s.id)
    requires s.age > cliff && Answered(cliff, outage, s.request, s.id).None?
    ensures LoadSpec(cliff, Run(cliff, outage), s).1 == None
  {
    StaysUnknown(cliff, Past(h, Invalidate(s.id)), outage, s.id);
    LoadAnswersHistory(cliff, outage, s);
  }

  /** No load between h and later assembles the merchant. */
  ghost predicate NoneAssembled(cliff: int, h: History, later: History, id: Merchant)
    requires Follows(h, later)
    decreases later
  {
    later == h ||
      (NoneAssembled(cliff, h, later.before, id)
       && !(later.last.Load? && later.last.id == id && Assembles(cliff, later.before, later.last)))
  }

  lemma {:induction false} StaysUnknown(cliff: int, h: History, later: History, id: Merchant)
    requires Follows(h, later) && NoneAssembled(cliff, h, later, id) && LastGood(cliff, h, id).None?
    ensures LastGood(cliff, later, id).None?
    decreases later
  {
    if later != h {
      StaysUnknown(cliff, h, later.before, id);
    }
  }

  // ----- whether there is a policy -----

  /** Between h and later the merchant is neither assembled nor invalidated. */
  ghost predicate Undisturbed(cliff: int, h: History, later: History, id: Merchant)
    requires Follows(h, later)
    decreases later
  {
    later == h ||
      (Undisturbed(cliff, h, later.before, id)
       && (later.last.id == id ==> later.last.Load? && !Assembles(cliff, later.before, later.last)))
  }

  /** Of the loads that assembled the merchant since its last invalidation, `a`, which followed p, is the latest. */
  ghost predicate LatestAssembled(cliff: int, p: History, a: Step, h: History, id: Merchant) {
    && a.Load? && a.id == id && Assembles(cliff, p, a)
    && Follows(Past(p, a), h) && Undisturbed(cliff, Past(p, a), h, id)
  }

  lemma {:induction false} LatestIsLastGood(cliff: int, p: History, a: Step, h: History, id: Merchant)
    requires LatestAssembled(cliff, p, a, h, id)
    ensures LastGood(cliff, h, id) == Some(Snapshot(a.assembled.value, a.age))
    decreases h
  {
    if h != Past(p, a) {
      LatestIsLastGood(cliff, p, a, h.before, id);
    }
  }

  lemma {:induction false} LastGoodWasAssembled(cliff: int, h: History, id: Merchant) returns (p: History, a: Step)
    requires LastGood(cliff, h, id).Some?
    ensures LatestAssembled(cliff, p, a, h, id)
    decreases h
  {
    if h.last.id == id && h.last.Load? && Assembles(cliff, h.before, h.last) {
      p, a := h.before, h.last;
    } else {
      p, a := LastGoodWasAssembled(cliff, h.before, id);
    }
  }

  /** A load past the cliff that its request's memo does not answer. */
  predicate Stale(cliff: int, h: History, s: Step) {
    s.Load? && s.id != "" && s.age > cliff && Answered(cliff, h, s.request, s.id).None?
  }

  /** The load is answered, with a policy or without one. */
  predicate Serves(cliff: int, h: History, s: Step, policy: bool)
    requires s.Load?
  {
    var answer := LoadSpec(cliff, Run(cliff, h), s).1;
    answer.Some? && answer.value.body.configured == policy
  }

  /**
   * Past the cliff a merchant is served with (without) a policy exactly if the latest load to assemble it had one
   * (none).
   */
  lemma PolicyServedIff(cliff: int, h: History, s: Step, policy: bool)
    requires Stale(cliff, h, s)
    ensures Serves(cliff, h, s, policy) <==>
      exists p, a :: LatestAssembled(cliff, p, a, h, s.id) && a.assembled.value.configured == policy
  {
    PastTheCliff(cliff, h, s);
    if Serves(cliff, h, s, policy) {
      var p, a := LastGoodWasAssembled(cliff, h, s.id);
      LatestIsLastGood(cliff, p, a, h, s.id);
    }
    forall p, a | LatestAssembled(cliff, p, a, h, s.id) && a.assembled.value.configured == policy
      ensures Serves(cliff, h, s, policy)
    {
      LatestIsLastGood(cliff, p, a, h, s.id);
    }
  }

  /** No load of the run is served past the cliff without a policy. */
  ghost predicate NeverWithoutPolicy(cliff: int, h: History) {
    forall g, s :: Follows(Past(g, s), h) && Stale(cliff, g, s) ==> !Serves(cliff, g, s, false)
  }

  /** Whenever a merchant is loaded past the cliff, the latest load to assemble it had a policy. */
  ghost predicate AlwaysConfigured(cliff: int, h: History) {
    forall g, s, p, a :: Follows(Past(g, s), h) && Stale(cliff, g, s) && LatestAssembled(cliff, p, a, g, s.id)
      ==> a.assembled.value.configured
  }

  /** The promise over a whole run, and exactly when it is kept. */
  lemma PolicyKeptIff(cliff: int, h: History)
    ensures NeverWithoutPolicy(cliff, h) <==> AlwaysConfigured(cliff, h)
  {
    forall g, s | Follows(Past(g, s), h) && Stale(cliff, g, s)
      ensures Serves(cliff, g, s, false) <==>
        exists p, a :: LatestAssembled(cliff, p, a, g, s.id) && a.assembled.value.configured == false
    {
      PolicyServedIff(cliff, g, s, false);
    }
  }

  /**
   * It is not always kept: a load within tolerance whose configuration could not be resolved replaces the one before
   * it, and is what is served past the cliff.
   */
  lemma LastGoodMayLackPolicy(cliff: int, id: Merchant, age: int)
    requires id != "" && age > cliff >= 0
    ensures var h := Past(Past(Quiet, Load(None, id, 0, Some(Body("m", true)))),
        Load(None, id, 0, Some(Body("m", false))));
      !NeverWithoutPolicy(cliff, Past(h, Load(None, id, age, None)))
  {
    var first, second, third :=
      Load(None, id, 0, Some(Body("m", true))), Load(None, id, 0, Some(Body("m", false))), Load(None, id, age, None);
    var g := Past(Quiet, first);
    assert LatestAssembled(cliff, g, second, Past(g, second), id);
    PolicyServedIff(cliff, Past(g, second), third, false);
    assert Follows(Past(Past(g, second), third), Past(Past(g, second), third));
  }
}

/** The loader as the code runs it: two maps updated by Load, memo and Invalidate. */
module ContextLoaderService {
  import opened ContextLoaderSpec
  import opened Options

  class ContextLoader {
    const cliff: int
    var known: map<Merchant, Snapshot>
    var memos: map<(Request, Merchant), Snapshot>

    constructor (maxStaleness: int)
      ensures cliff == Cliff(maxStaleness) && cliff > 0 && View() == EMPTY
    {
      cliff := Cliff(maxStaleness);
      known, memos := map[], map[];
    }

    function View(): Loader
      reads this
    {
      Loader(known, memos)
    }

    method RecordMemo(request: Option<Request>, id: Merchant, s: Snapshot)
      modifies this`memos
      ensures View() == Memoize(old(View()), request, id, s)
    {
      if request.Some? {
        memos := memos[(request.value, id) := s];
      }
    }

    method Load(request: Option<Request>, id: Merchant, age: int, assembled: Option<Body>) returns (r: Option<Snapshot>)
      modifies this
      ensures (View(), r) == LoadSpec(cliff, old(View()), Step.Load(request, id, age, assembled))
    {
      if id == "" { return None; }
      if request.Some? && (request.value, id) in memos {
        return Some(memos[(request.value, id)]);
      }
      if age > cliff {
        if id !in known { return None; }
        var aged := known[id].(age := age);
        RecordMemo(request, id, aged);
        return Some(aged);
      }
      if assembled.None? { return None; }
      var snap := Snapshot(assembled.value, age);
      known := known[id := snap];
      RecordMemo(request, id, snap);
      return Some(snap);
    }

    method Invalidate(id: Merchant)
      modifies this`known
      ensures View() == Apply(cliff, old(View()), Step.Invalidate(id))
    {
      known := known - {id};
    }
  }
}
