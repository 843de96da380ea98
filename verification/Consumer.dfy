/**
 * The idempotent event consumer (internal/events/consumer.go): at-least-once delivery made
 * effectively-once by a dedup row committed together with the handler's work.
 *
 * The database is a value, each transaction is one step of it, and other consumers' transactions may
 * commit between any two transactions of one delivery.
 */
module ConsumerSpec {
  import opened ApiError
  import opened Options

  datatype Key = Key(group: string, event: string)

  /** What HandleTx did: left a new store, or refused with an error. */
  datatype Applied<S> = Done(store: S) | Failed(error: Err)

  /** What DesiredEndStateHolds answered. */
  datatype Checked = Holds(holds: bool) | CheckFailed(error: Err)

  datatype Delivery<!S> = Delivery(key: Key, handler: S -> Applied<S>)

  /** Everything around a transaction that can fail: opening it, the dedup insert, the commit. */
  datatype Faults = Faults(begin: Option<Err>, mark: Option<Err>, commit: Option<Err>)

  /** The store, the dedup rows, and (as history) the deliveries whose effect was committed. */
  datatype Db<!S> = Db(store: S, dedup: set<Key>, history: seq<Delivery<S>>)

  /** A transaction some consumer runs: the handler's, or the lone dedup insert. */
  datatype Step<!S> = Work(d: Delivery<S>, f: Faults) | Mark(key: Key, g: Faults)

  const DUPLICATE := "errDuplicate"

  /** The error the transaction of HandleEnvelope returns; none when it committed. */
  function WorkError<S>(db: Db<S>, d: Delivery<S>, f: Faults): Option<Err> {
    if f.begin.Some? then f.begin
    else if f.mark.Some? then f.mark
    else if d.key in db.dedup then Some(Sentinel(DUPLICATE))
    else match d.handler(db.store)
      case Failed(error) => Some(error)
      case Done(_) => f.commit
  }

  /** The callback reached the dedup insert and the row was already there. */
  predicate SawDuplicate<S>(db: Db<S>, d: Delivery<S>, f: Faults) {
    f.begin.None? && f.mark.None? && d.key in db.dedup
  }

  function MarkError(f: Faults): Option<Err> {
    if f.begin.Some? then f.begin else if f.mark.Some? then f.mark else f.commit
  }

  /** A transaction that errs rolls back and leaves the database as it was. */
  function Exec<S>(db: Db<S>, step: Step<S>): Db<S> {
    match step
    case Work(d, f) =>
      if WorkError(db, d, f).Some? then db
      else (match d.handler(db.store)
            case Done(store) => Db(store, db.dedup + {d.key}, db.history + [d])
            case Failed(_) => db)
    case Mark(key, f) =>
      if MarkError(f).Some? then db else db.(dedup := db.dedup + {key})
  }

  function Run<S>(db: Db<S>, steps: seq<Step<S>>): Db<S> {
    if steps == [] then db else Exec(Run(db, steps[..|steps| - 1]), steps[|steps| - 1])
  }

  predicate IsInvariantConflict(e: Err) {
    match CategoryOf(e)
    case CatBusinessRule => true
    case CatConflict => CodeOf(e) == PaymentAlreadyProcessed && !IsRetryable(e)
    case _ => false
  }

  function NonRetryableError(e: Err): Err {
    if As(e).Some? then e else Wrap(e, InternalError)
  }

  datatype Outcome = Processed | Duplicate | AlreadyApplied | Retryable | NonRetryable | InvariantConflict

  /** One handled delivery: the database after it, what the broker is told, what was recorded, who ran in between. */
  datatype Handled<!S> = Handled(db: Db<S>, err: Option<Err>, outcome: Outcome, others: seq<Step<S>>)

  /** What one call meets: its transactions' faults, its checker if any, and the transactions of others. */
  datatype Call<!S> = Call(
    work: Faults, checker: Option<S -> Checked>, check: Faults, mark: Faults,
    beforeCheck: seq<Step<S>>, beforeMark: seq<Step<S>>)

  /** The end-state check runs in a transaction of its own that writes nothing. */
  function CheckAnswer<S>(store: S, checker: S -> Checked, f: Faults): Checked {
    if f.begin.Some? then CheckFailed(f.begin.value)
    else match checker(store)
      case CheckFailed(e) => CheckFailed(e)
      case Holds(h) => if f.commit.Some? then CheckFailed(f.commit.value) else Holds(h)
  }

  function ResolveConflict<S>(db: Db<S>, key: Key, cause: Err, c: Call<S>): Handled<S> {
    if c.checker.None? then
      Handled(db, Some(Wrap(cause, InvalidStateTransition)), InvariantConflict, [])
    else
      var checked := Run(db, c.beforeCheck);
      match CheckAnswer(checked.store, c.checker.value, c.check)
      case CheckFailed(e) => Handled(checked, Some(Wrap(e, DependencyFailure)), Retryable, c.beforeCheck)
      case Holds(holds) =>
        if !holds then Handled(checked, Some(Wrap(cause, InvalidStateTransition)), InvariantConflict, c.beforeCheck)
        else MarkApplied(checked, key, c)
  }

  function MarkApplied<S>(checked: Db<S>, key: Key, c: Call<S>): Handled<S> {
    var before := Run(checked, c.beforeMark);
    var failed := MarkError(c.mark);
    var others := c.beforeCheck + c.beforeMark;
    if failed.Some? then Handled(before, Some(Wrap(failed.value, DependencyFailure)), Retryable, others)
    else Handled(Exec(before, Mark(key, c.mark)), None, AlreadyApplied, others)
  }

  function Handle<S>(db: Db<S>, d: Delivery<S>, c: Call<S>): Handled<S> {
    var after := Exec(db, Work(d, c.work));
    var err := WorkError(db, d, c.work);
    if err.None? then Handled(after, None, Processed, [])
    else if SawDuplicate(db, d, c.work) && Is(err.value, DUPLICATE) then Handled(after, None, Duplicate, [])
    else if IsInvariantConflict(err.value) then ResolveConflict(after, d.key, err.value, c)
    else if IsRetryable(err.value) then Handled(after, err, Retryable, [])
    else Handled(after, Some(NonRetryableError(err.value)), NonRetryable, [])
  }

  /** A message as it comes off the broker: an envelope, or bytes Decode refuses. */
  datatype Message<!S> = Envelope(d: Delivery<S>) | Undecodable(why: Err) | Invalid

  /** The error Decode returns for a message it refuses. */
  function DecodeError<S>(m: Message<S>): Err
    requires !m.Envelope?
  {
    match m
    case Undecodable(why) => Wrap(why, ValidationFailed)
    case Invalid => New(ValidationFailed)
  }

  function Receive<S>(db: Db<S>, m: Message<S>, c: Call<S>): Handled<S> {
    if m.Envelope? then Handle(db, m.d, c) else Handled(db, Some(DecodeError(m)), NonRetryable, [])
  }

  /** One turn of a run: this consumer receives a message, or other consumers' transactions commit. */
  datatype Turn<!S> = Received(m: Message<S>, c: Call<S>) | Others(steps: seq<Step<S>>)

  function TakeTurn<S>(db: Db<S>, t: Turn<S>): Db<S> {
    match t
    case Received(m, c) => Receive(db, m, c).db
    case Others(steps) => Run(db, steps)
  }

  function Play<S>(db: Db<S>, turns: seq<Turn<S>>): Db<S> {
    if turns == [] then db else TakeTurn(Play(db, turns[..|turns| - 1]), turns[|turns| - 1])
  }
}

/** The consumer as the code runs it: one object whose methods open transactions on a shared database. */
module Consumer {
  import opened ApiError
  import opened ConsumerSpec
  import opened Options

  class IdempotentHandler<S> {
    var store: S
    var dedup: set<Key>
    var history: seq<Delivery<S>>
    var recorded: seq<Outcome>

    constructor (store: S)
      ensures View() == Db(store, {}, []) && recorded == []
    {
      this.store, dedup, history, recorded := store, {}, [], [];
    }

    function View(): Db<S>
      reads this
    {
      Db(store, dedup, history)
    }

    /** Transactions other consumers commit meanwhile. */
    method Interleave(steps: seq<Step<S>>)
      modifies this
      ensures View() == Run(old(View()), steps) && recorded == old(recorded)
    {
      var i := 0;
      while i < |steps|
        invariant 0 <= i <= |steps|
        invariant View() == Run(old(View()), steps[..i]) && recorded == old(recorded)
      {
        var next := Exec(View(), steps[i]);
        assert steps[..i + 1][..i] == steps[..i];
        store, dedup, history := next.store, next.dedup, next.history;
        i := i + 1;
      }
      assert steps[..|steps|] == steps;
    }

    /** The unit of work around the dedup insert and the handler. */
    method WorkWithin(d: Delivery<S>, f: Faults) returns (err: Option<Err>, duplicate: bool)
      modifies this
      ensures View() == Exec(old(View()), Work(d, f)) && recorded == old(recorded)
      ensures err == WorkError(old(View()), d, f) && duplicate == SawDuplicate(old(View()), d, f)
    {
      duplicate := false;
      if f.begin.Some? { return f.begin, false; }
      if f.mark.Some? { return f.mark, false; }
      if d.key in dedup { return Some(Sentinel(DUPLICATE)), true; }
      match d.handler(store)
      case Failed(e) => return Some(e), false;
      case Done(next) =>
        if f.commit.Some? { return f.commit, false; }
        store, dedup, history := next, dedup + {d.key}, history + [d];
        return None, false;
    }

    /** The unit of work around the lone dedup insert. */
    method MarkWithin(key: Key, f: Faults) returns (err: Option<Err>)
      modifies this
      ensures View() == Exec(old(View()), Mark(key, f)) && recorded == old(recorded)
      ensures err == MarkError(f)
    {
      if f.begin.Some? { return f.begin; }
      if f.mark.Some? { return f.mark; }
      if f.commit.Some? { return f.commit; }
      dedup := dedup + {key};
      return None;
    }

    method ResolveInvariantConflict(key: Key, cause: Err, c: Call<S>) returns (err: Option<Err>)
      modifies this
      ensures var h := ResolveConflict(old(View()), key, cause, c);
        View() == h.db && err == h.err && recorded == old(recorded) + [h.outcome]
    {
      if c.checker.None? {
        recorded := recorded + [InvariantConflict];
        return Some(Wrap(cause, InvalidStateTransition));
      }
      Interleave(c.beforeCheck);
      match CheckAnswer(store, c.checker.value, c.check)
      case CheckFailed(e) =>
        recorded := recorded + [Retryable];
        return Some(Wrap(e, DependencyFailure));
      case Holds(holds) =>
        if !holds {
          recorded := recorded + [InvariantConflict];
          return Some(Wrap(cause, InvalidStateTransition));
        }
        Interleave(c.beforeMark);
        var failed := MarkWithin(key, c.mark);
        if failed.Some? {
          recorded := recorded + [Retryable];
          return Some(Wrap(failed.value, DependencyFailure));
        }
        recorded := recorded + [AlreadyApplied];
        return None;
    }

    /** HandleEnvelope records exactly one outcome and does to the database what `Handle` says. */
    method HandleEnvelope(d: Delivery<S>, c: Call<S>) returns (err: Option<Err>)
      modifies this
      ensures var h := Handle(old(View()), d, c);
        View() == h.db && err == h.err && recorded == old(recorded) + [h.outcome]
    {
      var failed, duplicate := WorkWithin(d, c.work);
      if failed.Some? && duplicate && Is(failed.value, DUPLICATE) {
        recorded := recorded + [Duplicate];
        return None;
      }
      if failed.None? {
        recorded := recorded + [Processed];
        return None;
      }
      if IsInvariantConflict(failed.value) {
        err := ResolveInvariantConflict(d.key, failed.value, c);
        return;
      }
      if IsRetryable(failed.value) {
        recorded := recorded + [Retryable];
        return failed;
      }
      recorded := recorded + [NonRetryable];
      return Some(NonRetryableError(failed.value));
    }

    method Receive(m: Message<S>, c: Call<S>) returns (err: Option<Err>)
      modifies this
      ensures var h := ConsumerSpec.Receive(old(View()), m, c);
        View() == h.db && err == h.err && recorded == old(recorded) + [h.outcome]
    {
      if !m.Envelope? {
        recorded := recorded + [NonRetryable];
        return Some(DecodeError(m));
      }
      err := HandleEnvelope(m.d, c);
    }
  }
}

module ConsumerTheorems {
  import opened ApiError
  import opened ConsumerSpec
  import opened Options

  /** The effects in history, applied to the initial store in order. */
  function Replay<S>(store: S, history: seq<Delivery<S>>): Option<S> {
    if history == [] then Some(store)
    else
      var before := Replay(store, history[..|history| - 1]);
      if before.None? then None
      else match history[|history| - 1].handler(before.value)
        case Done(after) => Some(after)
        case Failed(_) => None
  }

  /** No two committed effects share a (group, event), every one has its dedup row, and nothing else moved the store. */
  ghost predicate EffectivelyOnce<S>(initial: S, db: Db<S>) {
    && (forall i, j :: 0 <= i < j < |db.history| ==> db.history[i].key != db.history[j].key)
    && (forall i :: 0 <= i < |db.history| ==> db.history[i].key in db.dedup)
    && Replay(initial, db.history) == Some(db.store)
  }

  lemma ExecKeepsOnce<S>(initial: S, db: Db<S>, step: Step<S>)
    requires EffectivelyOnce(initial, db)
    ensures EffectivelyOnce(initial, Exec(db, step))
  {
  }

  lemma {:induction false} RunKeepsOnce<S>(initial: S, db: Db<S>, steps: seq<Step<S>>)
    requires EffectivelyOnce(initial, db)
    ensures EffectivelyOnce(initial, Run(db, steps))
    decreases |steps|
  {
    if steps != [] {
      RunKeepsOnce(initial, db, steps[..|steps| - 1]);
      ExecKeepsOnce(initial, Run(db, steps[..|steps| - 1]), steps[|steps| - 1]);
    }
  }

  // ----- a delivery is a run of transactions, its own and those of others -----

  /** The transactions that commit or roll back while ResolveConflict is at work, in order. */
  function ResolveSteps<S>(db: Db<S>, key: Key, c: Call<S>): seq<Step<S>> {
    if c.checker.None? then []
    else
      var checked := Run(db, c.beforeCheck);
      match CheckAnswer(checked.store, c.checker.value, c.check)
      case CheckFailed(_) => c.beforeCheck
      case Holds(holds) => if holds then c.beforeCheck + c.beforeMark + [Mark(key, c.mark)] else c.beforeCheck
  }

  function HandleSteps<S>(db: Db<S>, d: Delivery<S>, c: Call<S>): seq<Step<S>> {
    var work, err := Work(d, c.work), WorkError(db, d, c.work);
    if err.Some? && !(SawDuplicate(db, d, c.work) && Is(err.value, DUPLICATE)) && IsInvariantConflict(err.value)
    then [work] + ResolveSteps(Exec(db, work), d.key, c)
    else [work]
  }

  lemma RunOne<S>(db: Db<S>, step: Step<S>)
    ensures Run(db, [step]) == Exec(db, step)
  {
    assert [step][..0] == [];
  }

  lemma MarkRuns<S>(db: Db<S>, key: Key, c: Call<S>)
    ensures MarkApplied(Run(db, c.beforeCheck), key, c).db
        == Run(db, c.beforeCheck + c.beforeMark + [Mark(key, c.mark)])
  {
    RunAppends(db, c.beforeCheck, c.beforeMark);
    RunAppends(db, c.beforeCheck + c.beforeMark, [Mark(key, c.mark)]);
    RunOne(Run(db, c.beforeCheck + c.beforeMark), Mark(key, c.mark));
  }

  lemma ResolveRuns<S>(db: Db<S>, key: Key, cause: Err, c: Call<S>)
    ensures ResolveConflict(db, key, cause, c).db == Run(db, ResolveSteps(db, key, c))
  {
    MarkRuns(db, key, c);
  }

  /** Handling a delivery does to the database what its transactions do, in their order, and nothing else. */
  lemma HandleRuns<S>(db: Db<S>, d: Delivery<S>, c: Call<S>)
    ensures Handle(db, d, c).db == Run(db, HandleSteps(db, d, c))
  {
    var work, err := Work(d, c.work), WorkError(db, d, c.work);
    RunOne(db, work);
    if err.Some? {
      ResolveRuns(Exec(db, work), d.key, err.value, c);
      RunAppends(db, [work], ResolveSteps(Exec(db, work), d.key, c));
    }
  }

  lemma TurnKeepsOnce<S>(initial: S, db: Db<S>, t: Turn<S>)
    requires EffectivelyOnce(initial, db)
    ensures EffectivelyOnce(initial, TakeTurn(db, t))
  {
    match t
    case Others(steps) => RunKeepsOnce(initial, db, steps);
    case Received(m, c) =>
      if m.Envelope? {
        HandleRuns(db, m.d, c);
        RunKeepsOnce(initial, db, HandleSteps(db, m.d, c));
      }
  }

  /**
   * Whatever messages are received, in any order, as often as the broker likes, with any faults and with the
   * transactions of other consumers between and inside the calls: every event takes effect once at most per group.
   */
  lemma {:induction false} AlwaysEffectivelyOnce<S>(initial: S, db: Db<S>, turns: seq<Turn<S>>)
    requires EffectivelyOnce(initial, db)
    ensures EffectivelyOnce(initial, Play(db, turns))
    decreases |turns|
  {
    if turns != [] {
      AlwaysEffectivelyOnce(initial, db, turns[..|turns| - 1]);
      TurnKeepsOnce(initial, Play(db, turns[..|turns| - 1]), turns[|turns| - 1]);
    }
  }

  lemma {:induction false} DedupGrows<S>(db: Db<S>, steps: seq<Step<S>>)
    ensures db.dedup <= Run(db, steps).dedup
    decreases |steps|
  {
    if steps != [] {
      DedupGrows(db, steps[..|steps| - 1]);
    }
  }

  lemma {:induction false} RunAppends<S>(db: Db<S>, first: seq<Step<S>>, middle: seq<Step<S>>)
    ensures Run(Run(db, first), middle) == Run(db, first + middle)
    decreases |middle|
  {
    if middle == [] {
      assert first + middle == first;
    } else {
      var all := first + middle;
      assert all[..|all| - 1] == first + middle[..|middle| - 1];
      RunAppends(db, first, middle[..|middle| - 1]);
    }
  }

  // ----- redelivery -----

  lemma {:induction false} PlayAppends<S>(db: Db<S>, first: seq<Turn<S>>, rest: seq<Turn<S>>)
    ensures Play(Play(db, first), rest) == Play(db, first + rest)
    decreases |rest|
  {
    if rest == [] {
      assert first + rest == first;
    } else {
      var all := first + rest;
      assert all[..|all| - 1] == first + rest[..|rest| - 1];
      PlayAppends(db, first, rest[..|rest| - 1]);
    }
  }

  lemma TurnKeepsRows<S>(db: Db<S>, t: Turn<S>)
    ensures db.dedup <= TakeTurn(db, t).dedup
  {
    match t
    case Others(steps) => DedupGrows(db, steps);
    case Received(m, c) =>
      if m.Envelope? {
        HandleRuns(db, m.d, c);
        DedupGrows(db, HandleSteps(db, m.d, c));
      }
  }

  lemma {:induction false} RowsStay<S>(db: Db<S>, turns: seq<Turn<S>>)
    ensures db.dedup <= Play(db, turns).dedup
    decreases |turns|
  {
    if turns != [] {
      RowsStay(db, turns[..|turns| - 1]);
      TurnKeepsRows(Play(db, turns[..|turns| - 1]), turns[|turns| - 1]);
    }
  }

  lemma MarkedAgain<S>(db: Db<S>, key: Key, c: Call<S>)
    requires key in db.dedup
    ensures var h := MarkApplied(Run(db, c.beforeCheck), key, c);
      h.db == Run(db, h.others)
  {
    RunAppends(db, c.beforeCheck, c.beforeMark);
    DedupGrows(db, c.beforeCheck + c.beforeMark);
    var before := Run(db, c.beforeCheck + c.beforeMark);
    assert before.dedup + {key} == before.dedup;
  }

  /** A delivery whose row is there leaves what the transactions of others in between leave. */
  lemma KnownDelivery<S>(db: Db<S>, d: Delivery<S>, c: Call<S>)
    requires d.key in db.dedup
    ensures Handle(db, d, c).outcome != Processed
    ensures Handle(db, d, c).db == Run(db, Handle(db, d, c).others)
  {
    MarkedAgain(db, d.key, c);
  }

  lemma TurnReplaced<S>(db: Db<S>, first: seq<Turn<S>>, t: Turn<S>, u: Turn<S>, rest: seq<Turn<S>>)
    requires TakeTurn(Play(db, first), t) == TakeTurn(Play(db, first), u)
    ensures Play(db, first + [t] + rest) == Play(db, first + [u] + rest)
  {
    assert (first + [t])[..|first|] == first && (first + [u])[..|first|] == first;
    PlayAppends(db, first + [t], rest);
    PlayAppends(db, first + [u], rest);
  }

  lemma TurnSkipped<S>(db: Db<S>, first: seq<Turn<S>>, rest: seq<Turn<S>>)
    ensures Play(db, first + [Others([])] + rest) == Play(db, first + rest)
  {
    var idle: Turn<S> := Others([]);
    assert (first + [idle])[..|first|] == first;
    PlayAppends(db, first + [idle], rest);
    PlayAppends(db, first, rest);
  }

  /**
   * Once a delivery's row is there, receiving it again at any later point of any run, with any faults, is the same as
   * not receiving it: what remains is what other consumers committed meanwhile, and nothing if none did.
   */
  lemma RedeliveryChangesNothing<S>(
      db: Db<S>, first: seq<Turn<S>>, middle: seq<Turn<S>>, rest: seq<Turn<S>>, d: Delivery<S>, c: Call<S>)
    requires d.key in Play(db, first).dedup
    ensures var again := first + middle + [Received(Envelope(d), c)] + rest;
      var others := Handle(Play(db, first + middle), d, c).others;
      && Play(db, again) == Play(db, first + middle + [Others(others)] + rest)
      && (others == [] ==> Play(db, again) == Play(db, first + middle + rest))
  {
    PlayAppends(db, first, middle);
    RowsStay(Play(db, first), middle);
    var before := Play(db, first + middle);
    KnownDelivery(before, d, c);
    TurnReplaced(db, first + middle, Received(Envelope(d), c), Others(Handle(before, d, c).others), rest);
    TurnSkipped(db, first + middle, rest);
  }

  /** What the transactions of others alone would have left of the effects. */
  ghost predicate OnlyOthersActed<S>(db: Db<S>, h: Handled<S>) {
    var alone := Run(db, h.others);
    h.db.store == alone.store && h.db.history == alone.history && (h.err.Some? ==> h.db == alone)
  }

  lemma MarkOnlyOthersAct<S>(db: Db<S>, key: Key, c: Call<S>)
    ensures OnlyOthersActed(db, MarkApplied(Run(db, c.beforeCheck), key, c))
  {
    RunAppends(db, c.beforeCheck, c.beforeMark);
  }

  lemma ResolveOnlyOthersAct<S>(db: Db<S>, key: Key, cause: Err, c: Call<S>)
    ensures OnlyOthersActed(db, ResolveConflict(db, key, cause, c))
  {
    assert Run(db, []) == db;
    MarkOnlyOthersAct(db, key, c);
  }

  /** Whatever runs in between: nil means the row is there; an error means this delivery changed nothing. */
  lemma HandleIsAtomic<S>(db: Db<S>, d: Delivery<S>, c: Call<S>)
    ensures var h := Handle(db, d, c);
      && (h.err.None? ==> d.key in h.db.dedup)
      && (h.outcome == Processed ==> h.db.history == db.history + [d])
      && (h.outcome != Processed ==> OnlyOthersActed(db, h))
  {
    var err := WorkError(db, d, c.work);
    if err.Some? {
      assert Run(db, []) == db;
      ResolveOnlyOthersAct(db, d.key, err.value, c);
    }
  }

  /** nil acks, and otherwise the retry bit of the returned, always classified error is the recorded outcome. */
  lemma RoutingAgrees<S>(db: Db<S>, m: Message<S>, c: Call<S>)
    ensures var h := Receive(db, m, c);
      && (h.err.None? <==> h.outcome in {Processed, Duplicate, AlreadyApplied})
      && (h.err.Some? ==> As(h.err.value).Some?)
      && (h.err.Some? ==> (IsRetryable(h.err.value) <==> h.outcome == Retryable))
  {
    if m.Envelope? {
      var err := WorkError(db, m.d, c.work);
      if err.Some? && As(err.value).None? {
        RewrapPreserves(err.value, 1);
        assert Rewrap(err.value, 0) == err.value;
      }
    }
  }

  /** A delivery that meets no fault and whose handler accepts is applied, unless its row was already there. */
  lemma CleanDeliveryLands<S>(db: Db<S>, d: Delivery<S>, c: Call<S>, later: seq<Step<S>>)
    requires c.work == Faults(None, None, None)
    requires d.handler(db.store).Done?
    ensures var h := Handle(db, d, c);
      && h.err.None?
      && h.db.store == (if d.key in db.dedup then db.store else d.handler(db.store).store)
      && d.key in Run(h.db, later).dedup
  {
  }

  // ----- which outcome, exactly when -----

  /** The handler's transaction goes through. */
  predicate Lands<S>(db: Db<S>, d: Delivery<S>, f: Faults) {
    && f.begin.None? && f.mark.None? && f.commit.None?
    && d.key !in db.dedup && d.handler(db.store).Done?
  }

  /** It finds the row of an earlier delivery. */
  predicate Known<S>(db: Db<S>, d: Delivery<S>, f: Faults) {
    f.begin.None? && f.mark.None? && d.key in db.dedup
  }

  /** It ends with error e: it cannot be opened, the row cannot be written, the handler refuses, or the commit fails. */
  predicate FailsWith<S>(db: Db<S>, d: Delivery<S>, f: Faults, e: Err) {
    || f.begin == Some(e)
    || (f.begin.None? && f.mark == Some(e))
    || (f.begin.None? && f.mark.None? && d.key !in db.dedup && d.handler(db.store) == Failed(e))
    || (f.begin.None? && f.mark.None? && d.key !in db.dedup && d.handler(db.store).Done? && f.commit == Some(e))
  }

  /** By its first platform error: a business rule refuses the work, or the payment was processed already, for good. */
  predicate RefusedForGood(e: Err) {
    && As(e).Some?
    && var p := As(e).value;
       || p.category == CatBusinessRule
       || (p.category == CatConflict && p.code == PaymentAlreadyProcessed && !p.retryable)
  }

  predicate Transient(e: Err) {
    As(e).Some? && As(e).value.retryable
  }

  /** There is a checker, and it answers: in the store as others have left it by then, in a transaction that holds. */
  predicate CheckerSays<S>(db: Db<S>, c: Call<S>, holds: bool) {
    && c.checker.Some? && c.check.begin.None? && c.check.commit.None?
    && c.checker.value(Run(db, c.beforeCheck).store) == Holds(holds)
  }

  predicate CanMark(f: Faults) {
    f.begin.None? && f.mark.None? && f.commit.None?
  }

  /** A delivery is processed, or known, exactly then; otherwise its transaction ends with an error. */
  lemma CleanOutcomeIff<S(!new)>(db: Db<S>, d: Delivery<S>, c: Call<S>)
    ensures Handle(db, d, c).outcome == Processed <==> Lands(db, d, c.work)
    ensures Handle(db, d, c).outcome == Duplicate <==> Known(db, d, c.work)
    ensures Lands(db, d, c.work) || Known(db, d, c.work) || exists e :: FailsWith(db, d, c.work, e)
  {
    var f := c.work;
    if !Lands(db, d, f) && !Known(db, d, f) {
      var e := WorkError(db, d, f).value;
      assert FailsWith(db, d, f, e);
    }
  }

  /**
   * With an error, the end-state check is asked exactly if the error refuses the work for good. An effect it finds
   * applied is marked and acknowledged; one it does not is a contradiction; what cannot be decided or marked is
   * retried. Every other error is retried or dead-lettered by its retry bit.
   */
  lemma ErrorOutcomeIff<S>(db: Db<S>, d: Delivery<S>, c: Call<S>, e: Err)
    requires FailsWith(db, d, c.work, e)
    ensures var h := Handle(db, d, c);
      && (h.outcome == AlreadyApplied <==> RefusedForGood(e) && CheckerSays(db, c, true) && CanMark(c.mark))
      && (h.outcome == InvariantConflict <==> RefusedForGood(e) && (c.checker.None? || CheckerSays(db, c, false)))
      && (h.outcome == NonRetryable <==> !RefusedForGood(e) && !Transient(e))
      && (h.outcome == Retryable <==>
            if !RefusedForGood(e) then Transient(e)
            else c.checker.Some? && !CheckerSays(db, c, false) && !(CheckerSays(db, c, true) && CanMark(c.mark)))
  {
    assert WorkError(db, d, c.work) == Some(e);
  }

  /** What the broker is told in each of these cases; an acknowledged delivery has its row. */
  lemma ErrorAnswerIs<S>(db: Db<S>, d: Delivery<S>, c: Call<S>, e: Err)
    requires FailsWith(db, d, c.work, e)
    ensures var h := Handle(db, d, c);
      && (h.outcome == AlreadyApplied ==> h.err.None? && d.key in h.db.dedup)
      && (h.outcome == InvariantConflict ==> h.err.Some? && CodeOf(h.err.value) == InvalidStateTransition)
      && (h.outcome == Retryable ==>
            h.err.Some? && (if RefusedForGood(e) then CodeOf(h.err.value) == DependencyFailure else h.err.value == e))
      && (h.outcome == NonRetryable ==> h.err.Some? && As(h.err.value).Some? && CodeOf(h.err.value) == CodeOf(e))
  {
    assert WorkError(db, d, c.work) == Some(e);
    if As(e).None? {
      RewrapPreserves(e, 1);
      assert Rewrap(e, 0) == e;
    }
  }
}
