/**
 * Load and Invalidate of internal/application/payment/context_loader.go, as they interleave: a load reads its
 * snapshot in one step and puts it into the last-known-good map in a later one, under a lock it did not hold in
 * between.
 */
module ContextRace {
  import opened ContextLoaderSpec
  import opened Options

  type Loading = nat

  /** What a load has read and not stored yet; a snapshot is told apart by the instant it was read. */
  datatype Hand = Hand(id: Merchant, read: nat)

  datatype Move = Read(load: Loading, id: Merchant) | Store(load: Loading) | Suspend(id: Merchant)

  /** The moves of all loads and suspensions, in the order they take effect. */
  datatype Moves = Still | Then(before: Moves, last: Move)

  function Now(h: Moves): nat {
    if h.Still? then 0 else Now(h.before) + 1
  }

  datatype State = State(known: map<Merchant, nat>, hands: map<Loading, Hand>)

  function After(s: State, m: Move, now: nat): State {
    match m
    case Read(load, id) => s.(hands := s.hands[load := Hand(id, now)])
    case Store(load) =>
      if load !in s.hands then s
      else State(s.known[s.hands[load].id := s.hands[load].read], s.hands - {load})
    case Suspend(id) => s.(known := s.known - {id})
  }

  function Reached(h: Moves): State {
    match h
    case Still => State(map[], map[])
    case Then(before, m) => After(Reached(before), m, Now(before))
  }

  /** When the merchant was last suspended. */
  function Suspended(h: Moves, id: Merchant): (at: Option<nat>)
    ensures at.Some? ==> at.value < Now(h)
  {
    match h
    case Still => None
    case Then(before, m) => if m == Suspend(id) then Some(Now(before)) else Suspended(before, id)
  }

  /** Read before the merchant was last suspended. */
  predicate Outdated(h: Moves, id: Merchant, read: nat) {
    Suspended(h, id).Some? && read < Suspended(h, id).value
  }

  /** The merchant can be served past the cliff from a snapshot taken before it was suspended. */
  predicate Revived(h: Moves, id: Merchant) {
    id in Reached(h).known && Outdated(h, id, Reached(h).known[id])
  }

  /** The move stores a snapshot of the merchant that was read before the merchant was last suspended. */
  predicate StoresOutdated(h: Moves, m: Move, id: Merchant) {
    var hands := Reached(h).hands;
    m.Store? && m.load in hands && hands[m.load].id == id && Outdated(h, id, hands[m.load].read)
  }

  /** At no point of the run a suspension was survived. */
  predicate NeverRevived(h: Moves, id: Merchant) {
    !Revived(h, id) && (h.Then? ==> NeverRevived(h.before, id))
  }

  predicate NeverOutdated(h: Moves, id: Merchant) {
    h.Then? ==> NeverOutdated(h.before, id) && !StoresOutdated(h.before, h.last, id)
  }

  /** A suspension is undone by nothing but such a store, and by every such store. */
  lemma MoveRevives(h: Moves, m: Move, id: Merchant)
    requires !Revived(h, id)
    ensures Revived(Then(h, m), id) <==> StoresOutdated(h, m, id)
  {
  }

  /** The promise over a whole run of loads and suspensions, and exactly when it is kept. */
  lemma {:induction false} SuspensionHoldsIff(h: Moves, id: Merchant)
    ensures NeverRevived(h, id) <==> NeverOutdated(h, id)
  {
    if h.Then? {
      SuspensionHoldsIff(h.before, id);
      if NeverRevived(h.before, id) {
        MoveRevives(h.before, h.last, id);
      }
    }
  }

  /** Every load stores at once what it reads. */
  predicate Uninterrupted(h: Moves) {
    h.Then? ==>
      && Uninterrupted(h.before)
      && (h.last.Store? ==> h.before.Then? && h.before.last.Read? && h.before.last.load == h.last.load)
  }

  /** Then it is kept: loads as single steps never undo a suspension. */
  lemma {:induction false} UninterruptedLoadsHold(h: Moves, id: Merchant)
    requires Uninterrupted(h)
    ensures NeverOutdated(h, id)
  {
    if h.Then? {
      UninterruptedLoadsHold(h.before, id);
    }
  }

  /** It is not always kept: a merchant suspended between the two steps of a load is back after the second. */
  lemma SuspensionLost(id: Merchant)
    ensures Revived(Then(Then(Then(Still, Read(0, id)), Suspend(id)), Store(0)), id)
  {
    var first := Then(Still, Read(0, id));
    var h := Then(first, Suspend(id));
    assert Reached(first) == State(map[], map[0 := Hand(id, 0)]);
    assert Now(first) == 1 && Suspended(h, id) == Some(1);
    assert Reached(h).hands == map[0 := Hand(id, 0)];
  }
}
