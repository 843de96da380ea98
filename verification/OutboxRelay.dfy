/**
 * The transactional outbox and its relay (cmd/outbox-relay/relay.go, internal/infrastructure/postgres/outbox.go):
 * writers commit rows, and one replica per shard claims a batch, publishes it and marks it.
 */
module OutboxSpec {

  /** A message row; its outbox_id is its position in the table. */
  datatype Row = Row(key: string, due: int)

  /** The partitioning of the table: the key hash, the number of replicas, and the configured batch size. */
  datatype Fleet = Fleet(hash: string -> int, total: int, batch: int)

  const BUCKETS := 64
  const DEFAULT_BATCH := 100
  const MAX_PAGE := 1000

  /** The batch size newRelay settles on. */
  function BatchOf(f: Fleet): int {
    if f.batch <= 0 then DEFAULT_BATCH else f.batch
  }

  /** How many rows one claim may return: the table caps every page. */
  function Limit(f: Fleet): nat {
    if BatchOf(f) > MAX_PAGE then MAX_PAGE else BatchOf(f)
  }

  /** The bucket of a key belongs to this replica. */
  predicate InShard(f: Fleet, shard: int, key: string) {
    0 < f.total <= BUCKETS && 0 <= shard < f.total && f.hash(key) % BUCKETS % f.total == shard
  }

  /** A claimed batch and how much of it the broker has accepted. */
  datatype Batch = Batch(ids: seq<nat>, sent: nat)

  /** Committed rows, the rows marked published, the broker's log, and the batches being published. */
  datatype Outbox = Outbox(rows: seq<Row>, marked: set<nat>, log: seq<nat>, held: map<int, Batch>)

  const EMPTY := Outbox([], {}, [], map[])

  /** The claim predicate over the first n rows, in outbox_id order. */
  function Claimable(f: Fleet, s: Outbox, shard: int, now: int, n: nat): seq<nat>
    requires n <= |s.rows|
  {
    if n == 0 then [] else
    var fewer := Claimable(f, s, shard, now, n - 1);
    var row := s.rows[n - 1];
    if n - 1 !in s.marked && row.due <= now && InShard(f, shard, row.key) then fewer + [n - 1] else fewer
  }

  function Backlog(f: Fleet, s: Outbox, shard: int, now: int): seq<nat> {
    Claimable(f, s, shard, now, |s.rows|)
  }

  function Page(f: Fleet, s: Outbox, shard: int, now: int): seq<nat> {
    var all := Backlog(f, s, shard, now);
    if |all| <= Limit(f) then all else all[..Limit(f)]
  }

  datatype Step =
    | Commit(rows: seq<Row>)          // a writer's transaction
    | Claim(shard: int, now: int)     // a replica with nothing in hand takes a page
    | Send(shard: int)                // the broker accepts the next message of it
    | Settle(shard: int)              // the page is marked and the transaction commits
    | Abort(shard: int)               // any failure or crash: the claim rolls back

  function Apply(f: Fleet, s: Outbox, step: Step): Outbox {
    match step
    case Commit(rows) => s.(rows := s.rows + rows)
    case Claim(shard, now) =>
      var page := Page(f, s, shard, now);
      if shard in s.held || page == [] then s else s.(held := s.held[shard := Batch(page, 0)])
    case Send(shard) =>
      if shard in s.held && s.held[shard].sent < |s.held[shard].ids| then
        var b := s.held[shard];
        s.(log := s.log + [b.ids[b.sent]], held := s.held[shard := b.(sent := b.sent + 1)])
      else s
    case Settle(shard) =>
      if shard in s.held && s.held[shard].sent >= |s.held[shard].ids| then
        s.(marked := s.marked + (set i | i in s.held[shard].ids), held := s.held - {shard})
      else s
    case Abort(shard) => s.(held := s.held - {shard})
  }

  function Run(f: Fleet, s: Outbox, steps: seq<Step>): Outbox {
    if steps == [] then s else Apply(f, Run(f, s, steps[..|steps| - 1]), steps[|steps| - 1])
  }
}

/** Safety: over every interleaving of writers and replicas. */
module OutboxTheorems {
  import opened OutboxSpec

  /** Delivery times never go backwards within one key: what every writer that publishes immediately does. */
  ghost predicate DueInWriteOrder(rows: seq<Row>) {
    forall i, j :: 0 <= i < j < |rows| && rows[i].key == rows[j].key ==> rows[i].due <= rows[j].due
  }

  /** Only committed rows are on the log, and every marked row is on it. */
  ghost predicate Delivered(s: Outbox) {
    && (forall p :: 0 <= p < |s.log| ==> s.log[p] < |s.rows|)
    && (forall i :: i in s.marked ==> i in s.log)
  }

  /** At every position of the log, everything written earlier under the same key is already on it. */
  ghost predicate NeverOvertakes(s: Outbox) {
    forall p, i: nat :: 0 <= p < |s.log| && i < s.log[p] < |s.rows| && s.rows[i].key == s.rows[s.log[p]].key
      ==> i in s.log[..p]
  }

  /** A page holds committed rows, and what was sent of it is on the log. */
  ghost predicate PageSent(s: Outbox, b: Batch) {
    && b.sent <= |b.ids|
    && (forall k :: 0 <= k < |b.ids| ==> b.ids[k] < |s.rows|)
    && (forall k :: 0 <= k < b.sent ==> b.ids[k] in s.log)
  }

  /** No row under the same key was left behind by a page. */
  ghost predicate PageComplete(s: Outbox, b: Batch) {
    forall k, i: nat :: 0 <= k < |b.ids| && i < b.ids[k] < |s.rows| && s.rows[i].key == s.rows[b.ids[k]].key
      ==> i in s.marked || i in b.ids[..k]
  }

  ghost predicate Sound(s: Outbox) {
    Delivered(s) && forall shard :: shard in s.held ==> PageSent(s, s.held[shard])
  }

  ghost predicate Ordered(s: Outbox) {
    NeverOvertakes(s) && forall shard :: shard in s.held ==> PageComplete(s, s.held[shard])
  }

  /** What a claim sees: exactly the unmarked, due rows of the shard, ascending. */
  lemma {:induction false} ClaimableIs(f: Fleet, s: Outbox, shard: int, now: int, n: nat)
    requires n <= |s.rows|
    ensures var c := Claimable(f, s, shard, now, n);
      && (forall i: nat ::
            i in c <==> i < n && i !in s.marked && s.rows[i].due <= now && InShard(f, shard, s.rows[i].key))
      && (forall a, b :: 0 <= a < b < |c| ==> c[a] < c[b])
  {
    if n > 0 {
      ClaimableIs(f, s, shard, now, n - 1);
      var fewer := Claimable(f, s, shard, now, n - 1);
      assert forall a :: 0 <= a < |fewer| ==> fewer[a] in fewer;
    }
  }

  lemma PageHasRows(f: Fleet, s: Outbox, shard: int, now: int)
    ensures PageSent(s, Batch(Page(f, s, shard, now), 0))
  {
    var all, page := Backlog(f, s, shard, now), Page(f, s, shard, now);
    ClaimableIs(f, s, shard, now, |s.rows|);
    forall k | 0 <= k < |page| ensures page[k] < |s.rows| {
      assert page[k] in all;
    }
  }

  lemma PageLeavesNoneBehind(f: Fleet, s: Outbox, shard: int, now: int)
    requires DueInWriteOrder(s.rows)
    ensures PageComplete(s, Batch(Page(f, s, shard, now), 0))
  {
    var all, page := Backlog(f, s, shard, now), Page(f, s, shard, now);
    ClaimableIs(f, s, shard, now, |s.rows|);
    forall k, i: nat | 0 <= k < |page| && i < page[k] < |s.rows| && s.rows[i].key == s.rows[page[k]].key
      ensures i in s.marked || i in page[..k]
    {
      assert page[k] == all[k] && page[k] in all;
      if i !in s.marked {
        assert i in all;
        var a :| 0 <= a < |all| && all[a] == i;
        assert a < k;
        assert page[..k][a] == i;
      }
    }
  }

  lemma SendKeepsSound(f: Fleet, s: Outbox, shard: int)
    requires Sound(s) && shard in s.held && s.held[shard].sent < |s.held[shard].ids|
    ensures Sound(Apply(f, s, Send(shard)))
  {
    var b, after := s.held[shard], Apply(f, s, Send(shard));
    assert PageSent(s, b);
    assert after.log[|s.log|] == b.ids[b.sent];
    forall other | other in after.held ensures PageSent(after, after.held[other]) {
      assert PageSent(s, s.held[other]);
    }
  }

  lemma SendKeepsOrdered(f: Fleet, s: Outbox, shard: int)
    requires Sound(s) && Ordered(s) && shard in s.held && s.held[shard].sent < |s.held[shard].ids|
    ensures Ordered(Apply(f, s, Send(shard)))
  {
    var b, after := s.held[shard], Apply(f, s, Send(shard));
    assert PageSent(s, b) && PageComplete(s, b);
    forall p, i: nat |
      0 <= p < |after.log| && i < after.log[p] < |after.rows| && after.rows[i].key == after.rows[after.log[p]].key
      ensures i in after.log[..p]
    {
      if p < |s.log| {
        assert after.log[..p] == s.log[..p];
      } else {
        assert after.log[..p] == s.log;
        assert i in s.marked || i in b.ids[..b.sent];
      }
    }
    forall other | other in after.held ensures PageComplete(after, after.held[other]) {
      assert PageComplete(s, s.held[other]);
    }
  }

  lemma CommitKeepsSound(f: Fleet, s: Outbox, rows: seq<Row>)
    requires Sound(s)
    ensures Sound(Apply(f, s, Commit(rows)))
  {
  }

  lemma CommitKeepsOrdered(f: Fleet, s: Outbox, rows: seq<Row>)
    requires Sound(s) && Ordered(s)
    ensures Ordered(Apply(f, s, Commit(rows)))
  {
    var after := Apply(f, s, Commit(rows));
    forall other | other in after.held ensures PageComplete(after, after.held[other]) {
      assert PageSent(s, s.held[other]) && PageComplete(s, s.held[other]);
    }
  }

  lemma SettleKeepsSound(f: Fleet, s: Outbox, shard: int)
    requires Sound(s)
    ensures Sound(Apply(f, s, Settle(shard)))
  {
  }

  lemma StepKeepsSound(f: Fleet, s: Outbox, step: Step)
    requires Sound(s)
    ensures Sound(Apply(f, s, step))
  {
    match step
    case Commit(rows) => CommitKeepsSound(f, s, rows);
    case Claim(shard, now) => PageHasRows(f, s, shard, now);
    case Send(shard) =>
      if shard in s.held && s.held[shard].sent < |s.held[shard].ids| {
        SendKeepsSound(f, s, shard);
      }
    case Settle(shard) => SettleKeepsSound(f, s, shard);
    case Abort(shard) =>
  }

  lemma StepKeepsOrdered(f: Fleet, s: Outbox, step: Step)
    requires Sound(s) && Ordered(s) && DueInWriteOrder(s.rows)
    ensures Ordered(Apply(f, s, step))
  {
    match step
    case Commit(rows) => CommitKeepsOrdered(f, s, rows);
    case Claim(shard, now) => PageLeavesNoneBehind(f, s, shard, now);
    case Send(shard) =>
      if shard in s.held && s.held[shard].sent < |s.held[shard].ids| {
        SendKeepsOrdered(f, s, shard);
      }
    case Settle(shard) =>
    case Abort(shard) =>
  }

  lemma {:induction false} RunKeepsOrdered(f: Fleet, steps: seq<Step>)
    requires DueInWriteOrder(Run(f, EMPTY, steps).rows)
    ensures Ordered(Run(f, EMPTY, steps))
    decreases |steps|
  {
    if steps != [] {
      var before := steps[..|steps| - 1];
      var s := Run(f, EMPTY, before);
      assert s.rows <= Apply(f, s, steps[|steps| - 1]).rows;
      RunKeepsOrdered(f, before);
      RunKeepsSound(f, before);
      StepKeepsOrdered(f, s, steps[|steps| - 1]);
    }
  }

  lemma {:induction false} RunKeepsSound(f: Fleet, steps: seq<Step>)
    ensures Sound(Run(f, EMPTY, steps))
    decreases |steps|
  {
    if steps != [] {
      RunKeepsSound(f, steps[..|steps| - 1]);
      StepKeepsSound(f, Run(f, EMPTY, steps[..|steps| - 1]), steps[|steps| - 1]);
    }
  }

  /**
   * Every interleaving of commits, claims, partial publishes, failed marks and crashes: a marked row is on the
   * broker, nothing uncommitted is, and what a replica has sent of the page in its hands is there, too. If delivery
   * times follow write order per key, no message overtakes an earlier one of its aggregate.
   */
  lemma RelayIsSafe(f: Fleet, steps: seq<Step>)
    ensures Sound(Run(f, EMPTY, steps))
    ensures DueInWriteOrder(Run(f, EMPTY, steps).rows) ==> NeverOvertakes(Run(f, EMPTY, steps))
  {
    RunKeepsSound(f, steps);
    if DueInWriteOrder(Run(f, EMPTY, steps).rows) {
      RunKeepsOrdered(f, steps);
    }
  }

  // ----- who serves a key -----

  /** In a fleet of a legal size every key belongs to one replica, and to one only; in any other to none. */
  lemma ShardOfKey(f: Fleet, key: string)
    ensures 0 < f.total <= BUCKETS ==> exists shard :: 0 <= shard < f.total && InShard(f, shard, key)
    ensures forall a, b :: InShard(f, a, key) && InShard(f, b, key) ==> a == b
    ensures !(0 < f.total <= BUCKETS) ==> forall shard :: !InShard(f, shard, key)
  {
    if 0 < f.total <= BUCKETS {
      assert InShard(f, f.hash(key) % BUCKETS % f.total, key);
    }
  }

  /** Every page in hand holds committed rows of its replica's shard. */
  ghost predicate Owned(f: Fleet, s: Outbox) {
    forall shard :: shard in s.held ==> OwnsPage(f, s, shard, s.held[shard].ids)
  }

  ghost predicate OwnsPage(f: Fleet, s: Outbox, shard: int, ids: seq<nat>) {
    forall k :: 0 <= k < |ids| ==> ids[k] < |s.rows| && InShard(f, shard, s.rows[ids[k]].key)
  }

  lemma PageIsOwned(f: Fleet, s: Outbox, shard: int, now: int)
    ensures OwnsPage(f, s, shard, Page(f, s, shard, now))
  {
    var all, page := Backlog(f, s, shard, now), Page(f, s, shard, now);
    ClaimableIs(f, s, shard, now, |s.rows|);
    forall k | 0 <= k < |page| ensures page[k] < |s.rows| && InShard(f, shard, s.rows[page[k]].key) {
      assert page[k] == all[k] && page[k] in all;
    }
  }

  lemma StepKeepsOwned(f: Fleet, s: Outbox, step: Step)
    requires Owned(f, s)
    ensures Owned(f, Apply(f, s, step))
  {
    var after := Apply(f, s, step);
    if step.Claim? {
      PageIsOwned(f, s, step.shard, step.now);
    }
    forall shard | shard in after.held ensures OwnsPage(f, after, shard, after.held[shard].ids) {
      assert shard in s.held ==> OwnsPage(f, s, shard, s.held[shard].ids);
    }
  }

  lemma {:induction false} RunKeepsOwned(f: Fleet, steps: seq<Step>)
    ensures Owned(f, Run(f, EMPTY, steps))
    decreases |steps|
  {
    if steps != [] {
      RunKeepsOwned(f, steps[..|steps| - 1]);
      StepKeepsOwned(f, Run(f, EMPTY, steps[..|steps| - 1]), steps[|steps| - 1]);
    }
  }

  /** Over every interleaving no row, and no two rows of one key, are in the hands of two replicas. */
  lemma ReplicasHoldApart(f: Fleet, steps: seq<Step>, a: int, b: int, i: nat, j: nat)
    requires var s := Run(f, EMPTY, steps);
      && a in s.held && b in s.held && a != b
      && i in s.held[a].ids && j in s.held[b].ids
    ensures var s := Run(f, EMPTY, steps);
      i < |s.rows| && j < |s.rows| && i != j && s.rows[i].key != s.rows[j].key
  {
    var s := Run(f, EMPTY, steps);
    RunKeepsOwned(f, steps);
    assert OwnsPage(f, s, a, s.held[a].ids) && OwnsPage(f, s, b, s.held[b].ids);
    ShardOfKey(f, s.rows[i].key);
  }

  /** The steps of one drain that meets no failure. */
  function Sends(shard: int, n: nat): seq<Step> {
    if n == 0 then [] else Sends(shard, n - 1) + [Send(shard)]
  }

  function CleanDrain(f: Fleet, s: Outbox, shard: int, now: int): seq<Step> {
    [Claim(shard, now)] + Sends(shard, |Page(f, s, shard, now)|) + [Settle(shard)]
  }

  lemma {:induction false} RunAppends(f: Fleet, s: Outbox, first: seq<Step>, rest: seq<Step>)
    ensures Run(f, Run(f, s, first), rest) == Run(f, s, first + rest)
    decreases |rest|
  {
    if rest == [] {
      assert first + rest == first;
    } else {
      assert (first + rest)[..|first + rest| - 1] == first + rest[..|rest| - 1];
      RunAppends(f, s, first, rest[..|rest| - 1]);
    }
  }

  lemma RunOneMore(f: Fleet, s: Outbox, steps: seq<Step>, last: Step)
    ensures Run(f, s, steps + [last]) == Apply(f, Run(f, s, steps), last)
  {
  }

  /** s with the first n messages of its page on the log. */
  function Sending(s: Outbox, shard: int, ids: seq<nat>, n: nat): Outbox
    requires n <= |ids|
  {
    s.(log := s.log + ids[..n], held := s.held[shard := Batch(ids, n)])
  }

  lemma SendPublishesNext(f: Fleet, s: Outbox, shard: int, ids: seq<nat>, n: nat)
    requires n < |ids|
    ensures Apply(f, Sending(s, shard, ids, n), Send(shard)) == Sending(s, shard, ids, n + 1)
  {
    assert ids[..n + 1] == ids[..n] + [ids[n]];
    assert s.log + ids[..n] + [ids[n]] == s.log + ids[..n + 1];
    assert s.held[shard := Batch(ids, n)][shard := Batch(ids, n + 1)] == s.held[shard := Batch(ids, n + 1)];
  }

  lemma NothingSent(s: Outbox, shard: int, ids: seq<nat>)
    requires shard in s.held && s.held[shard] == Batch(ids, 0)
    ensures Sending(s, shard, ids, 0) == s
  {
    assert s.log + ids[..0] == s.log && s.held[shard := Batch(ids, 0)] == s.held;
  }

  lemma SendsGrow(f: Fleet, s: Outbox, shard: int, ids: seq<nat>, n: nat)
    requires n < |ids| && Run(f, s, Sends(shard, n)) == Sending(s, shard, ids, n)
    ensures Run(f, s, Sends(shard, n + 1)) == Sending(s, shard, ids, n + 1)
  {
    RunOneMore(f, s, Sends(shard, n), Send(shard));
    SendPublishesNext(f, s, shard, ids, n);
  }

  lemma SendsPublishInOrder(f: Fleet, s: Outbox, shard: int, ids: seq<nat>, n: nat)
    requires shard in s.held && s.held[shard] == Batch(ids, 0) && n <= |ids|
    ensures Run(f, s, Sends(shard, n)) == Sending(s, shard, ids, n)
  {
    NothingSent(s, shard, ids);
    for k := 0 to n
      invariant Run(f, s, Sends(shard, k)) == Sending(s, shard, ids, k)
    {
      SendsGrow(f, s, shard, ids, k);
    }
  }

  /** A drain that claims a page, sends n messages of it and ends one way or another. */
  lemma DrainRuns(f: Fleet, s: Outbox, shard: int, now: int, n: nat, last: Step)
    ensures Run(f, s, [Claim(shard, now)] + Sends(shard, n) + [last])
      == Apply(f, Run(f, Apply(f, s, Claim(shard, now)), Sends(shard, n)), last)
  {
    var claim := Claim(shard, now);
    RunOneMore(f, s, [], claim);
    assert [] + [claim] == [claim];
    RunAppends(f, s, [claim], Sends(shard, n));
    RunOneMore(f, s, [claim] + Sends(shard, n), last);
  }

  /** A drain that meets no failure appends its page to the broker's log and marks exactly that page. */
  lemma CleanDrainIs(f: Fleet, s: Outbox, shard: int, now: int)
    requires shard !in s.held
    ensures var page := Page(f, s, shard, now);
      Run(f, s, CleanDrain(f, s, shard, now)) == s.(log := s.log + page, marked := s.marked + set i | i in page)
  {
    var page := Page(f, s, shard, now);
    DrainRuns(f, s, shard, now, |page|, Settle(shard));
    if page == [] {
      assert s.log + page == s.log;
    } else {
      var claimed := Apply(f, s, Claim(shard, now));
      SendsPublishInOrder(f, claimed, shard, page, |page|);
      assert page[..|page|] == page;
      assert claimed.held[shard := Batch(page, |page|)] - {shard} == s.held;
    }
  }

  ghost predicate Ascending(ids: seq<nat>) {
    forall a, b :: 0 <= a < b < |ids| ==> ids[a] < ids[b]
  }

  /** An ascending list is determined by its elements. */
  lemma {:induction false} AscendingUnique(x: seq<nat>, y: seq<nat>)
    requires Ascending(x) && Ascending(y)
    requires forall i :: i in x <==> i in y
    ensures x == y
    decreases |x|
  {
    assert |y| > 0 ==> y[0] in y;
    if x != [] {
      assert x[|x| - 1] in y;
      var dropX, dropY := x[..|x| - 1], y[..|y| - 1];
      assert y[|y| - 1] in x;
      assert x[|x| - 1] == y[|y| - 1];
      forall i ensures i in dropX <==> i in dropY {
        assert i in dropX <==> i in x && i != x[|x| - 1];
        assert i in dropY <==> i in y && i != y[|y| - 1];
      }
      AscendingUnique(dropX, dropY);
    }
  }

  /** After marking the first k claimable rows, the rest are claimable, in the same order. */
  lemma MarkingShortensBacklog(f: Fleet, s: Outbox, t: Outbox, shard: int, now: int, k: nat)
    requires t.rows == s.rows
    requires k <= |Backlog(f, s, shard, now)|
    requires t.marked == s.marked + set i | i in Backlog(f, s, shard, now)[..k]
    ensures Backlog(f, t, shard, now) == Backlog(f, s, shard, now)[k..]
  {
    var all, left := Backlog(f, s, shard, now), Backlog(f, t, shard, now);
    ClaimableIs(f, s, shard, now, |s.rows|);
    ClaimableIs(f, t, shard, now, |s.rows|);
    assert all == all[..k] + all[k..];
    forall i: nat ensures i in left <==> i in all[k..] {
      assert i in left <==> i in all && i !in all[..k];
      if i in all[..k] {
        var a :| 0 <= a < k && all[a] == i;
      }
    }
    AscendingUnique(left, all[k..]);
  }

  /** A drain that meets no failure, in one step: see CleanDrainIs. */
  function Drain(f: Fleet, s: Outbox, shard: int, now: int): Outbox {
    var page := Page(f, s, shard, now);
    s.(log := s.log + page, marked := s.marked + set i | i in page)
  }

  function Drains(f: Fleet, s: Outbox, shard: int, now: int, k: nat): Outbox {
    if k == 0 then s else Drain(f, Drains(f, s, shard, now, k - 1), shard, now)
  }

  function Least(x: nat, y: nat): nat {
    if x <= y then x else y
  }

  lemma DrainTakesOnePage(f: Fleet, s: Outbox, shard: int, now: int)
    ensures var all, after := Backlog(f, s, shard, now), Drain(f, s, shard, now);
      var n := Least(Limit(f), |all|);
      && after.rows == s.rows && after.held == s.held
      && after.log == s.log + all[..n]
      && Backlog(f, after, shard, now) == all[n..]
  {
    var all := Backlog(f, s, shard, now);
    var n := Least(Limit(f), |all|);
    assert Page(f, s, shard, now) == all[..n];
    MarkingShortensBacklog(f, s, Drain(f, s, shard, now), shard, now, n);
  }

  lemma TakeMore(log: seq<nat>, all: seq<nat>, n: nat, m: nat)
    requires n + m <= |all|
    ensures log + all[..n] + all[n..][..m] == log + all[..n + m]
    ensures all[n..][m..] == all[n + m..]
  {
  }

  /** How many rows k pages hold of n. */
  function Taken(page: nat, k: nat, n: nat): (r: nat)
    ensures r <= n
  {
    if k == 0 then 0
    else
      var was := Taken(page, k - 1, n);
      was + Least(page, n - was)
  }

  lemma {:induction false} TakenIs(page: nat, k: nat, n: nat)
    ensures Taken(page, k, n) == Least(k * page, n)
  {
    if k > 0 {
      TakenIs(page, k - 1, n);
      assert (k - 1) * page + page == k * page;
    }
  }

  /** The first n rows of a backlog have been published, in order, and the rest are still to claim. */
  ghost predicate Took(f: Fleet, s: Outbox, t: Outbox, shard: int, now: int, all: seq<nat>, n: nat) {
    && n <= |all| && t.rows == s.rows && t.held == s.held
    && t.log == s.log + all[..n]
    && Backlog(f, t, shard, now) == all[n..]
  }

  lemma DrainTakesNextPage(f: Fleet, s: Outbox, t: Outbox, shard: int, now: int, all: seq<nat>, n: nat)
    requires shard !in s.held && Took(f, s, t, shard, now, all, n)
    ensures Took(f, s, Drain(f, t, shard, now), shard, now, all, n + Least(Limit(f), |all| - n))
  {
    DrainTakesOnePage(f, t, shard, now);
    TakeMore(s.log, all, n, Least(Limit(f), |all| - n));
  }

  lemma NoneTaken(f: Fleet, s: Outbox, shard: int, now: int)
    ensures Took(f, s, s, shard, now, Backlog(f, s, shard, now), 0)
  {
  }

  /** k successful drains take exactly the first k pages off the backlog and put them on the log in order. */
  lemma DrainsTakePages(f: Fleet, s: Outbox, shard: int, now: int, k: nat)
    requires shard !in s.held
    ensures var all := Backlog(f, s, shard, now);
      Took(f, s, Drains(f, s, shard, now, k), shard, now, all, Taken(Limit(f), k, |all|))
  {
    var all := Backlog(f, s, shard, now);
    NoneTaken(f, s, shard, now);
    for i := 0 to k
      invariant Took(f, s, Drains(f, s, shard, now, i), shard, now, all, Taken(Limit(f), i, |all|))
    {
      DrainTakesNextPage(f, s, Drains(f, s, shard, now, i), shard, now, all, Taken(Limit(f), i, |all|));
    }
  }

  /** A fault-free relay needs no more than ceil(n / page) drains, and needs that many. */
  lemma BacklogClearedIff(f: Fleet, s: Outbox, shard: int, now: int, k: nat)
    requires shard !in s.held
    ensures Backlog(f, Drains(f, s, shard, now, k), shard, now) == []
      <==> k * Limit(f) >= |Backlog(f, s, shard, now)|
  {
    DrainsTakePages(f, s, shard, now, k);
    TakenIs(Limit(f), k, |Backlog(f, s, shard, now)|);
  }

  lemma OneDrainMore(f: Fleet, before: seq<Step>, s: Outbox, shard: int, now: int) returns (steps: seq<Step>)
    requires Run(f, EMPTY, before) == s && shard !in s.held
    ensures Run(f, EMPTY, steps) == Drain(f, s, shard, now)
  {
    steps := before + CleanDrain(f, s, shard, now);
    RunAppends(f, EMPTY, before, CleanDrain(f, s, shard, now));
    CleanDrainIs(f, s, shard, now);
  }

  /** Successful drains are among the runs of the relay. */
  lemma DrainsAreARun(f: Fleet, start: seq<Step>, s: Outbox, shard: int, now: int, k: nat) returns (steps: seq<Step>)
    requires Run(f, EMPTY, start) == s && shard !in s.held
    ensures Run(f, EMPTY, steps) == Drains(f, s, shard, now, k)
  {
    steps := start;
    for i := 0 to k
      invariant Run(f, EMPTY, steps) == Drains(f, s, shard, now, i) && Drains(f, s, shard, now, i).held == s.held
    {
      steps := OneDrainMore(f, steps, Drains(f, s, shard, now, i), shard, now);
    }
  }

  lemma TakesAll(page: nat, n: nat)
    requires page >= 1
    ensures Taken(page, n, n) == n
  {
    TakenIs(page, n, n);
    assert n * page >= n;
  }

  lemma EnoughDrains(f: Fleet, s: Outbox, shard: int, now: int)
    requires shard !in s.held
    ensures var all := Backlog(f, s, shard, now);
      var t := Drains(f, s, shard, now, |all|);
      t.rows == s.rows && t.log == s.log + all
  {
    var all := Backlog(f, s, shard, now);
    DrainsTakePages(f, s, shard, now, |all|);
    TakesAll(Limit(f), |all|);
    assert all[..|all|] == all;
  }

  /** Draining at the later row's delivery time publishes it without the earlier row, which is not yet due. */
  lemma EarlierRowLeftBehind(f: Fleet, s: Outbox, shard: int, i: nat, j: nat)
    requires shard !in s.held && s.log == [] && s.marked == {}
    requires i < j < |s.rows| && s.rows[i].key == s.rows[j].key && s.rows[i].due > s.rows[j].due
    requires InShard(f, shard, s.rows[j].key)
    ensures var now := s.rows[j].due;
      !NeverOvertakes(Drains(f, s, shard, now, |Backlog(f, s, shard, now)|))
  {
    var now := s.rows[j].due;
    ClaimableIs(f, s, shard, now, |s.rows|);
    EnoughDrains(f, s, shard, now);
    Overtaken(Drains(f, s, shard, now, |Backlog(f, s, shard, now)|), i, j);
  }

  lemma Overtaken(t: Outbox, i: nat, j: nat)
    requires i < j < |t.rows| && t.rows[i].key == t.rows[j].key && j in t.log && i !in t.log
    ensures !NeverOvertakes(t)
  {
  }

  /** A row whose delivery time lies after that of a later row of its key is overtaken in some run. */
  lemma LaterDueIsOvertaken(f: Fleet, rows: seq<Row>, i: nat, j: nat) returns (steps: seq<Step>)
    requires 0 < f.total <= BUCKETS
    requires i < j < |rows| && rows[i].key == rows[j].key && rows[i].due > rows[j].due
    ensures Run(f, EMPTY, steps).rows == rows && !NeverOvertakes(Run(f, EMPTY, steps))
  {
    var start, s := [Commit(rows)], EMPTY.(rows := rows);
    RunOneMore(f, EMPTY, [], Commit(rows));
    assert [] + start == start && [] + rows == rows;
    var shard, now := f.hash(rows[j].key) % BUCKETS % f.total, rows[j].due;
    EarlierRowLeftBehind(f, s, shard, i, j);
    EnoughDrains(f, s, shard, now);
    steps := DrainsAreARun(f, start, s, shard, now, |Backlog(f, s, shard, now)|);
  }

  /** Write order per key is kept in every run exactly when delivery times follow write order per key. */
  lemma OrderKeptIff(f: Fleet, rows: seq<Row>)
    requires 0 < f.total <= BUCKETS
    ensures (forall steps :: Run(f, EMPTY, steps).rows == rows ==> NeverOvertakes(Run(f, EMPTY, steps)))
      <==> DueInWriteOrder(rows)
  {
    if DueInWriteOrder(rows) {
      forall steps | Run(f, EMPTY, steps).rows == rows ensures NeverOvertakes(Run(f, EMPTY, steps)) {
        RelayIsSafe(f, steps);
      }
    } else {
      var i, j :| 0 <= i < j < |rows| && rows[i].key == rows[j].key && rows[i].due > rows[j].due;
      var steps := LaterDueIsOvertaken(f, rows, i, j);
    }
  }

  /** The loop goes straight on after a full page exactly when the configured batch fits one page of the table. */
  lemma FullPageContinuesIff(f: Fleet, s: Outbox, shard: int, now: int)
    requires |Backlog(f, s, shard, now)| >= Limit(f)
    ensures |Page(f, s, shard, now)| >= BatchOf(f) <==> f.batch <= MAX_PAGE
  {
  }
}

/** The relay as the code runs it. */
module OutboxRelay {
  import opened OutboxSpec
  import opened OutboxTheorems

  /** What one drain meets: the claim refused, the broker failing after so many messages, the mark or commit failing. */
  datatype Weather = Weather(claimFails: bool, brokerFailsAfter: int, markFails: bool)

  /** The steps a drain takes in that weather; brokerFailsAfter beyond the page means the broker took it all. */
  function DrainSteps(f: Fleet, s: Outbox, shard: int, now: int, w: Weather): seq<Step> {
    var n := |Page(f, s, shard, now)|;
    if w.claimFails || n == 0 then []
    else if 0 <= w.brokerFailsAfter < n then [Claim(shard, now)] + Sends(shard, w.brokerFailsAfter) + [Abort(shard)]
    else if w.markFails then [Claim(shard, now)] + Sends(shard, n) + [Abort(shard)]
    else CleanDrain(f, s, shard, now)
  }

  /** The page was marked and the transaction committed. */
  predicate Settles(f: Fleet, s: Outbox, shard: int, now: int, w: Weather) {
    && !w.claimFails && !w.markFails
    && !(0 <= w.brokerFailsAfter < |Page(f, s, shard, now)|)
  }

  class Relay {
    const fleet: Fleet
    const shard: int
    var rows: seq<Row>
    var marked: set<nat>
    var log: seq<nat>
    var held: map<int, Batch>

    constructor (fleet: Fleet, shard: int)
      ensures View() == EMPTY && this.fleet == fleet && this.shard == shard
    {
      this.fleet, this.shard := fleet, shard;
      rows, marked, log, held := [], {}, [], map[];
    }

    function View(): Outbox
      reads this
    {
      Outbox(rows, marked, log, held)
    }

    method Publish(n: nat)
      requires shard in held && held[shard].sent == 0 && n <= |held[shard].ids|
      modifies this`log, this`held
      ensures View() == Run(fleet, old(View()), Sends(shard, n))
      ensures View() == Sending(old(View()), shard, old(held[shard].ids), n)
    {
      ghost var before, ids := View(), held[shard].ids;
      NothingSent(before, shard, ids);
      var k := 0;
      while k < n
        invariant 0 <= k <= n
        invariant View() == Sending(before, shard, ids, k)
      {
        SendPublishesNext(fleet, before, shard, ids, k);
        var b := held[shard];
        log := log + [b.ids[k]];
        held := held[shard := b.(sent := k + 1)];
        k := k + 1;
      }
      SendsPublishInOrder(fleet, before, shard, ids, n);
    }

    /** One claim-publish-mark pass: exactly the steps the weather allows, and the length of the page it settled. */
    method DrainOnce(now: int, w: Weather) returns (published: nat)
      requires shard !in held
      modifies this`log, this`held, this`marked
      ensures View() == Run(fleet, old(View()), DrainSteps(fleet, old(View()), shard, now, w))
      ensures published ==
        if Settles(fleet, old(View()), shard, now, w) then |Page(fleet, old(View()), shard, now)| else 0
    {
      published := 0;
      var page := Page(fleet, View(), shard, now);
      if w.claimFails || page == [] {
        return;
      }
      held := held[shard := Batch(page, 0)];
      assert View() == Apply(fleet, old(View()), Claim(shard, now));
      var all := 0 > w.brokerFailsAfter || w.brokerFailsAfter >= |page|;
      var n := if all then |page| else w.brokerFailsAfter;
      Publish(n);
      if !all || w.markFails {
        DrainRuns(fleet, old(View()), shard, now, n, Abort(shard));
        held := held - {shard};
        return;
      }
      DrainRuns(fleet, old(View()), shard, now, n, Settle(shard));
      marked := marked + set i | i in page;
      held := held - {shard};
      published := |page|;
    }
  }
}
