/** The outbox table, the projection table and one consumed batch, as classes that change them in place
    (backend/src/modules/analytics/postgres-analytics-outbox.store.ts, clickhouse-analytics.sink.ts and
    kafka-analytics.consumer.ts).  now() and the consumer's staleness are parameters. */
module AnalyticsStores {
  import opened HedgeRoute
  import opened AnalyticsPipeline

  // ---------------------------------------------------------------- ORDER BY ... LIMIT

  predicate Earlier(due: map<nat, nat>, a: nat, b: nat)
    requires a in due && b in due
  {
    due[a] < due[b] || (due[a] == due[b] && a < b)
  }

  /** The first ids by due time and id. */
  ghost predicate FirstIds(due: map<nat, nat>, limit: nat, ids: seq<nat>) {
    && (forall i :: 0 <= i < |ids| ==> ids[i] in due)
    && (forall i, j :: 0 <= i < j < |ids| ==> Earlier(due, ids[i], ids[j]))
    && |ids| <= limit
    && (|ids| < limit ==> forall id :: id in due ==> id in ids)
    && (forall i, id :: 0 <= i < |ids| && id in due && id !in ids ==> Earlier(due, ids[i], id))
  }

  method Earliest(due: map<nat, nat>, among: set<nat>) returns (best: nat)
    requires among != {} && among <= due.Keys
    ensures best in among && forall id :: id in among && id != best ==> Earlier(due, best, id)
  {
    best :| best in among;
    var rest := among - {best};
    while rest != {}
      invariant rest <= among && best in among && best !in rest
      invariant forall id :: id in among && id !in rest && id != best ==> Earlier(due, best, id)
      decreases |rest|
    {
      var id :| id in rest;
      rest := rest - {id};
      if due[id] < due[best] || (due[id] == due[best] && id < best) { best := id; }
    }
  }

  method TakeEarliest(due: map<nat, nat>, limit: nat) returns (ids: seq<nat>)
    ensures FirstIds(due, limit, ids)
  {
    ids := [];
    var rest := due.Keys;
    while rest != {} && |ids| < limit
      invariant rest <= due.Keys && |ids| <= limit
      invariant forall id :: id in due ==> (id in ids <==> id !in rest)
      invariant forall i :: 0 <= i < |ids| ==> ids[i] in due
      invariant forall i, j :: 0 <= i < j < |ids| ==> Earlier(due, ids[i], ids[j])
      invariant forall i, id :: 0 <= i < |ids| && id in rest ==> Earlier(due, ids[i], id)
      decreases |rest|
    {
      var id := Earliest(due, rest);
      ids := ids + [id];
      rest := rest - {id};
    }
  }

  /** The same ids without repetition, in whatever order the database returns them. */
  ghost predicate FirstInAnyOrder(due: map<nat, nat>, limit: nat, ids: seq<nat>) {
    && (forall i :: 0 <= i < |ids| ==> ids[i] in due)
    && (forall i, j :: 0 <= i < j < |ids| ==> ids[i] != ids[j])
    && |ids| <= limit
    && (|ids| < limit ==> forall id :: id in due ==> id in ids)
    && (forall a, id :: a in ids && a in due && id in due && id !in ids ==> Earlier(due, a, id))
  }

  /** UPDATE ... FROM candidates RETURNING: some enumeration of the candidates. */
  method ReturnInAnyOrder(due: map<nat, nat>, limit: nat, first: seq<nat>) returns (ids: seq<nat>)
    requires FirstIds(due, limit, first)
    ensures FirstInAnyOrder(due, limit, ids)
    ensures forall id :: id in ids <==> id in first
  {
    var rest := set id | id in first;
    ids := [];
    while rest != {}
      invariant forall id :: id in first <==> id in ids || id in rest
      invariant forall i :: 0 <= i < |ids| ==> ids[i] !in rest
      invariant forall i, j :: 0 <= i < j < |ids| ==> ids[i] != ids[j]
      decreases |rest|
    {
      var id :| id in rest;
      ids := ids + [id];
      rest := rest - {id};
    }
    SameCount(first, ids, due, limit);
    forall a, id | a in ids && a in due && id in due && id !in ids ensures Earlier(due, a, id) {
      var i :| 0 <= i < |first| && first[i] == a;
    }
  }

  lemma SameCount(first: seq<nat>, ids: seq<nat>, due: map<nat, nat>, limit: nat)
    requires FirstIds(due, limit, first)
    requires forall i, j :: 0 <= i < j < |ids| ==> ids[i] != ids[j]
    requires forall id :: id in ids <==> id in first
    ensures |ids| == |first|
  {
    forall i, j | 0 <= i < j < |first| ensures first[i] != first[j] { assert Earlier(due, first[i], first[j]); }
    CountOf(first);
    CountOf(ids);
    assert Elements(first) == Elements(ids);
  }

  function Elements(ids: seq<nat>): set<nat> { set id | id in ids }

  lemma {:induction false} CountOf(ids: seq<nat>)
    requires forall i, j :: 0 <= i < j < |ids| ==> ids[i] != ids[j]
    ensures |Elements(ids)| == |ids|
  {
    if ids != [] {
      var n := |ids| - 1;
      CountOf(ids[..n]);
      assert ids[n] !in ids[..n];
      assert Elements(ids) == Elements(ids[..n]) + {ids[n]} by { assert ids == ids[..n] + [ids[n]]; }
    }
  }

  // ---------------------------------------------------------------- the outbox

  function DueAt(rows: map<nat, OutboxRow>, now: nat): map<nat, nat> {
    map id | id in rows && Eligible(rows[id], now) :: rows[id].availableAt
  }

  function PublishedBefore(rows: map<nat, OutboxRow>, cutoff: nat): map<nat, nat> {
    map id | id in rows && rows[id].publishedAt.Some? && rows[id].publishedAt.value < cutoff :: rows[id].publishedAt.value
  }

  class OutboxStore {
    var rows: map<nat, OutboxRow>

    constructor ()
      ensures rows == map[]
    {
      rows := map[];
    }

    /** Leases the first eligible rows and nothing else, and returns them in no particular order. */
    method ClaimBatch(w: nat, now: nat, leaseMs: nat, batchSize: nat) returns (ids: seq<nat>)
      modifies this
      ensures FirstInAnyOrder(DueAt(old(rows), now), batchSize, ids)
      ensures rows == Claimed(old(rows), ids, w, now + leaseMs)
      ensures forall id :: id in ids ==> id in old(rows)
      ensures |ids| <= batchSize && forall j, k :: 0 <= j < k < |ids| ==> ids[j] != ids[k]
      ensures forall id :: id in old(rows) ==>
                var r := old(rows)[id];
                && (r.publishedAt.None? && r.availableAt <= now && (r.lease.None? || r.lease.value.expiresAt <= now)
                    <== id in ids)
                && (r.publishedAt.None? && r.availableAt <= now && (r.lease.None? || r.lease.value.expiresAt <= now)
                    && id !in ids ==>
                      && |ids| == batchSize
                      && forall a :: a in ids ==>
                           old(rows)[a].availableAt < r.availableAt || (old(rows)[a].availableAt == r.availableAt && a < id))
      ensures rows.Keys == old(rows).Keys
      ensures forall id :: id in rows ==>
                rows[id] == if id in ids then old(rows)[id].(lease := Some(Lease(w, now + leaseMs))) else old(rows)[id]
    {
      var candidates := TakeEarliest(DueAt(rows, now), batchSize);
      ids := ReturnInAnyOrder(DueAt(rows, now), batchSize, candidates);
      ghost var before := rows;
      for k := 0 to |ids|
        invariant rows == Claimed(before, ids[..k], w, now + leaseMs)
      {
        rows := rows[ids[k] := rows[ids[k]].(lease := Some(Lease(w, now + leaseMs)))];
        assert forall id :: id in ids[..k + 1] <==> id in ids[..k] || id == ids[k];
      }
      assert ids[..|ids|] == ids;
    }

    method MarkPublished(id: nat, w: nat, now: nat) returns (ok: bool)
      modifies this
      ensures ok <==> OwnsRow(old(rows), id, w)
      ensures rows == if ok then Marked(old(rows), id, now) else old(rows)
      ensures ok <==> id in old(rows) && old(rows)[id].publishedAt.None? && old(rows)[id].lease.Some?
                      && old(rows)[id].lease.value.owner == w
      ensures ok ==> rows == old(rows)[id := old(rows)[id].(publishedAt := Some(now), lease := None)]
    {
      ok := OwnsRow(rows, id, w);
      if ok { rows := rows[id := rows[id].(publishedAt := Some(now), lease := None)]; }
    }

    method ReleaseForRetry(id: nat, w: nat, now: nat, delay: nat) returns (ok: bool)
      modifies this
      ensures ok <==> OwnsRow(old(rows), id, w)
      ensures rows == if ok then ReleasedRow(old(rows), id, now + delay) else old(rows)
      ensures ok <==> id in old(rows) && old(rows)[id].publishedAt.None? && old(rows)[id].lease.Some?
                      && old(rows)[id].lease.value.owner == w
      ensures ok ==> rows == old(rows)[id := old(rows)[id].(availableAt := now + delay, lease := None)]
    {
      ok := OwnsRow(rows, id, w);
      if ok { rows := rows[id := rows[id].(availableAt := now + delay, lease := None)]; }
    }

    /** Removes the rows published before the cutoff, the earliest ones up to the limit, and nothing else. */
    method DeletePublishedBefore(cutoff: nat, limit: nat) returns (deleted: nat)
      modifies this
      ensures forall id :: id in rows ==> id in old(rows) && rows[id] == old(rows)[id]
      ensures deleted == |old(rows).Keys - rows.Keys| <= limit
      ensures forall id :: id in old(rows) && id !in rows ==>
                old(rows)[id].publishedAt.Some? && old(rows)[id].publishedAt.value < cutoff
      ensures forall id :: id in rows && rows[id].publishedAt.Some? && rows[id].publishedAt.value < cutoff ==>
                && deleted == limit
                && forall a :: a in old(rows) && a !in rows ==>
                     || old(rows)[a].publishedAt.value < rows[id].publishedAt.value
                     || (old(rows)[a].publishedAt.value == rows[id].publishedAt.value && a < id)
    {
      var due := PublishedBefore(rows, cutoff);
      var ids := TakeEarliest(due, limit);
      rows := rows - (set id | id in ids);
      deleted := |ids|;
      RemovedCount(old(rows), rows, due, limit, ids);
      forall a, id | id in rows && id in due && a in old(rows) && a !in rows ensures Earlier(due, a, id) {
        var i :| 0 <= i < |ids| && ids[i] == a;
      }
    }
  }

  lemma RemovedCount(before: map<nat, OutboxRow>, after: map<nat, OutboxRow>, due: map<nat, nat>, limit: nat, ids: seq<nat>)
    requires FirstIds(due, limit, ids) && due.Keys <= before.Keys
    requires after == before - (set id | id in ids)
    ensures |before.Keys - after.Keys| == |ids|
  {
    forall i, j | 0 <= i < j < |ids| ensures ids[i] != ids[j] { assert Earlier(due, ids[i], ids[j]); }
    CountOf(ids);
    assert before.Keys - after.Keys == Elements(ids);
  }

  /** What one iteration sees: which publishes the broker acknowledges, when stop() is called, the retry
      delay of each record, and what now() reads when it is marked or released. */
  datatype Iteration = Iteration(acknowledged: nat -> bool, stopAt: nat, delay: nat -> nat, clock: nat -> nat)

  predicate Publishes(i: Iteration, k: nat) { k < i.stopAt && i.acknowledged(k) }

  /** The outbox after the first n of the claimed records have been handled in order. */
  function Handled(rows: map<nat, OutboxRow>, ids: seq<nat>, n: nat, i: Iteration): map<nat, OutboxRow>
    requires n <= |ids| && AllIn(ids, rows)
    ensures Handled(rows, ids, n, i).Keys == rows.Keys
  {
    if n == 0 then rows
    else
      var k := n - 1;
      var before := Handled(rows, ids, k, i);
      if Publishes(i, k) then Marked(before, ids[k], i.clock(k)) else ReleasedRow(before, ids[k], i.clock(k) + i.delay(k))
  }

  predicate AllIn(ids: seq<nat>, rows: map<nat, OutboxRow>) { forall k :: 0 <= k < |ids| ==> ids[k] in rows }

  function PublishedCount(n: nat, i: Iteration): nat {
    if n == 0 then 0 else PublishedCount(n - 1, i) + if Publishes(i, n - 1) then 1 else 0
  }

  /** Handling some records leaves the others as they were claimed. */
  lemma {:induction false} HandledOthers(rows: map<nat, OutboxRow>, ids: seq<nat>, n: nat, i: Iteration, id: nat)
    requires n <= |ids| && AllIn(ids, rows)
    requires id in rows && forall k :: 0 <= k < n ==> ids[k] != id
    ensures Handled(rows, ids, n, i)[id] == rows[id]
  {
    if n != 0 { HandledOthers(rows, ids, n - 1, i, id); }
  }

  /** runOnce: the first eligible rows are claimed, published in the order they came, and marked or
      rescheduled one by one; with nobody else acting no lease conflict arises and every claimed record is
      accounted for. */
  method RunOnce(store: OutboxStore, w: nat, now: nat, leaseMs: nat, batchSize: nat, i: Iteration)
    returns (ids: seq<nat>, published: nat, retried: nat)
    modifies store
    ensures FirstInAnyOrder(DueAt(old(store.rows), now), batchSize, ids)
    ensures store.rows == Handled(Claimed(old(store.rows), ids, w, now + leaseMs), ids, |ids|, i)
    ensures published == PublishedCount(|ids|, i) && published + retried == |ids|
    ensures store.rows.Keys == old(store.rows).Keys
    ensures forall id :: id in store.rows && id !in ids ==> store.rows[id] == old(store.rows)[id]
    ensures forall k :: 0 <= k < |ids| ==>
              && ids[k] in store.rows
              && var r := old(store.rows)[ids[k]];
                 store.rows[ids[k]] == if k < i.stopAt && i.acknowledged(k)
                                       then r.(publishedAt := Some(i.clock(k)), lease := None)
                                       else r.(availableAt := i.clock(k) + i.delay(k), lease := None)
  {
    ids := store.ClaimBatch(w, now, leaseMs, batchSize);
    ClaimedAreOwned(DueAt(old(store.rows), now), batchSize, ids, old(store.rows), w, now + leaseMs);
    hide FirstInAnyOrder, Claimed, DueAt, OwnsRow, Handled;
    ghost var claimed := store.rows;
    OwnedAreIn(claimed, ids, w);
    published, retried := HandleAll(store, ids, w, i);
    forall k | 0 <= k < |ids|
      ensures ids[k] in store.rows
      ensures store.rows[ids[k]] == if k < i.stopAt && i.acknowledged(k)
                                    then claimed[ids[k]].(publishedAt := Some(i.clock(k)), lease := None)
                                    else claimed[ids[k]].(availableAt := i.clock(k) + i.delay(k), lease := None)
    {
      HandledEach(claimed, ids, |ids|, i, k);
    }
    forall id | id in store.rows && id !in ids ensures store.rows[id] == claimed[id] {
      HandledOthers(claimed, ids, |ids|, i, id);
    }
  }

  /** Handling marks the acknowledged records and reschedules the others. */
  lemma {:induction false} HandledEach(rows: map<nat, OutboxRow>, ids: seq<nat>, n: nat, i: Iteration, k: nat)
    requires k < n <= |ids| && AllIn(ids, rows)
    requires forall j, m :: 0 <= j < m < |ids| ==> ids[j] != ids[m]
    ensures ids[k] in rows && ids[k] in Handled(rows, ids, n, i)
    ensures Handled(rows, ids, n, i)[ids[k]]
            == if k < i.stopAt && i.acknowledged(k) then rows[ids[k]].(publishedAt := Some(i.clock(k)), lease := None)
               else rows[ids[k]].(availableAt := i.clock(k) + i.delay(k), lease := None)
  {
    if k == n - 1 { HandledOthers(rows, ids, k, i, ids[k]); } else { HandledEach(rows, ids, n - 1, i, k); }
  }

  method HandleAll(store: OutboxStore, ids: seq<nat>, w: nat, i: Iteration)
    returns (published: nat, retried: nat)
    requires AllOwned(store.rows, ids, w)
    modifies store
    ensures store.rows == Handled(old(store.rows), ids, |ids|, i)
    ensures published == PublishedCount(|ids|, i) && published + retried == |ids|
  {
    hide AllOwned, AllIn, OwnsRow, Marked, ReleasedRow, Publishes, Handled, PublishedCount;
    published, retried := 0, 0;
    ghost var claimed := store.rows;
    OwnedAreIn(claimed, ids, w);
    NothingHandled(claimed, ids, i);
    for k := 0 to |ids|
      invariant store.rows == Handled(claimed, ids, k, i)
      invariant published == PublishedCount(k, i) && published + retried == k
    {
      StillOwned(claimed, ids, k, i, w);
      OneMoreHandled(claimed, ids, k, i);
      var ok := HandleRecord(store, ids[k], k, w, i);
      if ok { published := published + 1; } else { retried := retried + 1; }
    }
  }

  lemma NothingHandled(rows: map<nat, OutboxRow>, ids: seq<nat>, i: Iteration)
    requires AllIn(ids, rows)
    ensures Handled(rows, ids, 0, i) == rows && PublishedCount(0, i) == 0
  {
  }

  /** What one turn of the loop adds. */
  lemma OneMoreHandled(rows: map<nat, OutboxRow>, ids: seq<nat>, k: nat, i: Iteration)
    requires k < |ids| && AllIn(ids, rows)
    ensures ids[k] in rows
    ensures var before := Handled(rows, ids, k, i);
            Handled(rows, ids, k + 1, i) == if Publishes(i, k) then Marked(before, ids[k], i.clock(k))
                                            else ReleasedRow(before, ids[k], i.clock(k) + i.delay(k))
    ensures PublishedCount(k + 1, i) == PublishedCount(k, i) + if Publishes(i, k) then 1 else 0
  {
  }

  /** Distinct records, each under worker w's lease. */
  predicate AllOwned(rows: map<nat, OutboxRow>, ids: seq<nat>, w: nat) {
    && (forall j :: 0 <= j < |ids| ==> ids[j] in rows && OwnsRow(rows, ids[j], w))
    && (forall j, m :: 0 <= m < j < |ids| ==> ids[m] != ids[j])
  }

  lemma OwnedAreIn(rows: map<nat, OutboxRow>, ids: seq<nat>, w: nat)
    requires AllOwned(rows, ids, w)
    ensures AllIn(ids, rows)
  {
  }

  lemma ClaimedAreOwned(due: map<nat, nat>, limit: nat, ids: seq<nat>, rows: map<nat, OutboxRow>, w: nat, expiresAt: nat)
    requires FirstInAnyOrder(due, limit, ids)
    requires forall id :: id in due ==> id in rows && rows[id].publishedAt.None?
    ensures AllOwned(Claimed(rows, ids, w, expiresAt), ids, w)
  {
  }

  /** The record whose turn it is has not been touched since it was claimed. */
  lemma StillOwned(rows: map<nat, OutboxRow>, ids: seq<nat>, k: nat, i: Iteration, w: nat)
    requires k < |ids| && AllOwned(rows, ids, w) && AllIn(ids, rows)
    ensures OwnsRow(Handled(rows, ids, k, i), ids[k], w)
  {
    HandledOthers(rows, ids, k, i, ids[k]);
  }

  /** One turn of runOnce's loop over a record whose lease the publisher holds. */
  method HandleRecord(store: OutboxStore, id: nat, k: nat, w: nat, i: Iteration) returns (published: bool)
    requires OwnsRow(store.rows, id, w)
    modifies store
    ensures published == Publishes(i, k)
    ensures store.rows == if published then Marked(old(store.rows), id, i.clock(k))
                          else ReleasedRow(old(store.rows), id, i.clock(k) + i.delay(k))
  {
    if k >= i.stopAt {
      var released := store.ReleaseForRetry(id, w, i.clock(k), i.delay(k));
      return false;
    }
    if i.acknowledged(k) {
      published := store.MarkPublished(id, w, i.clock(k));
    } else {
      var released := store.ReleaseForRetry(id, w, i.clock(k), i.delay(k));
      published := false;
    }
  }

  // ---------------------------------------------------------------- the projection

  class ClickHouseSink {
    var rows: seq<SinkRow>

    constructor ()
      ensures rows == []
    {
      rows := [];
    }

    method InsertBatch(batch: seq<SinkRow>) returns (ok: bool)
      modifies this
      ensures ok <==> 1 <= |batch| <= 500
      ensures rows == if ok then old(rows) + batch else old(rows)
    {
      ok := batch != [] && |batch| <= MAX_BATCH_SIZE;
      if ok { rows := rows + batch; }
    }
  }

  /** consumeBatch: the messages of one fetch go to the table once each, in order and in chunks that the table
      accepts, before the next offset is committed; a batch that turned stale is not committed. */
  method ConsumeBatch(sink: ClickHouseSink, p: Partition, log: seq<Event>, position: nat, count: nat, ingestedAt: nat,
                      stale: bool, staleAfter: bool) returns (commit: Option<nat>)
    requires position + count <= |log|
    modifies sink
    ensures sink.rows == old(sink.rows) + if stale then [] else SinkRows(log, p, position, position + count, ingestedAt)
    ensures commit == if stale || staleAfter || count == 0 then None else Some(position + count)
    ensures !stale ==>
              && |sink.rows| == |old(sink.rows)| + count && old(sink.rows) <= sink.rows
              && forall k :: position <= k < position + count ==>
                   sink.rows[|old(sink.rows)| + k - position] == SinkRow(log[k], p, k, ingestedAt)
  {
    if stale || count == 0 { return None; }
    var rows := SinkRows(log, p, position, position + count, ingestedAt);
    var start := 0;
    while start < |rows|
      invariant 0 <= start <= |rows|
      invariant sink.rows == old(sink.rows) + rows[..start]
    {
      var end := ChunkEnd(start, |rows|);
      var ok := sink.InsertBatch(rows[start..end]);
      assert rows[..start] + rows[start..end] == rows[..end];
      if !ok { assert false; }
      start := end;
    }
    assert rows[..start] == rows;
    commit := if staleAfter then None else Some(position + count);
  }
}
