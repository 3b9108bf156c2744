/** The analytics pipeline as a transition system: outbox rows with leases, publishers between awaits, a
    partitioned append-only log, consumers that insert in chunks and commit offsets late, and a table that
    replaces rows by event id (backend/src/modules/analytics).  Every call may fail before or after it takes
    effect, and every process may crash anywhere. */
module AnalyticsPipeline {
  import opened HedgeRoute
  import opened DecimalText

  /** An event as it was written to the outbox; month is the calendar month of its creation time. */
  datatype Event = Event(outboxId: nat, topic: nat, aggregateId: nat, month: nat, payload: nat)

  /** buildAnalyticsEventEnvelope's event id. */
  function EventId(outboxId: nat): string { "ao_" + Text(outboxId) }

  lemma EventIdInjective(a: nat, b: nat)
    requires EventId(a) == EventId(b)
    ensures a == b
  {
    assert EventId(a)[3..] == Text(a);
    assert EventId(b)[3..] == Text(b);
    TextValue(a);
    TextValue(b);
  }

  datatype Lease = Lease(owner: nat, expiresAt: nat)

  datatype OutboxRow = OutboxRow(event: Event, availableAt: nat, lease: Option<Lease>, publishedAt: Option<nat>)

  datatype Partition = Partition(topic: nat, index: nat)

  /** A publisher holds the records it claimed and works on the first one. */
  datatype Publisher =
    | PublisherIdle
    | AtRecord(records: seq<Event>)
    | Publishing(records: seq<Event>)
    | Marking(records: seq<Event>)
    | Releasing(records: seq<Event>)

  /** A consumer of one partition, with the position up to which it has processed. */
  datatype Consumer =
    | Unassigned
    | Polling(partition: Partition, position: nat)
    | Inserting(partition: Partition, position: nat, count: nat, done: nat)
    | Committing(partition: Partition, position: nat, count: nat)

  datatype SinkRow = SinkRow(event: Event, partition: Partition, offset: nat, ingestedAt: nat)

  const MAX_BATCH_SIZE: nat := 500  // CLICKHOUSE_ANALYTICS_MAX_BATCH_SIZE

  datatype Sys = Sys(
    now: nat,
    topic: nat,  // the consumers' topic
    created: map<nat, Event>,  // every event ever written to the outbox
    outbox: map<nat, OutboxRow>,
    logs: map<Partition, seq<Event>>,
    committed: map<Partition, nat>,
    sent: set<Event>,  // every message a producer has ever sent; the broker may append it late or again
    publishers: seq<Publisher>,
    consumers: seq<Consumer>,
    sink: seq<SinkRow>)

  function Log(s: Sys, p: Partition): seq<Event> { if p in s.logs then s.logs[p] else [] }

  function CommittedAt(s: Sys, p: Partition): nat { if p in s.committed then s.committed[p] else 0 }

  datatype Fault = NoFault | LostBefore | LostAfter

  datatype Step =
    | Tick(to: nat)
    | WriteEvent(event: Event)
    | ClaimBatch(w: nat, ids: seq<nat>, leaseMs: nat, fault: Fault)
    | StartRecord(w: nat, stopped: bool)
    | Append(message: Event, index: nat)
    | PublishReply(w: nat, acknowledged: bool)
    | MarkPublished(w: nat, fault: Fault)
    | ReleaseRecord(w: nat, delay: nat, fault: Fault)
    | PublisherCrash(w: nat)
    | DeletePublished(expired: set<nat>, cutoff: nat)
    | Assign(c: nat, partition: Partition)
    | Fetch(c: nat, count: nat)
    | InsertChunk(c: nat, ingestedAt: nat, fault: Fault)
    | Commit(c: nat, resolved: bool, fault: Fault)  // resolved: whether a failed commit keeps the resolved offsets
    | Stale(c: nat)
    | ConsumerCrash(c: nat)

  // ---------------------------------------------------------------- the outbox store's statements

  predicate Eligible(r: OutboxRow, now: nat) {
    r.publishedAt.None? && r.availableAt <= now && (r.lease.None? || r.lease.value.expiresAt <= now)
  }

  /** WHERE published_at IS NULL AND lease_owner = $2. */
  predicate OwnsRow(outbox: map<nat, OutboxRow>, id: nat, w: nat) {
    id in outbox && outbox[id].publishedAt.None? && outbox[id].lease.Some? && outbox[id].lease.value.owner == w
  }

  function Claimed(outbox: map<nat, OutboxRow>, ids: seq<nat>, w: nat, expiresAt: nat): map<nat, OutboxRow> {
    map id | id in outbox :: if id in ids then outbox[id].(lease := Some(Lease(w, expiresAt))) else outbox[id]
  }

  function Marked(outbox: map<nat, OutboxRow>, id: nat, now: nat): map<nat, OutboxRow>
    requires id in outbox
  {
    outbox[id := outbox[id].(publishedAt := Some(now), lease := None)]
  }

  function ReleasedRow(outbox: map<nat, OutboxRow>, id: nat, availableAt: nat): map<nat, OutboxRow>
    requires id in outbox
  {
    outbox[id := outbox[id].(availableAt := availableAt, lease := None)]
  }

  // ---------------------------------------------------------------- chunks

  function ChunkEnd(done: nat, count: nat): nat { if done + MAX_BATCH_SIZE < count then done + MAX_BATCH_SIZE else count }

  function SinkRows(log: seq<Event>, p: Partition, from: nat, to: nat, ingestedAt: nat): seq<SinkRow>
    requires from <= to <= |log|
  {
    seq(to - from, k requires 0 <= k < to - from => SinkRow(log[from + k], p, from + k, ingestedAt))
  }

  // ---------------------------------------------------------------- transitions

  predicate HasPublisher(s: Sys, w: nat) { w < |s.publishers| }

  predicate HasConsumer(s: Sys, c: nat) { c < |s.consumers| }

  ghost predicate Enabled(s: Sys, step: Step) {
    match step
    case Tick(to) => s.now <= to
    case WriteEvent(e) => e.outboxId !in s.created
    case ClaimBatch(w, ids, _, _) =>
      && HasPublisher(s, w) && s.publishers[w].PublisherIdle?
      && (forall i :: 0 <= i < |ids| ==> ids[i] in s.outbox && Eligible(s.outbox[ids[i]], s.now))
    case StartRecord(w, _) => HasPublisher(s, w) && s.publishers[w].AtRecord? && s.publishers[w].records != []
    case Append(message, _) => message in s.sent
    case PublishReply(w, acknowledged) =>
      && HasPublisher(s, w) && s.publishers[w].Publishing? && s.publishers[w].records != []
      && (acknowledged ==> InLog(s, s.publishers[w].records[0]))  // acks = -1
    case MarkPublished(w, _) => HasPublisher(s, w) && s.publishers[w].Marking? && s.publishers[w].records != []
    case ReleaseRecord(w, _, _) => HasPublisher(s, w) && s.publishers[w].Releasing? && s.publishers[w].records != []
    case PublisherCrash(w) => HasPublisher(s, w)
    case DeletePublished(expired, cutoff) =>
      forall id :: id in expired ==>
        id in s.outbox && s.outbox[id].publishedAt.Some? && s.outbox[id].publishedAt.value < cutoff
    case Assign(c, p) => HasConsumer(s, c) && p.topic == s.topic
    case Fetch(c, count) =>
      HasConsumer(s, c) && s.consumers[c].Polling?
      && 0 < count && s.consumers[c].position + count <= |Log(s, s.consumers[c].partition)|
    case InsertChunk(c, _, _) =>
      HasConsumer(s, c) && s.consumers[c].Inserting?
      && s.consumers[c].done < s.consumers[c].count
      && s.consumers[c].position + s.consumers[c].count <= |Log(s, s.consumers[c].partition)|
    case Commit(c, _, _) => HasConsumer(s, c) && s.consumers[c].Committing?
    case Stale(c) => HasConsumer(s, c) && s.consumers[c].Committing?
    case ConsumerCrash(c) => HasConsumer(s, c)
  }

  ghost predicate InLog(s: Sys, e: Event) { exists p :: p in s.logs && p.topic == e.topic && e in s.logs[p] }

  function SetPublisher(s: Sys, w: nat, publisher: Publisher): Sys
    requires HasPublisher(s, w)
  {
    s.(publishers := s.publishers[w := publisher])
  }

  function SetConsumer(s: Sys, c: nat, consumer: Consumer): Sys
    requires HasConsumer(s, c)
  {
    s.(consumers := s.consumers[c := consumer])
  }

  function NextRecord(records: seq<Event>): Publisher
    requires records != []
  {
    if |records| == 1 then PublisherIdle else AtRecord(records[1..])
  }

  ghost function NextClaim(s: Sys, w: nat, ids: seq<nat>, leaseMs: nat, fault: Fault): Sys
    requires Enabled(s, ClaimBatch(w, ids, leaseMs, fault))
  {
    if fault.LostBefore? then s
    else
      var s' := s.(outbox := Claimed(s.outbox, ids, w, s.now + leaseMs));
      if fault.LostAfter? || ids == [] then s'
      else SetPublisher(s', w, AtRecord(seq(|ids|, k requires 0 <= k < |ids| => s.outbox[ids[k]].event)))
  }

  /** markPublished; a conflict or a lost reply sends the record to release. */
  ghost function NextMark(s: Sys, w: nat, fault: Fault): Sys
    requires Enabled(s, MarkPublished(w, fault))
  {
    var records := s.publishers[w].records;
    var id := records[0].outboxId;
    var owned := OwnsRow(s.outbox, id, w);
    var s' := if owned && !fault.LostBefore? then s.(outbox := Marked(s.outbox, id, s.now)) else s;
    SetPublisher(s', w, if owned && fault.NoFault? then NextRecord(records) else Releasing(records))
  }

  /** releaseForRetry; a conflict escapes from runOnce and drops the rest of the batch. */
  ghost function NextRelease(s: Sys, w: nat, delay: nat, fault: Fault): Sys
    requires Enabled(s, ReleaseRecord(w, delay, fault))
  {
    var records := s.publishers[w].records;
    var id := records[0].outboxId;
    var owned := OwnsRow(s.outbox, id, w);
    var s' := if owned && !fault.LostBefore? then s.(outbox := ReleasedRow(s.outbox, id, s.now + delay)) else s;
    SetPublisher(s', w, if owned && fault.NoFault? then NextRecord(records) else PublisherIdle)
  }

  ghost function NextInsert(s: Sys, c: nat, ingestedAt: nat, fault: Fault): Sys
    requires Enabled(s, InsertChunk(c, ingestedAt, fault))
  {
    var k := s.consumers[c];
    var end := ChunkEnd(k.done, k.count);
    var rows := SinkRows(Log(s, k.partition), k.partition, k.position + k.done, k.position + end, ingestedAt);
    var s' := if fault.LostBefore? then s else s.(sink := s.sink + rows);
    SetConsumer(s', c,
                if !fault.NoFault? then Polling(k.partition, k.position)
                else if end == k.count then Committing(k.partition, k.position, k.count)
                else Inserting(k.partition, k.position, k.count, end))
  }

  ghost function NextCommit(s: Sys, c: nat, resolved: bool, fault: Fault): Sys
    requires Enabled(s, Commit(c, resolved, fault))
  {
    var k := s.consumers[c];
    var s' := if fault.LostBefore? then s else s.(committed := s.committed[k.partition := k.position + k.count]);
    SetConsumer(s', c, Polling(k.partition, if fault.NoFault? || resolved then k.position + k.count else k.position))
  }

  ghost function Next(s: Sys, step: Step): Sys
    requires Enabled(s, step)
  {
    match step
    case Tick(to) => s.(now := to)
    case WriteEvent(e) =>
      s.(created := s.created[e.outboxId := e], outbox := s.outbox[e.outboxId := OutboxRow(e, s.now, None, None)])
    case ClaimBatch(w, ids, leaseMs, fault) => NextClaim(s, w, ids, leaseMs, fault)
    case StartRecord(w, stopped) =>
      var records := s.publishers[w].records;
      if stopped then SetPublisher(s, w, Releasing(records))
      else SetPublisher(s, w, Publishing(records)).(sent := s.sent + {records[0]})
    case Append(message, index) =>
      var p := Partition(message.topic, index);
      s.(logs := s.logs[p := Log(s, p) + [message]])
    case PublishReply(w, acknowledged) =>
      SetPublisher(s, w, if acknowledged then Marking(s.publishers[w].records) else Releasing(s.publishers[w].records))
    case MarkPublished(w, fault) => NextMark(s, w, fault)
    case ReleaseRecord(w, delay, fault) => NextRelease(s, w, delay, fault)
    case PublisherCrash(w) => SetPublisher(s, w, PublisherIdle)
    case DeletePublished(expired, _) => s.(outbox := s.outbox - expired)
    case Assign(c, p) => SetConsumer(s, c, Polling(p, CommittedAt(s, p)))
    case Fetch(c, count) => SetConsumer(s, c, Inserting(s.consumers[c].partition, s.consumers[c].position, count, 0))
    case InsertChunk(c, ingestedAt, fault) => NextInsert(s, c, ingestedAt, fault)
    case Commit(c, resolved, fault) => NextCommit(s, c, resolved, fault)
    case Stale(c) => SetConsumer(s, c, Polling(s.consumers[c].partition, s.consumers[c].position))
    case ConsumerCrash(c) => SetConsumer(s, c, Unassigned)
  }

  predicate Initial(s: Sys) {
    && s.created == map[] && s.outbox == map[] && s.logs == map[] && s.committed == map[] && s.sent == {} && s.sink == []
    && (forall w :: 0 <= w < |s.publishers| ==> s.publishers[w].PublisherIdle?)
    && (forall c :: 0 <= c < |s.consumers| ==> s.consumers[c].Unassigned?)
  }

  ghost predicate Legal(s: Sys, run: seq<Step>)
    decreases |run|
  {
    run == [] || (Enabled(s, run[0]) && Legal(Next(s, run[0]), run[1..]))
  }

  ghost function After(s: Sys, run: seq<Step>): Sys
    requires Legal(s, run)
    decreases |run|
  {
    if run == [] then s else After(Next(s, run[0]), run[1..])
  }

  // ---------------------------------------------------------------- the replacing table

  /** ReplacingMergeTree keeps one row for each ORDER BY key inside each PARTITION BY value. */
  datatype MergeKey = MergeKey(month: nat, eventId: string)

  function KeyOf(r: SinkRow): MergeKey { MergeKey(r.event.month, EventId(r.event.outboxId)) }

  /** The table after all merges: of the rows with one key the one ingested last stays. */
  function Merged(sink: seq<SinkRow>): map<MergeKey, SinkRow> {
    if sink == [] then map[]
    else
      var before := Merged(sink[..|sink| - 1]);
      var row := sink[|sink| - 1];
      if KeyOf(row) in before && before[KeyOf(row)].ingestedAt > row.ingestedAt then before else before[KeyOf(row) := row]
  }

  lemma {:induction false} MergedRows(sink: seq<SinkRow>)
    ensures forall k :: k in Merged(sink) ==> Merged(sink)[k] in sink && KeyOf(Merged(sink)[k]) == k
    ensures forall r :: r in sink ==> KeyOf(r) in Merged(sink)
  {
    if sink != [] {
      MergedRows(sink[..|sink| - 1]);
      assert sink == sink[..|sink| - 1] + [sink[|sink| - 1]];
    }
  }

  /** The row that stays for a key is the last of them to have been ingested, the later one of two ingested at
      once. */
  lemma {:induction false} MergedIsLast(sink: seq<SinkRow>, k: MergeKey) returns (i: nat)
    requires k in Merged(sink)
    ensures i < |sink| && sink[i] == Merged(sink)[k] && KeyOf(sink[i]) == k
    ensures forall j :: 0 <= j < |sink| && KeyOf(sink[j]) == k ==> sink[j].ingestedAt <= sink[i].ingestedAt
    ensures forall j :: i < j < |sink| && KeyOf(sink[j]) == k ==> sink[j].ingestedAt < sink[i].ingestedAt
  {
    MergedStep(sink, k);
    hide KeyOf, Merged;
    var n := |sink| - 1;
    var before := sink[..n];
    if k in Merged(before) {
      i := MergedIsLast(before, k);
      OneMoreRow(sink, before, k, i);
      if KeyOf(sink[n]) == k && sink[i].ingestedAt <= sink[n].ingestedAt { i := n; }
    } else {
      i := n;
      NoRowBefore(sink, k);
    }
  }

  /** The row ingested last before the last row is so still, unless the last row was ingested no earlier. */
  lemma OneMoreRow(sink: seq<SinkRow>, before: seq<SinkRow>, k: MergeKey, i: nat)
    requires sink != [] && before == sink[..|sink| - 1] && i < |before|
    requires forall j :: 0 <= j < |before| && KeyOf(before[j]) == k ==> before[j].ingestedAt <= before[i].ingestedAt
    requires forall j :: i < j < |before| && KeyOf(before[j]) == k ==> before[j].ingestedAt < before[i].ingestedAt
    ensures sink[i] == before[i]
    ensures forall j :: 0 <= j < |sink| - 1 && KeyOf(sink[j]) == k ==> sink[j].ingestedAt <= sink[i].ingestedAt
    ensures forall j :: i < j < |sink| - 1 && KeyOf(sink[j]) == k ==> sink[j].ingestedAt < sink[i].ingestedAt
  {
    hide KeyOf;
    assert forall j :: 0 <= j < |before| ==> before[j] == sink[j];
  }

  lemma NoRowBefore(sink: seq<SinkRow>, k: MergeKey)
    requires sink != [] && k !in Merged(sink[..|sink| - 1])
    ensures forall j :: 0 <= j < |sink| - 1 ==> KeyOf(sink[j]) != k
  {
    MergedRows(sink[..|sink| - 1]);
    hide KeyOf, Merged;
    assert forall j :: 0 <= j < |sink| - 1 ==> sink[j] in sink[..|sink| - 1];
  }

  /** What the last row inserted does to the row that stays for a key. */
  lemma MergedStep(sink: seq<SinkRow>, k: MergeKey)
    requires sink != [] && k in Merged(sink)
    ensures var before, row := Merged(sink[..|sink| - 1]), sink[|sink| - 1];
            if KeyOf(row) == k && !(k in before && before[k].ingestedAt > row.ingestedAt) then Merged(sink)[k] == row
            else k in before && Merged(sink)[k] == before[k]
  {
  }
}
