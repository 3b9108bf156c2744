/** No event is lost and none is counted twice, over every run of the analytics pipeline. */
module AnalyticsSafety {
  import opened AnalyticsPipeline

  // ---------------------------------------------------------------- invariant

  predicate IsCreated(s: Sys, e: Event) { e.outboxId in s.created && s.created[e.outboxId] == e }

  /** Each event ever created is still unpublished in the outbox or is in the log of its topic. */
  ghost predicate NotLost(s: Sys, id: nat)
    requires id in s.created
  {
    (id in s.outbox && s.outbox[id].publishedAt.None?) || InLog(s, s.created[id])
  }

  ghost predicate OutboxOk(s: Sys) {
    && (forall id :: id in s.outbox ==>
          id in s.created && s.outbox[id].event == s.created[id] && s.created[id].outboxId == id)
    && (forall id :: id in s.created ==> s.created[id].outboxId == id && NotLost(s, id))
  }

  ghost predicate LogsOk(s: Sys) {
    && (forall e :: e in s.sent ==> IsCreated(s, e))
    && (forall p, k :: p in s.logs && 0 <= k < |s.logs[p]| ==> s.logs[p][k].topic == p.topic && IsCreated(s, s.logs[p][k]))
  }

  predicate PublisherRecords(p: Publisher, s: Sys) {
    !p.PublisherIdle? ==> forall k :: 0 <= k < |p.records| ==> IsCreated(s, p.records[k])
  }

  ghost predicate PublisherOk(p: Publisher, s: Sys) {
    PublisherRecords(p, s) && (p.Marking? && p.records != [] ==> InLog(s, p.records[0]))
  }

  ghost predicate PublishersOk(s: Sys) { forall w :: 0 <= w < |s.publishers| ==> PublisherOk(s.publishers[w], s) }

  /** The message at an offset has been inserted, from that partition and offset. */
  ghost predicate Projected(s: Sys, p: Partition, offset: nat) {
    offset < |Log(s, p)| && exists r :: r in s.sink && r.partition == p && r.offset == offset && r.event == Log(s, p)[offset]
  }

  ghost predicate ProjectedBelow(s: Sys, p: Partition, offset: nat) {
    offset <= |Log(s, p)| && forall k :: 0 <= k < offset ==> Projected(s, p, k)
  }

  ghost predicate ConsumerOk(c: Consumer, s: Sys) {
    match c
    case Unassigned => true
    case Polling(p, position) => p.topic == s.topic && ProjectedBelow(s, p, position)
    case Inserting(p, position, count, done) =>
      p.topic == s.topic && position + count <= |Log(s, p)| && done <= count && ProjectedBelow(s, p, position + done)
    case Committing(p, position, count) =>
      p.topic == s.topic && ProjectedBelow(s, p, position + count) && ProjectedBelow(s, p, position)
  }

  ghost predicate ConsumersOk(s: Sys) {
    && (forall c :: 0 <= c < |s.consumers| ==> ConsumerOk(s.consumers[c], s))
    && (forall p :: p in s.committed ==> p.topic == s.topic && ProjectedBelow(s, p, s.committed[p]))
  }

  /** The table holds only messages of the log. */
  ghost predicate SinkOk(s: Sys) {
    forall r :: r in s.sink ==>
      r.partition.topic == s.topic && r.offset < |Log(s, r.partition)| && r.event == Log(s, r.partition)[r.offset]
  }

  ghost predicate Inv(s: Sys) { OutboxOk(s) && LogsOk(s) && PublishersOk(s) && ConsumersOk(s) && SinkOk(s) }

  // ---------------------------------------------------------------- what grows

  /** Logs and table only grow, created events stay. */
  ghost predicate Grows(s: Sys, s': Sys) {
    && s'.topic == s.topic
    && (forall id :: id in s.created ==> id in s'.created && s'.created[id] == s.created[id])
    && (forall p :: p in s.logs ==> p in s'.logs && s.logs[p] <= s'.logs[p])
    && (forall r :: r in s.sink ==> r in s'.sink)
  }

  lemma InLogGrows(s: Sys, s': Sys, e: Event)
    requires Grows(s, s') && InLog(s, e)
    ensures InLog(s', e)
  {
    var p :| p in s.logs && p.topic == e.topic && e in s.logs[p];
    var k :| 0 <= k < |s.logs[p]| && s.logs[p][k] == e;
    assert s'.logs[p][k] == e;
  }

  lemma LogGrows(s: Sys, s': Sys, p: Partition)
    requires Grows(s, s')
    ensures Log(s, p) <= Log(s', p)
  {
  }

  lemma ProjectedBelowGrows(s: Sys, s': Sys, p: Partition, offset: nat)
    requires Grows(s, s') && ProjectedBelow(s, p, offset)
    ensures ProjectedBelow(s', p, offset)
  {
    LogGrows(s, s', p);
    forall k | 0 <= k < offset ensures Projected(s', p, k) {
      assert Projected(s, p, k);
      var r :| r in s.sink && r.partition == p && r.offset == k && r.event == Log(s, p)[k];
      assert r in s'.sink;
    }
  }

  lemma PublisherGrows(s: Sys, s': Sys, p: Publisher)
    requires Grows(s, s') && PublisherOk(p, s)
    ensures PublisherOk(p, s')
  {
    if p.Marking? && p.records != [] { InLogGrows(s, s', p.records[0]); }
  }

  lemma ConsumerGrows(s: Sys, s': Sys, c: Consumer)
    requires Grows(s, s') && ConsumerOk(c, s)
    ensures ConsumerOk(c, s')
  {
    hide ProjectedBelow;
    match c
    case Unassigned =>
    case Polling(p, position) => ProjectedBelowGrows(s, s', p, position);
    case Inserting(p, position, _, done) => LogGrows(s, s', p); ProjectedBelowGrows(s, s', p, position + done);
    case Committing(p, position, count) =>
      ProjectedBelowGrows(s, s', p, position + count);
      ProjectedBelowGrows(s, s', p, position);
  }

  /** Everyone else's view survives a step that only grows; the acting publisher or consumer is proved apart. */
  lemma OthersGrow(s: Sys, s': Sys)
    requires Inv(s) && Grows(s, s')
    requires |s'.publishers| == |s.publishers| && |s'.consumers| == |s.consumers|
    requires forall w :: 0 <= w < |s.publishers| ==> s'.publishers[w] == s.publishers[w] || PublisherOk(s'.publishers[w], s')
    requires forall c :: 0 <= c < |s.consumers| ==> s'.consumers[c] == s.consumers[c] || ConsumerOk(s'.consumers[c], s')
    requires forall p :: p in s'.committed ==>
               (p in s.committed && s'.committed[p] == s.committed[p])
               || (p.topic == s'.topic && ProjectedBelow(s', p, s'.committed[p]))
    ensures PublishersOk(s') && ConsumersOk(s')
  {
    hide PublisherOk, ConsumerOk, Grows, ProjectedBelow;
    forall w | 0 <= w < |s.publishers| ensures PublisherOk(s'.publishers[w], s') {
      if s'.publishers[w] == s.publishers[w] { PublisherGrows(s, s', s.publishers[w]); }
    }
    forall c | 0 <= c < |s.consumers| ensures ConsumerOk(s'.consumers[c], s') {
      if s'.consumers[c] == s.consumers[c] { ConsumerGrows(s, s', s.consumers[c]); }
    }
    forall p | p in s'.committed ensures p.topic == s'.topic && ProjectedBelow(s', p, s'.committed[p]) {
      if p in s.committed && s'.committed[p] == s.committed[p] {
        ProjectedBelowGrows(s, s', p, s.committed[p]);
        SameTopic(s, s');
      }
    }
  }

  lemma SameTopic(s: Sys, s': Sys)
    requires Grows(s, s')
    ensures s'.topic == s.topic
  {
  }

  lemma SinkGrows(s: Sys, s': Sys)
    requires SinkOk(s) && Grows(s, s') && s'.sink == s.sink
    ensures SinkOk(s')
  {
    forall r | r in s'.sink
      ensures r.partition.topic == s'.topic && r.offset < |Log(s', r.partition)| && r.event == Log(s', r.partition)[r.offset]
    {
      LogGrows(s, s', r.partition);
    }
  }

  /** A step of the outbox: no unpublished event disappears unless it is in the log. */
  lemma OutboxStep(s: Sys, s': Sys)
    requires OutboxOk(s) && Grows(s, s') && s'.created == s.created
    requires forall id :: id in s'.outbox ==> id in s.outbox && s'.outbox[id].event == s.outbox[id].event
    requires forall id :: id in s.outbox && s.outbox[id].publishedAt.None? ==>
               (id in s'.outbox && s'.outbox[id].publishedAt.None?) || InLog(s', s.created[id])
    ensures OutboxOk(s')
  {
    forall id | id in s'.created ensures s'.created[id].outboxId == id && NotLost(s', id) {
      assert NotLost(s, id);
      if InLog(s, s.created[id]) { InLogGrows(s, s', s.created[id]); }
    }
  }

  lemma LogsStep(s: Sys, s': Sys)
    requires LogsOk(s) && Grows(s, s') && s'.logs == s.logs
    requires forall e :: e in s'.sent ==> e in s.sent || IsCreated(s', e)
    ensures LogsOk(s')
  {
  }

  // ---------------------------------------------------------------- steps

  lemma ClaimInv(s: Sys, w: nat, ids: seq<nat>, leaseMs: nat, fault: Fault)
    requires Inv(s) && Enabled(s, ClaimBatch(w, ids, leaseMs, fault))
    ensures Inv(NextClaim(s, w, ids, leaseMs, fault))
  {
    hide InLog, ProjectedBelow, SinkOk, ConsumerOk, LogsOk, OutboxOk;
    var s' := NextClaim(s, w, ids, leaseMs, fault);
    assert Grows(s, s');
    OutboxStep(s, s');
    LogsStep(s, s');
    SinkGrows(s, s');
    ClaimedRecords(s, ids);
    if !fault.LostBefore? { assert PublisherOk(s'.publishers[w], s') by { assert PublisherOk(s.publishers[w], s); } }
    hide Grows, PublisherOk;
    OthersGrow(s, s');
  }

  lemma ClaimedRecords(s: Sys, ids: seq<nat>)
    requires OutboxOk(s) && forall i :: 0 <= i < |ids| ==> ids[i] in s.outbox
    ensures forall i :: 0 <= i < |ids| ==> IsCreated(s, s.outbox[ids[i]].event)
  {
  }

  lemma PublisherMoves(s: Sys, w: nat, p: Publisher, sent: set<Event>)
    requires Inv(s) && HasPublisher(s, w) && PublisherOk(p, s)
    requires forall e :: e in sent ==> e in s.sent || IsCreated(s, e)
    ensures Inv(SetPublisher(s, w, p).(sent := sent))
  {
    hide InLog, ProjectedBelow;
    var s' := SetPublisher(s, w, p).(sent := sent);
    OutboxStep(s, s');
    LogsStep(s, s');
    PublisherGrows(s, s', p);
    OthersGrow(s, s');
    SinkGrows(s, s');
  }

  /** Marking or releasing the record at hand. */
  lemma StatementInv(s: Sys, s': Sys, w: nat)
    requires Inv(s) && HasPublisher(s, w) && !s.publishers[w].PublisherIdle? && s.publishers[w].records != []
    requires var records := s.publishers[w].records;
             var id := records[0].outboxId;
             && |s'.publishers| == |s.publishers|
             && s' == s.(outbox := s'.outbox, publishers := s.publishers[w := s'.publishers[w]])
             && (s'.publishers[w] == NextRecord(records) || s'.publishers[w] == Releasing(records)
                 || s'.publishers[w] == PublisherIdle)
             && (s'.outbox == s.outbox
                 || (id in s.outbox && s.publishers[w].Marking? && s'.outbox == Marked(s.outbox, id, s.now))
                 || (id in s.outbox && s.outbox[id].publishedAt.None?
                     && exists at :: s'.outbox == ReleasedRow(s.outbox, id, at)))
    ensures Inv(s')
  {
    hide InLog, ProjectedBelow;
    assert PublisherOk(s.publishers[w], s);
    assert IsCreated(s, s.publishers[w].records[0]);
    assert Grows(s, s');
    if s.publishers[w].Marking? { InLogGrows(s, s', s.publishers[w].records[0]); }
    OutboxStep(s, s');
    LogsStep(s, s');
    assert PublisherOk(s'.publishers[w], s');
    OthersGrow(s, s');
    SinkGrows(s, s');
  }

  lemma AppendInv(s: Sys, message: Event, index: nat)
    requires Inv(s) && Enabled(s, Append(message, index))
    ensures Inv(Next(s, Append(message, index)))
  {
    hide InLog, ProjectedBelow;
    var s' := Next(s, Append(message, index));
    assert Grows(s, s');
    OutboxStep(s, s');
    OthersGrow(s, s');
    SinkGrows(s, s');
  }

  lemma WriteInv(s: Sys, e: Event)
    requires Inv(s) && Enabled(s, WriteEvent(e))
    ensures Inv(Next(s, WriteEvent(e)))
  {
    hide InLog, ProjectedBelow;
    var s' := Next(s, WriteEvent(e));
    assert Grows(s, s');
    forall id | id in s'.created ensures s'.created[id].outboxId == id && NotLost(s', id) {
      if id != e.outboxId {
        assert NotLost(s, id);
        if InLog(s, s.created[id]) { InLogGrows(s, s', s.created[id]); }
      }
    }
    LogsStep(s, s');
    OthersGrow(s, s');
    SinkGrows(s, s');
  }

  lemma DeleteInv(s: Sys, expired: set<nat>, cutoff: nat)
    requires Inv(s) && Enabled(s, DeletePublished(expired, cutoff))
    ensures Inv(Next(s, DeletePublished(expired, cutoff)))
  {
    hide InLog, ProjectedBelow;
    var s' := Next(s, DeletePublished(expired, cutoff));
    OutboxStep(s, s');
    LogsStep(s, s');
    OthersGrow(s, s');
    SinkGrows(s, s');
  }

  lemma ConsumerMoves(s: Sys, c: nat, k: Consumer)
    requires Inv(s) && HasConsumer(s, c) && ConsumerOk(k, s)
    ensures Inv(SetConsumer(s, c, k))
  {
    hide InLog, ProjectedBelow;
    var s' := SetConsumer(s, c, k);
    OutboxStep(s, s');
    LogsStep(s, s');
    ConsumerGrows(s, s', k);
    OthersGrow(s, s');
    SinkGrows(s, s');
  }

  lemma RowsProject(s: Sys, p: Partition, from: nat, to: nat, at: nat)
    requires from <= to <= |Log(s, p)|
    ensures var rows := SinkRows(Log(s, p), p, from, to, at);
            var s' := s.(sink := s.sink + rows);
            && (ProjectedBelow(s, p, from) ==> ProjectedBelow(s', p, to))
            && (forall r :: r in rows ==> r.partition == p && r.offset < |Log(s, p)| && r.event == Log(s, p)[r.offset])
  {
    var rows := SinkRows(Log(s, p), p, from, to, at);
    var s' := s.(sink := s.sink + rows);
    if ProjectedBelow(s, p, from) {
      forall k | 0 <= k < to ensures Projected(s', p, k) {
        if k < from {
          assert Projected(s, p, k);
          var r :| r in s.sink && r.partition == p && r.offset == k && r.event == Log(s, p)[k];
          assert r in s'.sink;
        } else {
          assert rows[k - from] in s'.sink;
        }
      }
    }
  }

  lemma InsertInv(s: Sys, c: nat, at: nat, fault: Fault)
    requires Inv(s) && Enabled(s, InsertChunk(c, at, fault))
    ensures Inv(NextInsert(s, c, at, fault))
  {
    hide InLog, ProjectedBelow;
    var s' := NextInsert(s, c, at, fault);
    var k := s.consumers[c];
    assert ConsumerOk(k, s);
    var end := ChunkEnd(k.done, k.count);
    RowsProject(s, k.partition, k.position + k.done, k.position + end, at);
    assert Grows(s, s');
    BelowLess(s, k.partition, k.position, k.position + k.done);
    ProjectedBelowGrows(s, s', k.partition, k.position);
    if fault.NoFault? {
      var grown := s.(sink := s.sink + SinkRows(Log(s, k.partition), k.partition, k.position + k.done, k.position + end, at));
      assert ProjectedBelow(grown, k.partition, k.position + end);
      SameProjection(grown, s', k.partition, k.position + end);
    }
    OutboxStep(s, s');
    LogsStep(s, s');
    OthersGrow(s, s');
  }

  lemma BelowLess(s: Sys, p: Partition, a: nat, b: nat)
    requires a <= b && ProjectedBelow(s, p, b)
    ensures ProjectedBelow(s, p, a)
  {
  }

  lemma SameProjection(s: Sys, s': Sys, p: Partition, offset: nat)
    requires s'.logs == s.logs && s'.sink == s.sink && ProjectedBelow(s, p, offset)
    ensures ProjectedBelow(s', p, offset)
  {
    forall k | 0 <= k < offset ensures Projected(s', p, k) { assert Projected(s, p, k); }
  }

  lemma CommitInv(s: Sys, c: nat, resolved: bool, fault: Fault)
    requires Inv(s) && Enabled(s, Commit(c, resolved, fault))
    ensures Inv(NextCommit(s, c, resolved, fault))
  {
    hide InLog, ProjectedBelow;
    var s' := NextCommit(s, c, resolved, fault);
    var k := s.consumers[c];
    assert ConsumerOk(k, s);
    assert Grows(s, s');
    SameProjection(s, s', k.partition, k.position + k.count);
    SameProjection(s, s', k.partition, k.position);
    OutboxStep(s, s');
    LogsStep(s, s');
    OthersGrow(s, s');
    SinkGrows(s, s');
  }

  lemma InvNext(s: Sys, step: Step)
    requires Inv(s) && Enabled(s, step)
    ensures Inv(Next(s, step))
  {
    match step
    case Tick(to) => TickInv(s, to);
    case WriteEvent(e) => WriteInv(s, e);
    case ClaimBatch(w, ids, leaseMs, fault) => ClaimInv(s, w, ids, leaseMs, fault);
    case StartRecord(w, stopped) => StartInv(s, w, stopped);
    case Append(message, index) => AppendInv(s, message, index);
    case PublishReply(w, acknowledged) => ReplyInv(s, w, acknowledged);
    case MarkPublished(w, fault) => MarkInv(s, w, fault);
    case ReleaseRecord(w, delay, fault) => ReleaseInv(s, w, delay, fault);
    case PublisherCrash(w) => CrashInv(s, w);
    case DeletePublished(expired, cutoff) => DeleteInv(s, expired, cutoff);
    case Assign(c, p) => AssignInv(s, c, p);
    case Fetch(c, count) => FetchInv(s, c, count);
    case InsertChunk(c, at, fault) => InsertInv(s, c, at, fault);
    case Commit(c, resolved, fault) => CommitInv(s, c, resolved, fault);
    case Stale(c) => StaleInv(s, c);
    case ConsumerCrash(c) => ConsumerMoves(s, c, Unassigned);
  }

  lemma TickInv(s: Sys, to: nat)
    requires Inv(s)
    ensures Inv(s.(now := to))
  {
    hide InLog, ProjectedBelow;
    var s' := s.(now := to);
    OutboxStep(s, s');
    LogsStep(s, s');
    OthersGrow(s, s');
    SinkGrows(s, s');
  }

  lemma StartInv(s: Sys, w: nat, stopped: bool)
    requires Inv(s) && Enabled(s, StartRecord(w, stopped))
    ensures Inv(Next(s, StartRecord(w, stopped)))
  {
    var records := s.publishers[w].records;
    assert PublisherOk(s.publishers[w], s);
    assert IsCreated(s, records[0]);
    var sent := if stopped then s.sent else s.sent + {records[0]};
    PublisherMoves(s, w, if stopped then Releasing(records) else Publishing(records), sent);
  }

  lemma ReplyInv(s: Sys, w: nat, acknowledged: bool)
    requires Inv(s) && Enabled(s, PublishReply(w, acknowledged))
    ensures Inv(Next(s, PublishReply(w, acknowledged)))
  {
    var records := s.publishers[w].records;
    assert PublisherOk(s.publishers[w], s);
    PublisherMoves(s, w, if acknowledged then Marking(records) else Releasing(records), s.sent);
  }

  lemma MarkInv(s: Sys, w: nat, fault: Fault)
    requires Inv(s) && Enabled(s, MarkPublished(w, fault))
    ensures Inv(NextMark(s, w, fault))
  {
    hide Inv, Marked;
    StatementInv(s, NextMark(s, w, fault), w);
  }

  lemma ReleaseInv(s: Sys, w: nat, delay: nat, fault: Fault)
    requires Inv(s) && Enabled(s, ReleaseRecord(w, delay, fault))
    ensures Inv(NextRelease(s, w, delay, fault))
  {
    hide Inv, ReleasedRow;
    StatementInv(s, NextRelease(s, w, delay, fault), w);
  }

  lemma CrashInv(s: Sys, w: nat)
    requires Inv(s) && HasPublisher(s, w)
    ensures Inv(SetPublisher(s, w, PublisherIdle))
  {
    PublisherMoves(s, w, PublisherIdle, s.sent);
  }

  lemma AssignInv(s: Sys, c: nat, p: Partition)
    requires Inv(s) && Enabled(s, Assign(c, p))
    ensures Inv(Next(s, Assign(c, p)))
  {
    ConsumerMoves(s, c, Polling(p, CommittedAt(s, p)));
  }

  lemma FetchInv(s: Sys, c: nat, count: nat)
    requires Inv(s) && Enabled(s, Fetch(c, count))
    ensures Inv(Next(s, Fetch(c, count)))
  {
    assert ConsumerOk(s.consumers[c], s);
    hide ProjectedBelow;
    ConsumerMoves(s, c, Inserting(s.consumers[c].partition, s.consumers[c].position, count, 0));
  }

  lemma StaleInv(s: Sys, c: nat)
    requires Inv(s) && Enabled(s, Stale(c))
    ensures Inv(Next(s, Stale(c)))
  {
    assert ConsumerOk(s.consumers[c], s);
    hide ProjectedBelow;
    ConsumerMoves(s, c, Polling(s.consumers[c].partition, s.consumers[c].position));
  }

  lemma {:induction false} RunInv(s: Sys, run: seq<Step>)
    requires Inv(s) && Legal(s, run)
    ensures Inv(After(s, run))
    decreases |run|
  {
    if run != [] {
      InvNext(s, run[0]);
      RunInv(Next(s, run[0]), run[1..]);
    }
  }

  lemma Reached(s: Sys, run: seq<Step>)
    requires Initial(s) && Legal(s, run)
    ensures Inv(After(s, run))
  {
    RunInv(s, run);
  }

  // ---------------------------------------------------------------- theorems

  /** Every outbox row ever created is still unpublished in the outbox or present in the log of its topic,
      whatever publishers, faults and retention deletes did. */
  lemma NothingLost(s: Sys, run: seq<Step>, id: nat)
    requires Initial(s) && Legal(s, run) && id in After(s, run).created
    ensures var now := After(s, run);
            (id in now.outbox && now.outbox[id].publishedAt.None? && now.outbox[id].event == now.created[id])
            || InLog(now, now.created[id])
  {
    Reached(s, run);
    assert NotLost(After(s, run), id);
  }

  /** Every message below a committed offset is in the table, with its own content. */
  lemma CommittedIsProjected(s: Sys, run: seq<Step>, p: Partition, offset: nat)
    requires Initial(s) && Legal(s, run) && offset < CommittedAt(After(s, run), p)
    ensures offset < |Log(After(s, run), p)|
    ensures exists r :: r in After(s, run).sink && r.partition == p && r.offset == offset
                        && r.event == Log(After(s, run), p)[offset]
  {
    Reached(s, run);
    var now := After(s, run);
    assert ProjectedBelow(now, p, now.committed[p]);
    assert Projected(now, p, offset);
  }

  /** Rows of the merged table that carry an event id. */
  function RowsOf(sink: seq<SinkRow>, eventId: string): set<MergeKey> {
    set k | k in Merged(sink) && k.eventId == eventId
  }

  /** Duplicates share content and month, so after merging the table holds exactly one row per projected event
      id, with the event as it was created, although it merges only inside a month. */
  lemma OneRowPerEvent(s: Sys, run: seq<Step>, r: SinkRow)
    requires Initial(s) && Legal(s, run) && r in After(s, run).sink
    ensures var now := After(s, run);
            && RowsOf(now.sink, EventId(r.event.outboxId)) == {KeyOf(r)}
            && KeyOf(r) in Merged(now.sink)
            && Merged(now.sink)[KeyOf(r)].event == r.event
            && r.event.outboxId in now.created && now.created[r.event.outboxId] == r.event
  {
    Reached(s, run);
    var now := After(s, run);
    MergedRows(now.sink);
    forall k | k in RowsOf(now.sink, EventId(r.event.outboxId)) ensures k == KeyOf(r) {
      var other := Merged(now.sink)[k];
      EventIdInjective(other.event.outboxId, r.event.outboxId);
      SinkRowCreated(now, other);
      SinkRowCreated(now, r);
    }
    SinkRowCreated(now, r);
    var kept := Merged(now.sink)[KeyOf(r)];
    EventIdInjective(kept.event.outboxId, r.event.outboxId);
    SinkRowCreated(now, kept);
  }

  lemma SinkRowCreated(s: Sys, r: SinkRow)
    requires Inv(s) && r in s.sink
    ensures IsCreated(s, r.event)
  {
    var log := Log(s, r.partition);
    assert r.event == log[r.offset];
  }

  /** Once every event is published and every partition committed to its end, the merged table holds exactly
      the events ever created for the topic, each once. */
  lemma CaughtUpIsExact(s: Sys, run: seq<Step>, id: nat)
    requires Initial(s) && Legal(s, run)
    requires forall o :: o in After(s, run).outbox ==> After(s, run).outbox[o].publishedAt.Some?
    requires forall p :: p in After(s, run).logs && p.topic == After(s, run).topic ==>
               CommittedAt(After(s, run), p) == |Log(After(s, run), p)|
    ensures var now := After(s, run);
            |RowsOf(now.sink, EventId(id))| == if id in now.created && now.created[id].topic == now.topic then 1 else 0
  {
    Reached(s, run);
    var now := After(s, run);
    if id in now.created && now.created[id].topic == now.topic {
      var p, offset := LoggedAt(now, id);
      CommittedIsProjected(s, run, p, offset);
      var r :| r in now.sink && r.partition == p && r.offset == offset && r.event == Log(now, p)[offset];
      OneRowPerEvent(s, run, r);
    } else if RowsOf(now.sink, EventId(id)) != {} {
      MergedRows(now.sink);
      var k :| k in RowsOf(now.sink, EventId(id));
      NotProjected(now, Merged(now.sink)[k], id);
    }
  }

  lemma LoggedAt(s: Sys, id: nat) returns (p: Partition, offset: nat)
    requires Inv(s) && id in s.created
    requires id in s.outbox ==> s.outbox[id].publishedAt.Some?
    ensures p in s.logs && p.topic == s.created[id].topic && offset < |s.logs[p]| && s.logs[p][offset] == s.created[id]
  {
    assert NotLost(s, id);
    p :| p in s.logs && p.topic == s.created[id].topic && s.created[id] in s.logs[p];
    offset :| 0 <= offset < |s.logs[p]| && s.logs[p][offset] == s.created[id];
  }

  lemma NotProjected(s: Sys, r: SinkRow, id: nat)
    requires Inv(s) && r in s.sink && EventId(r.event.outboxId) == EventId(id)
    ensures id in s.created && s.created[id].topic == s.topic
  {
    EventIdInjective(r.event.outboxId, id);
    SinkRowCreated(s, r);
    assert r.event == Log(s, r.partition)[r.offset];
  }
}
