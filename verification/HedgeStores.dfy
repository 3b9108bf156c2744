/** The two stores over hedge_orders, hedge_execution_fills and inventory_positions, as classes that change
    the tables in place (backend/src/modules/hedge/postgres-hedge-job.store.ts and
    postgres-hedge-fee.store.ts).  Each method is one transaction, proved equal to its row function; an error
    rolls everything back.  now() is a parameter. */
module HedgeStores {
  import opened HedgeRoute
  import opened HedgeNetPnl
  import opened HedgeRows
  import opened HedgeFills
  import opened HedgeWorker
  import opened HedgeMachine

  const FILL_BATCH_SIZE: nat := 100

  class Database {
    var rows: seq<Row>  // indexed by hedge id, oldest first
    var fills: seq<seq<Fill>>
    var balances: map<nat, int>

    constructor (balances: map<nat, int>)
      ensures rows == [] && fills == [] && this.balances == balances
    {
      rows, fills, this.balances := [], [], balances;
    }
  }

  /** The tables after a transaction on row h with the given outcome. */
  predicate Applied(rows: seq<Row>, balances: map<nat, int>, h: nat, out: Outcome<Change>,
                    rows': seq<Row>, balances': map<nat, int>, error: Option<StoreError>)
    requires h < |rows|
  {
    match out
    case Ok(change) =>
      error.None? && rows' == rows[h := change.row] && balances' == Add(balances, rows[h].intent.token, change.delta)
    case Err(e) => error == Some(e) && rows' == rows && balances' == balances
  }

  /** Row h is next in line: eligible, and nothing eligible is due earlier or, due at once, older. */
  predicate NextInLine(due: seq<nat>, eligible: seq<bool>, h: nat)
    requires |eligible| == |due|
  {
    && h < |due| && eligible[h]
    && forall k :: 0 <= k < |due| && eligible[k] ==> due[h] < due[k] || (due[h] == due[k] && h <= k)
  }

  /** ORDER BY next_attempt_at, created_at LIMIT 1 over the eligible rows. */
  method FirstInLine(due: seq<nat>, eligible: seq<bool>) returns (best: Option<nat>)
    requires |eligible| == |due|
    ensures best.None? <==> forall k :: 0 <= k < |due| ==> !eligible[k]
    ensures best.Some? ==> NextInLine(due, eligible, best.value)
  {
    best := None;
    for k := 0 to |due|
      invariant best.None? <==> forall j :: 0 <= j < k ==> !eligible[j]
      invariant best.Some? ==> best.value < k && NextInLine(due[..k], eligible[..k], best.value)
    {
      if eligible[k] && (best.None? || due[k] < due[best.value]) { best := Some(k); }
    }
    assert due[..|due|] == due && eligible[..|due|] == eligible;
  }

  class HedgeJobStore {
    const db: Database

    constructor (db: Database)
      ensures this.db == db
    {
      this.db := db;
    }

    method ClaimNext(w: WorkerId, now: nat, leaseMs: nat) returns (job: Option<Job>)
      modifies db`rows
      ensures job.None? ==> db.rows == old(db.rows)
      ensures job.None? <==> forall k :: 0 <= k < |old(db.rows)| ==>
                !(var r := old(db.rows)[k];
                  && r.status.Queued? && (r.canonical || r.submissionAttemptedAt.Some?) && r.nextAttemptAt <= now
                  && (r.lease.None? || r.lease.value.expiresAt <= now))
      ensures job.Some? ==>
                var h, before := job.value.hedge, old(db.rows);
                && h < |before|
                && var r := before[h];
                   && r.status.Queued? && (r.canonical || r.submissionAttemptedAt.Some?) && r.nextAttemptAt <= now
                   && (r.lease.None? || r.lease.value.expiresAt <= now)
                   && db.rows == before[h := r.(lease := Some(Lease(w, now + leaseMs)), attemptCount := r.attemptCount + 1)]
                   && job.value == Job(h, r.intent, r.attemptCount + 1, r.submissionAttemptedAt.Some?,
                                       r.cancelRequestedAt.Some?)
                   && (forall k :: 0 <= k < |before| ==>
                         var q := before[k];
                         q.status.Queued? && (q.canonical || q.submissionAttemptedAt.Some?) && q.nextAttemptAt <= now
                         && (q.lease.None? || q.lease.value.expiresAt <= now) ==>
                           r.nextAttemptAt < q.nextAttemptAt || (r.nextAttemptAt == q.nextAttemptAt && h <= k))
    {
      var due := seq(|db.rows|, k requires 0 <= k < |db.rows| reads db => db.rows[k].nextAttemptAt);
      var eligible := seq(|db.rows|, k requires 0 <= k < |db.rows| reads db => Claimable(db.rows[k], now));
      var candidate := FirstInLine(due, eligible);
      if candidate.None? {
        assert forall h :: 0 <= h < |db.rows| ==> eligible[h] == Claimable(db.rows[h], now);
        return None;
      }
      var h := candidate.value;
      assert forall k :: 0 <= k < |db.rows| ==>
               eligible[k] == Claimable(db.rows[k], now) && due[k] == db.rows[k].nextAttemptAt;
      db.rows := db.rows[h := db.rows[h].(lease := Some(Lease(w, now + leaseMs)),
                                          attemptCount := db.rows[h].attemptCount + 1)];
      job := Some(JobOf(h, db.rows[h]));
    }

    method PrepareRoute(h: HedgeId, w: WorkerId, route: JobRoute) returns (error: Option<StoreError>)
      modifies db`rows
      ensures h >= |old(db.rows)| ==> error == Some(LeaseConflict) && db.rows == old(db.rows)
      ensures h < |old(db.rows)| ==>
                Applied(old(db.rows), db.balances, h, HedgeRows.PrepareRoute(old(db.rows)[h], w, route),
                        db.rows, db.balances, error)
      ensures h < |old(db.rows)| ==>
                var r := old(db.rows)[h];
                && (error.None? <==>
                      && r.status.Queued? && r.lease.Some? && r.lease.value.owner == w
                      && r.cancelRequestedAt.None? && (r.route.None? || r.route.value == route))
                && (error.None? ==>
                      db.rows == old(db.rows)[h := r.(route := Some(route),
                                                      pnl := if r.pnl.NoPnl? then PnlPending else r.pnl)])
    {
      if h >= |db.rows| { return Some(LeaseConflict); }
      var r := db.rows[h];
      if !Owns(r, w) || r.cancelRequestedAt.Some? || (r.route.Some? && r.route.value != route) {
        return Some(LeaseConflict);
      }
      db.rows := db.rows[h := r.(route := Some(route), pnl := if r.pnl.NoPnl? then PnlPending else r.pnl)];
      error := None;
    }

    method AuthorizeSubmission(h: HedgeId, w: WorkerId, now: nat) returns (error: Option<StoreError>)
      modifies db`rows
      ensures h >= |old(db.rows)| ==> error == Some(NonCanonical) && db.rows == old(db.rows)
      ensures h < |old(db.rows)| ==>
                Applied(old(db.rows), db.balances, h, HedgeRows.AuthorizeSubmission(old(db.rows)[h], w, now),
                        db.rows, db.balances, error)
      ensures h < |old(db.rows)| && !old(db.rows)[h].canonical ==> error == Some(NonCanonical) && db.rows == old(db.rows)
      ensures h < |old(db.rows)| ==>
                var r := old(db.rows)[h];
                && (error.None? <==>
                      && r.canonical
                      && r.status.Queued? && r.lease.Some? && r.lease.value.owner == w
                      && r.route.Some? && r.cancelRequestedAt.None?)
                && (error.Some? && r.canonical ==> error == Some(LeaseConflict))
                && db.rows == if error.Some? || r.submissionAttemptedAt.Some? then old(db.rows)
                              else old(db.rows)[h := r.(submissionAttemptedAt := Some(now))]
    {
      if h >= |db.rows| || !db.rows[h].canonical { return Some(NonCanonical); }
      var r := db.rows[h];
      if !Owns(r, w) || r.route.None? || r.cancelRequestedAt.Some? { return Some(LeaseConflict); }
      if r.submissionAttemptedAt.None? { r := r.(submissionAttemptedAt := Some(now)); }
      db.rows := db.rows[h := r];
      error := None;
    }

    method AuthorizeCancelIfDue(h: HedgeId, w: WorkerId, now: nat) returns (due: bool)
      modifies db`rows
      ensures due <==>
                && h < |old(db.rows)|
                && var r := old(db.rows)[h];
                   && r.status.Queued? && r.lease.Some? && r.lease.value.owner == w
                   && r.submissionAttemptedAt.Some? && r.route.Some?
                   && (r.cancelRequestedAt.Some? || r.submissionAttemptedAt.value + r.route.value.maxOrderAgeMs <= now)
      ensures db.rows == if due && old(db.rows)[h].cancelRequestedAt.None?
                         then old(db.rows)[h := old(db.rows)[h].(cancelRequestedAt := Some(now))] else old(db.rows)
      ensures due <==> h < |old(db.rows)| && CancelDue(old(db.rows)[h], w, now)
      ensures db.rows == if due then old(db.rows)[h := RequestCancel(old(db.rows)[h], now)] else old(db.rows)
    {
      due := h < |db.rows| && CancelDue(db.rows[h], w, now);
      if due && db.rows[h].cancelRequestedAt.None? {
        db.rows := db.rows[h := db.rows[h].(cancelRequestedAt := Some(now))];
      }
    }

    method RecordExternalOrderObserved(h: HedgeId, w: WorkerId, now: nat) returns (error: Option<StoreError>)
      modifies db`rows
      ensures h >= |old(db.rows)| ==> error == Some(LeaseConflict) && db.rows == old(db.rows)
      ensures h < |old(db.rows)| ==>
                Applied(old(db.rows), db.balances, h, ObserveOrder(old(db.rows)[h], w, now), db.rows, db.balances, error)
      ensures h < |old(db.rows)| ==>
                var r := old(db.rows)[h];
                && (error.None? <==> r.status.Queued? && r.lease.Some? && r.lease.value.owner == w && r.route.Some?)
                && db.rows == if error.Some? || r.submissionAttemptedAt.Some? then old(db.rows)
                              else old(db.rows)[h := r.(submissionAttemptedAt := Some(now))]
    {
      if h >= |db.rows| || !Owns(db.rows[h], w) || db.rows[h].route.None? { return Some(LeaseConflict); }
      if db.rows[h].submissionAttemptedAt.None? {
        db.rows := db.rows[h := db.rows[h].(submissionAttemptedAt := Some(now))];
      }
      error := None;
    }

    method ReleaseForRetry(h: HedgeId, w: WorkerId, now: nat, code: ErrorCode, delay: nat)
      returns (error: Option<StoreError>)
      modifies db`rows
      ensures h >= |old(db.rows)| ==> error == Some(LeaseConflict) && db.rows == old(db.rows)
      ensures h < |old(db.rows)| ==>
                Applied(old(db.rows), db.balances, h, HedgeRows.ReleaseForRetry(old(db.rows)[h], w, now, code, delay),
                        db.rows, db.balances, error)
      ensures h < |old(db.rows)| ==>
                var r := old(db.rows)[h];
                && (error.None? <==> r.status.Queued? && r.lease.Some? && r.lease.value.owner == w)
                && (error.None? ==>
                      db.rows == old(db.rows)[h := r.(lastError := Some(code), nextAttemptAt := now + delay, lease := None)])
    {
      if h >= |db.rows| || !Owns(db.rows[h], w) { return Some(LeaseConflict); }
      db.rows := db.rows[h := db.rows[h].(lastError := Some(code), nextAttemptAt := now + delay, lease := None)];
      error := None;
    }

    /** applyInventoryFillDelta. */
    method ApplyInventoryFillDelta(side: Side, token: nat, rawDelta: int)
      modifies db`balances
      ensures db.balances == Add(old(db.balances), token, Signed(side, rawDelta))
      ensures rawDelta == 0 ==> db.balances == old(db.balances)
      ensures rawDelta != 0 ==>
                db.balances == old(db.balances)[token := (if token in old(db.balances) then old(db.balances)[token] else 0)
                                                         + (if side.Buy? then rawDelta else -rawDelta)]
    {
      if rawDelta == 0 { return; }
      var signedDelta: int := if side.Buy? then rawDelta else -rawDelta;
      var balance: int := if token in db.balances then db.balances[token] else 0;
      db.balances := db.balances[token := balance + signedDelta];
    }

    method RecordExecutionProgress(h: HedgeId, w: WorkerId, now: nat, external: HedgeId, venueOrder: nat,
                                   filled: nat, quote: nat) returns (error: Option<StoreError>)
      modifies db`rows, db`balances
      ensures h >= |old(db.rows)| && filled > 0 && quote > 0 ==>
                error == Some(LeaseConflict) && db.rows == old(db.rows) && db.balances == old(db.balances)
      ensures h < |old(db.rows)| ==>
                Applied(old(db.rows), old(db.balances), h,
                        RecordProgress(old(db.rows)[h], w, now, external, venueOrder, filled, quote),
                        db.rows, db.balances, error)
    {
      if filled == 0 || quote == 0 { return Some(InvalidArgument); }
      if h >= |db.rows| || !Owns(db.rows[h], w) { return Some(LeaseConflict); }
      var r := db.rows[h];
      var previous := r.filled;
      if filled > r.intent.amount { return Some(FillExceedsRequest); }
      if previous.Some? && filled < previous.value { return Some(FillRegressed); }
      error := AssertCumulativeEvidence(r, filled, quote);
      if error.Some? { return; }
      if r.externalOrderId.Some? && r.externalOrderId.value != external { return Some(ExternalOrderConflict); }
      if r.venueOrderId.Some? && r.venueOrderId.value != venueOrder { return Some(VenueOrderConflict); }
      if r.submissionAttemptedAt.None? { r := r.(submissionAttemptedAt := Some(now)); }
      db.rows := db.rows[h := r.(externalOrderId := Some(external), venueOrderId := Some(venueOrder),
                                 filled := Some(filled), quote := Some(quote), fee := FeePending,
                                 feeNextAttemptAt := now)];
      ApplyInventoryFillDelta(r.intent.side, r.intent.token, filled - if previous.Some? then previous.value else 0);
    }

    /** assertCumulativeExecutionEvidence: after recorded evidence the quote may not fall, and it must rise
        exactly when the fill changes. */
    method AssertCumulativeEvidence(r: Row, filled: nat, quote: nat) returns (error: Option<StoreError>)
      ensures error.None? <==>
                r.quote.None? || (r.quote.value <= quote && (filled != Or0(r.filled) <==> r.quote.value < quote))
      ensures error.Some? ==> error.value == EvidenceInconsistent
    {
      if r.quote.None? { return None; }
      var fillComparison := if filled == Or0(r.filled) then 0 else 1;
      var quoteComparison: int := if quote < r.quote.value then -1 else if quote == r.quote.value then 0 else 1;
      if quoteComparison < 0 || (fillComparison == 0 && quoteComparison != 0)
         || (fillComparison > 0 && quoteComparison <= 0) {
        return Some(EvidenceInconsistent);
      }
      error := None;
    }

    /** The checks of completeTerminal on the locked row. */
    method AssertTerminal(r: Row, w: WorkerId, now: nat, status: Status, code: Option<ErrorCode>, ids: Option<OrderIds>,
                          evidence: Option<Evidence>) returns (error: Option<StoreError>)
      requires !status.Queued? && Owns(r, w)
      requires evidence.Some? ==> ids.Some? && evidence.value.filled > 0 && evidence.value.quote > 0
      ensures match HedgeRows.CompleteTerminal(r, w, now, status, code, ids, evidence)
              case Ok(_) => error.None?
              case Err(e) => error == Some(e)
    {
      hide Owns, Signed;
      if evidence.Some? {
        if evidence.value.filled > r.intent.amount { return Some(FillExceedsRequest); }
        if r.filled.Some? && evidence.value.filled < r.filled.value { return Some(FillRegressed); }
      }
      if ids.Some? {
        if r.externalOrderId.Some? && r.externalOrderId.value != ids.value.external { return Some(ExternalOrderConflict); }
        if r.venueOrderId.Some? && r.venueOrderId.value != ids.value.venueOrder { return Some(VenueOrderConflict); }
        if r.filled.Some? && evidence.None? { return Some(EvidenceDisappeared); }
      }
      if evidence.Some? {
        error := AssertCumulativeEvidence(r, evidence.value.filled, evidence.value.quote);
        if error.Some? { return; }
      }
      error := if status.Filled? && r.route.None? then Some(LeaseConflict) else None;
    }

    method CompleteTerminal(h: HedgeId, w: WorkerId, now: nat, status: Status, code: Option<ErrorCode>,
                            ids: Option<OrderIds>, evidence: Option<Evidence>) returns (error: Option<StoreError>)
      requires !status.Queued?
      modifies db`rows, db`balances
      ensures h >= |old(db.rows)| ==> error.Some? && db.rows == old(db.rows) && db.balances == old(db.balances)
      ensures h < |old(db.rows)| ==>
                Applied(old(db.rows), old(db.balances), h,
                        HedgeRows.CompleteTerminal(old(db.rows)[h], w, now, status, code, ids, evidence),
                        db.rows, db.balances, error)
    {
      hide Owns, Balance, Signed, CheckFill, CheckEvidence;
      if evidence.Some? && (ids.None? || evidence.value.filled == 0 || evidence.value.quote == 0) {
        return Some(InvalidArgument);
      }
      if h >= |db.rows| || !Owns(db.rows[h], w) { return Some(LeaseConflict); }
      var r := db.rows[h];
      var previous := r.filled;
      error := AssertTerminal(r, w, now, status, code, ids, evidence);
      if error.Some? { return; }
      if status.Failed? && evidence.None? && r.route.Some? {
        r := r.(pnl := PnlDone(Unavailable(HedgeNotExecuted, {}, now)));
      }
      r := r.(status := status, lease := None, lastError := code);
      if ids.Some? { r := r.(externalOrderId := Some(ids.value.external), venueOrderId := Some(ids.value.venueOrder)); }
      if evidence.Some? {
        r := r.(filled := Some(evidence.value.filled), quote := Some(evidence.value.quote), fee := FeePending,
                feeNextAttemptAt := now);
      }
      db.rows := db.rows[h := r];
      if evidence.Some? {
        ApplyInventoryFillDelta(r.intent.side, r.intent.token,
                                evidence.value.filled - if previous.Some? then previous.value else 0);
      }
      error := None;
    }
  }

  class HedgeFeeStore {
    const db: Database

    constructor (db: Database)
      ensures this.db == db
    {
      this.db := db;
    }

    method ClaimNext(w: WorkerId, now: nat, leaseMs: nat) returns (job: Option<FeeJob>)
      modifies db`rows
      ensures job.None? ==> db.rows == old(db.rows)
      ensures job.None? <==> forall k :: 0 <= k < |old(db.rows)| ==>
                !(var r := old(db.rows)[k];
                  && r.fee.FeePending? && r.feeNextAttemptAt <= now
                  && (r.feeLease.None? || r.feeLease.value.expiresAt <= now))
      ensures job.Some? ==>
                var h, before := job.value.hedge, old(db.rows);
                && h < |before|
                && var r := before[h];
                   && r.fee.FeePending? && r.feeNextAttemptAt <= now
                   && (r.feeLease.None? || r.feeLease.value.expiresAt <= now)
                   && db.rows == before[h := r.(feeLease := Some(Lease(w, now + leaseMs)),
                                                feeAttemptCount := r.feeAttemptCount + 1)]
                   && job.value == FeeJobOf(h, db.rows[h])
                   && job.value == FeeJob(h, r.intent, if r.filled.Some? then r.filled.value else 0,
                                          if r.quote.Some? then r.quote.value else 0,
                                          if r.venueOrderId.Some? then r.venueOrderId.value else 0, r.feeAttemptCount + 1,
                                          if r.route.Some? then r.route.value.route.symbol else "")
                   && (forall k :: 0 <= k < |before| ==>
                         var q := before[k];
                         q.fee.FeePending? && q.feeNextAttemptAt <= now
                         && (q.feeLease.None? || q.feeLease.value.expiresAt <= now) ==>
                           r.feeNextAttemptAt < q.feeNextAttemptAt || (r.feeNextAttemptAt == q.feeNextAttemptAt && h <= k))
    {
      var due := seq(|db.rows|, k requires 0 <= k < |db.rows| reads db => db.rows[k].feeNextAttemptAt);
      var eligible := seq(|db.rows|, k requires 0 <= k < |db.rows| reads db => FeeClaimable(db.rows[k], now));
      var candidate := FirstInLine(due, eligible);
      if candidate.None? {
        assert forall h :: 0 <= h < |db.rows| ==> eligible[h] == FeeClaimable(db.rows[h], now);
        return None;
      }
      var h := candidate.value;
      assert forall k :: 0 <= k < |db.rows| ==>
               eligible[k] == FeeClaimable(db.rows[k], now) && due[k] == db.rows[k].feeNextAttemptAt;
      db.rows := db.rows[h := db.rows[h].(feeLease := Some(Lease(w, now + leaseMs)),
                                          feeAttemptCount := db.rows[h].feeAttemptCount + 1)];
      job := Some(FeeJobOf(h, db.rows[h]));
    }

    /** assertFillSet. */
    method AssertFillSet(fills: seq<Fill>, venueOrder: nat) returns (ok: bool)
      ensures ok == FillSetOk(fills, venueOrder)
      ensures ok <==>
                && 1 <= |fills| <= 100_000
                && (forall i :: 0 <= i < |fills| ==> fills[i].orderId == venueOrder)
                && (forall i, j :: 0 <= i < |fills| && 0 <= j < |fills| && fills[i].tradeId == fills[j].tradeId ==> i == j)
    {
      if fills == [] || |fills| > 100_000 { return false; }
      var tradeIds: set<nat> := {};
      for k := 0 to |fills|
        invariant tradeIds == TradeIds(fills[..k])
        invariant DistinctTrades(fills[..k])
        invariant forall i :: 0 <= i < k ==> fills[i].orderId == venueOrder
      {
        if fills[k].orderId != venueOrder || fills[k].tradeId in tradeIds {
          if fills[k].tradeId in tradeIds { SeenTwice(fills, k); }
          return false;
        }
        tradeIds := tradeIds + {fills[k].tradeId};
        SeenOnce(fills, k);
      }
      assert fills[..|fills|] == fills;
      ok := true;
    }

    /** sumCexTradeQuantity for both fields. */
    method SumTrades(fills: seq<Fill>) returns (quantity: nat, quote: nat)
      ensures quantity == SumQuantity(fills) && quote == SumQuote(fills)
    {
      quantity, quote := 0, 0;
      for k := 0 to |fills|
        invariant quantity == SumQuantity(fills[..k]) && quote == SumQuote(fills[..k])
      {
        assert fills[..k + 1][..k] == fills[..k];
        quantity, quote := quantity + fills[k].quantity, quote + fills[k].quoteQuantity;
      }
      assert fills[..|fills|] == fills;
    }

    /** The batched upserts of one hedge's fills; None when a batch touches fewer rows than it holds. */
    method UpsertInBatches(table: seq<Fill>, fills: seq<Fill>) returns (stored: Option<seq<Fill>>)
      ensures stored == UpsertFills(table, fills)
    {
      hide UpsertFill;
      var current := table;
      var offset := 0;
      while offset < |fills|
        invariant 0 <= offset <= |fills|
        invariant UpsertFills(table, fills[..offset]) == Some(current)
      {
        var end := if offset + FILL_BATCH_SIZE < |fills| then offset + FILL_BATCH_SIZE else |fills|;
        var batch := fills[offset..end];
        var inserted := UpsertFills(current, batch);
        assert fills[..offset] + batch == fills[..end];
        UpsertFillsSplit(table, fills[..offset], batch);
        if inserted.None? {
          UpsertFillsSplit(table, fills[..end], fills[end..]);
          assert fills[..end] + fills[end..] == fills;
          return None;
        }
        current := inserted.value;
        offset := end;
      }
      assert fills[..offset] == fills;
      stored := Some(current);
    }

    method CompleteReconciliation(h: HedgeId, w: WorkerId, expectedFilled: nat, venueOrder: nat, quote: nat,
                                  fills: seq<Fill>) returns (error: Option<StoreError>)
      requires |db.fills| == |db.rows|
      modifies db`rows, db`fills
      ensures h >= |old(db.rows)| ==> error.Some? && db.rows == old(db.rows) && db.fills == old(db.fills)
      ensures h < |old(db.rows)| ==>
                match HedgeRows.CompleteReconciliation(old(db.rows)[h], old(db.fills)[h], w, expectedFilled, venueOrder,
                                                       quote, fills)
                case Ok(done) =>
                  error.None? && db.rows == old(db.rows)[h := done.row] && db.fills == old(db.fills)[h := done.table]
                case Err(e) => error == Some(e) && db.rows == old(db.rows) && db.fills == old(db.fills)
    {
      if expectedFilled == 0 || quote == 0 { return Some(InvalidArgument); }
      var ok := AssertFillSet(fills, venueOrder);
      var givenBase, givenQuote := SumTrades(fills);
      if !ok || !SameQuantity(givenQuote, quote) { return Some(FillSetInvalid); }
      if h >= |db.rows| || !FeeOwns(db.rows[h], w) { return Some(LeaseConflict); }
      var r := db.rows[h];
      if r.route.None? || r.filled != Some(expectedFilled) || (r.venueOrderId.Some? && r.venueOrderId.value != venueOrder)
         || (r.quote.Some? && !SameQuantity(r.quote.value, quote)) {
        return Some(FeeEvidenceConflict);
      }
      var pnl := SettledPnl(r, fills);
      if pnl.None? { return Some(NotTerminal); }
      var stored := UpsertInBatches(db.fills[h], fills);
      if stored.None? { return Some(FillConflict); }
      var storedBase, storedQuote := SumTrades(stored.value);
      if |stored.value| != |fills| || !SameQuantity(storedBase, givenBase) || !SameQuantity(storedQuote, quote) {
        return Some(AggregateConflict);
      }
      db.fills := db.fills[h := stored.value];
      db.rows := db.rows[h := r.(venueOrderId := Some(venueOrder), quote := Some(quote), fee := FeeComplete,
                                 feeLease := None, pnl := PnlDone(pnl.value))];
      error := None;
    }

    method ReleaseForRetry(h: HedgeId, w: WorkerId, now: nat, delay: nat) returns (error: Option<StoreError>)
      modifies db`rows
      ensures h >= |old(db.rows)| ==> error == Some(LeaseConflict) && db.rows == old(db.rows)
      ensures h < |old(db.rows)| ==>
                match FeeReleaseForRetry(old(db.rows)[h], w, now, delay)
                case Ok(row) => error.None? && db.rows == old(db.rows)[h := row]
                case Err(e) => error == Some(e) && db.rows == old(db.rows)
      ensures h < |old(db.rows)| ==>
                var r := old(db.rows)[h];
                && (error.None? <==> r.fee.FeePending? && r.feeLease.Some? && r.feeLease.value.owner == w)
                && (error.None? ==> db.rows == old(db.rows)[h := r.(feeNextAttemptAt := now + delay, feeLease := None)])
    {
      if h >= |db.rows| || !FeeOwns(db.rows[h], w) { return Some(LeaseConflict); }
      db.rows := db.rows[h := db.rows[h].(feeNextAttemptAt := now + delay, feeLease := None)];
      error := None;
    }
  }

  lemma SeenTwice(fills: seq<Fill>, k: nat)
    requires k < |fills| && fills[k].tradeId in TradeIds(fills[..k])
    ensures !DistinctTrades(fills)
  {
    var j :| 0 <= j < k && fills[..k][j].tradeId == fills[k].tradeId;
    assert fills[j].tradeId == fills[k].tradeId;
  }

  lemma SeenOnce(fills: seq<Fill>, k: nat)
    requires k < |fills| && DistinctTrades(fills[..k]) && fills[k].tradeId !in TradeIds(fills[..k])
    ensures DistinctTrades(fills[..k + 1])
    ensures TradeIds(fills[..k + 1]) == TradeIds(fills[..k]) + {fills[k].tradeId}
  {
    forall j | 0 <= j < k ensures fills[j].tradeId != fills[k].tradeId {
      assert fills[..k][j].tradeId in TradeIds(fills[..k]);
    }
    forall id | id in TradeIds(fills[..k + 1]) ensures id in TradeIds(fills[..k]) + {fills[k].tradeId} {
      var j :| 0 <= j < k + 1 && fills[..k + 1][j].tradeId == id;
      if j < k { assert fills[..k][j].tradeId == id; }
    }
    forall id | id in TradeIds(fills[..k]) + {fills[k].tradeId} ensures id in TradeIds(fills[..k + 1]) {
      if id == fills[k].tradeId { assert fills[..k + 1][k].tradeId == id; }
      else {
        var j :| 0 <= j < k && fills[..k][j].tradeId == id;
        assert fills[..k + 1][j].tradeId == id;
      }
    }
  }
}
