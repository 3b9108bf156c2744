/** Rows of hedge_orders and the guarded statements that change them
    (backend/src/modules/hedge/postgres-hedge-job.store.ts and postgres-hedge-fee.store.ts).  Every
    statement or transaction is one function from the row to its outcome; an Err leaves the row as it was. */
module HedgeRows {
  import opened HedgeRoute
  import opened HedgeNetPnl

  type WorkerId = nat
  type HedgeId = nat  // also the client order id, which is derived from it injectively

  datatype IntentFields = IntentFields(
    side: Side,
    token: nat,
    amount: nat,
    referenceToken: nat,
    referenceAmount: nat,
    tokenDecimals: nat)

  /** A hedge intent with the reference leg of its quote and the registry decimals of its token. */
  type Intent = i: IntentFields | i.amount > 0 && i.referenceAmount > 0 && i.tokenDecimals <= 36
    witness IntentFields(Buy, 1, 1, 2, 1, 18)

  /** The columns that prepareRoute writes. */
  datatype JobRoute = JobRoute(route: Route, clientOrderId: HedgeId, limitPrice: nat, maxOrderAgeMs: nat)

  datatype Status = Queued | Filled | Failed

  datatype Lease = Lease(owner: WorkerId, expiresAt: nat)

  datatype ErrorCode =
    | RouteNotConfigured
    | ReferenceTokenMismatch
    | AmountBelowStepSize
    | SettlementNonCanonical
    | WorkerInternal
    | VenueResponseInvalid
    | ExecutedQuantityInvalid
    | SubmissionUnconfirmed
    | CancelUnconfirmed
    | OrderPendingCode
    | CancelPendingCode
    | FeeOrderUnconfirmed
    | TradeFillsIncomplete
    | FeeWorkerInternal
    | VenueCode(code: nat)

  datatype FeeStatus = NoFee | FeePending | FeeComplete

  datatype PnlColumn = NoPnl | PnlPending | PnlDone(pnl: NetPnl)

  datatype Row = Row(
    intent: Intent,
    canonical: bool,  // of the settlement event the hedge belongs to
    status: Status,
    lease: Option<Lease>,
    nextAttemptAt: nat,
    attemptCount: nat,
    route: Option<JobRoute>,  // None while venue is 'internal'
    submissionAttemptedAt: Option<nat>,
    cancelRequestedAt: Option<nat>,
    externalOrderId: Option<HedgeId>,
    venueOrderId: Option<nat>,
    filled: Option<nat>,
    quote: Option<nat>,
    lastError: Option<ErrorCode>,
    fee: FeeStatus,
    feeLease: Option<Lease>,
    feeNextAttemptAt: nat,
    feeAttemptCount: nat,
    pnl: PnlColumn)

  function FreshRow(intent: Intent, now: nat): Row {
    Row(intent, true, Queued, None, now, 0, None, None, None, None, None, None, None, None, NoFee, None, now, 0, NoPnl)
  }

  datatype StoreError =
    | LeaseConflict
    | NonCanonical
    | InvalidArgument
    | FillExceedsRequest
    | FillRegressed
    | EvidenceInconsistent
    | EvidenceDisappeared
    | ExternalOrderConflict
    | VenueOrderConflict
    | FillSetInvalid
    | FeeEvidenceConflict
    | NotTerminal
    | FillConflict
    | AggregateConflict
    | ConnectionLost

  datatype Outcome<+T> = Ok(value: T) | Err(error: StoreError)

  /** The new row and the inventory movement committed with it. */
  datatype Change = Change(row: Row, delta: int)

  function Signed(side: Side, amount: int): int { if side.Buy? then amount else -amount }

  function Or0(o: Option<nat>): nat { if o.Some? then o.value else 0 }

  function Coalesce<T>(a: Option<T>, b: T): Option<T> { if a.Some? then a else Some(b) }

  // ---------------------------------------------------------------- the execution lease

  predicate LeaseFree(lease: Option<Lease>, now: nat) { lease.None? || lease.value.expiresAt <= now }

  predicate Claimable(r: Row, now: nat) {
    && r.status.Queued?
    && (r.canonical || r.submissionAttemptedAt.Some?)
    && r.nextAttemptAt <= now
    && LeaseFree(r.lease, now)
  }

  function ClaimRow(r: Row, w: WorkerId, now: nat, leaseMs: nat): Row {
    r.(lease := Some(Lease(w, now + leaseMs)), attemptCount := r.attemptCount + 1)
  }

  /** WHERE status = 'queued' AND lease_owner = $2.  Expiry is not part of the guard. */
  predicate Owns(r: Row, w: WorkerId) {
    r.status.Queued? && r.lease.Some? && r.lease.value.owner == w
  }

  /** First write on a fresh row, or an exact repetition; never after a cancel request. */
  function PrepareRoute(r: Row, w: WorkerId, route: JobRoute): Outcome<Change> {
    if Owns(r, w) && r.cancelRequestedAt.None? && (r.route.None? || r.route == Some(route))
    then Ok(Change(r.(route := Some(route), pnl := if r.pnl.NoPnl? then PnlPending else r.pnl), 0))
    else Err(LeaseConflict)
  }

  function AuthorizeSubmission(r: Row, w: WorkerId, now: nat): Outcome<Change> {
    if !r.canonical then Err(NonCanonical)
    else if Owns(r, w) && r.route.Some? && r.cancelRequestedAt.None?
    then Ok(Change(r.(submissionAttemptedAt := Coalesce(r.submissionAttemptedAt, now)), 0))
    else Err(LeaseConflict)
  }

  predicate CancelDue(r: Row, w: WorkerId, now: nat) {
    && Owns(r, w)
    && r.submissionAttemptedAt.Some?
    && r.route.Some?
    && (r.cancelRequestedAt.Some? || r.submissionAttemptedAt.value + r.route.value.maxOrderAgeMs <= now)
  }

  function RequestCancel(r: Row, now: nat): Row { r.(cancelRequestedAt := Coalesce(r.cancelRequestedAt, now)) }

  function ObserveOrder(r: Row, w: WorkerId, now: nat): Outcome<Change> {
    if Owns(r, w) && r.route.Some?
    then Ok(Change(r.(submissionAttemptedAt := Coalesce(r.submissionAttemptedAt, now)), 0))
    else Err(LeaseConflict)
  }

  /** assertCumulativeFill and assertCumulativeExecutionEvidence against the locked row. */
  function CheckFill(r: Row, filled: nat): Option<StoreError> {
    if filled > r.intent.amount then Some(FillExceedsRequest)
    else if r.filled.Some? && filled < r.filled.value then Some(FillRegressed)
    else None
  }

  function CheckEvidence(r: Row, filled: nat, quote: nat): Option<StoreError> {
    if r.quote.None? then None
    else
      var grew := filled != Or0(r.filled);
      if quote < r.quote.value || (!grew && quote != r.quote.value) || (grew && quote <= r.quote.value)
      then Some(EvidenceInconsistent) else None
  }

  function RecordProgress(r: Row, w: WorkerId, now: nat, external: HedgeId, venueOrder: nat, filled: nat, quote: nat)
    : Outcome<Change>
  {
    if filled == 0 || quote == 0 then Err(InvalidArgument)
    else if !Owns(r, w) then Err(LeaseConflict)
    else if CheckFill(r, filled).Some? then Err(CheckFill(r, filled).value)
    else if CheckEvidence(r, filled, quote).Some? then Err(CheckEvidence(r, filled, quote).value)
    else if r.externalOrderId.Some? && r.externalOrderId.value != external then Err(ExternalOrderConflict)
    else if r.venueOrderId.Some? && r.venueOrderId.value != venueOrder then Err(VenueOrderConflict)
    else
      Ok(Change(
           r.(submissionAttemptedAt := Coalesce(r.submissionAttemptedAt, now),
              externalOrderId := Some(external), venueOrderId := Some(venueOrder),
              filled := Some(filled), quote := Some(quote),
              fee := FeePending, feeNextAttemptAt := now),
           Signed(r.intent.side, filled - Or0(r.filled))))
  }

  /** The order identity a terminal report carries. */
  datatype OrderIds = OrderIds(external: HedgeId, venueOrder: nat)

  datatype Evidence = Evidence(filled: nat, quote: nat)

  /** completeTerminal, reached through completeFilled and completeFailed. */
  function CompleteTerminal(r: Row, w: WorkerId, now: nat, status: Status, code: Option<ErrorCode>,
                            ids: Option<OrderIds>, evidence: Option<Evidence>): Outcome<Change>
    requires !status.Queued?
  {
    if evidence.Some? && (ids.None? || evidence.value.filled == 0 || evidence.value.quote == 0) then Err(InvalidArgument)
    else if !Owns(r, w) then Err(LeaseConflict)
    else if evidence.Some? && CheckFill(r, evidence.value.filled).Some? then Err(CheckFill(r, evidence.value.filled).value)
    else if ids.Some? && r.externalOrderId.Some? && r.externalOrderId.value != ids.value.external
    then Err(ExternalOrderConflict)
    else if ids.Some? && r.venueOrderId.Some? && r.venueOrderId.value != ids.value.venueOrder
    then Err(VenueOrderConflict)
    else if ids.Some? && r.filled.Some? && evidence.None? then Err(EvidenceDisappeared)
    else if evidence.Some? && CheckEvidence(r, evidence.value.filled, evidence.value.quote).Some?
    then Err(CheckEvidence(r, evidence.value.filled, evidence.value.quote).value)
    else if status.Filled? && r.route.None? then Err(LeaseConflict)
    else
      var notExecuted := status.Failed? && evidence.None? && r.route.Some?;
      var row := r.(
        status := status,
        lease := None,
        lastError := code,
        externalOrderId := if ids.Some? then Some(ids.value.external) else r.externalOrderId,
        venueOrderId := if ids.Some? then Some(ids.value.venueOrder) else r.venueOrderId,
        filled := if evidence.Some? then Some(evidence.value.filled) else r.filled,
        quote := if evidence.Some? then Some(evidence.value.quote) else r.quote,
        fee := if evidence.Some? then FeePending else r.fee,
        feeNextAttemptAt := if evidence.Some? then now else r.feeNextAttemptAt,
        pnl := if notExecuted then PnlDone(Unavailable(HedgeNotExecuted, {}, now)) else r.pnl);
      Ok(Change(row, if evidence.Some? then Signed(r.intent.side, evidence.value.filled - Or0(r.filled)) else 0))
  }

  function ReleaseForRetry(r: Row, w: WorkerId, now: nat, code: ErrorCode, delay: nat): Outcome<Change> {
    if Owns(r, w)
    then Ok(Change(r.(lastError := Some(code), nextAttemptAt := now + delay, lease := None), 0))
    else Err(LeaseConflict)
  }

  // ---------------------------------------------------------------- the fee lease

  predicate FeeClaimable(r: Row, now: nat) {
    r.fee.FeePending? && r.feeNextAttemptAt <= now && LeaseFree(r.feeLease, now)
  }

  function FeeClaimRow(r: Row, w: WorkerId, now: nat, leaseMs: nat): Row {
    r.(feeLease := Some(Lease(w, now + leaseMs)), feeAttemptCount := r.feeAttemptCount + 1)
  }

  predicate FeeOwns(r: Row, w: WorkerId) {
    r.fee.FeePending? && r.feeLease.Some? && r.feeLease.value.owner == w
  }

  function FeeReleaseForRetry(r: Row, w: WorkerId, now: nat, delay: nat): Outcome<Row> {
    if FeeOwns(r, w) then Ok(r.(feeNextAttemptAt := now + delay, feeLease := None)) else Err(LeaseConflict)
  }

  /** decimalQuantitiesEqual: equal, and readable within its digit limit (42 and 36 digits, or 60 and 18). */
  predicate SameQuantity(left: nat, right: nat) { left == right && left < TEN_TO_78 }

  function SumQuantity(fills: seq<FillFields>): nat {
    if fills == [] then 0 else SumQuantity(fills[..|fills| - 1]) + fills[|fills| - 1].quantity
  }

  function SumQuote(fills: seq<FillFields>): nat {
    if fills == [] then 0 else SumQuote(fills[..|fills| - 1]) + fills[|fills| - 1].quoteQuantity
  }

  function LatestExecution(fills: seq<Fill>): nat {
    if fills == [] then 0
    else
      var before := LatestExecution(fills[..|fills| - 1]);
      if fills[|fills| - 1].executedAt > before then fills[|fills| - 1].executedAt else before
  }

  predicate DistinctTrades(fills: seq<Fill>) {
    forall i, j :: 0 <= i < j < |fills| ==> fills[i].tradeId != fills[j].tradeId
  }

  /** assertFillSet: between 1 and 100000 fills of one order with distinct trade ids. */
  predicate FillSetOk(fills: seq<Fill>, venueOrder: nat) {
    && 0 < |fills| <= 100_000
    && (forall i :: 0 <= i < |fills| ==> fills[i].orderId == venueOrder)
    && DistinctTrades(fills)
  }

  function PnlInputOf(r: Row): Option<PnlInput> {
    if r.route.Some? && r.filled.Some? && r.filled.value > 0 && r.quote.Some?
    then Some(PnlInputFields(r.intent.side, r.intent.amount, r.filled.value, r.intent.referenceAmount,
                             r.route.value.route.quoteTokenDecimals, r.quote.value,
                             r.route.value.route.baseAsset, r.route.value.route.quoteAsset))
    else None
  }

  /** calculateNetPnl of the fee store; None is each of its thrown errors. */
  function SettledPnl(r: Row, fills: seq<Fill>): Option<NetPnl> {
    if r.route.None? || r.route.value.route.quoteToken != r.intent.referenceToken then None
    else if r.status.Failed? then Some(Unavailable(PartialHedgeUnclosed, {}, LatestExecution(fills)))
    else if !r.status.Filled? || PnlInputOf(r).None? then None
    else NetPnlOf(PnlInputOf(r).value, fills, LatestExecution(fills))
  }

  function IndexOfTrade(table: seq<Fill>, tradeId: nat): (k: nat)
    ensures k <= |table|
    ensures k < |table| ==> table[k].tradeId == tradeId
    ensures k == |table| ==> forall j :: 0 <= j < |table| ==> table[j].tradeId != tradeId
  {
    if table == [] then 0
    else if table[0].tradeId == tradeId then 0
    else 1 + IndexOfTrade(table[1..], tradeId)
  }

  /** INSERT ... ON CONFLICT (hedge_order_id, venue_trade_id) DO UPDATE ... WHERE every column agrees; None
      when a stored fill differs, which shows as a short row count. */
  function UpsertFill(table: seq<Fill>, fill: Fill): Option<seq<Fill>> {
    var k := IndexOfTrade(table, fill.tradeId);
    if k == |table| then Some(table + [fill])
    else if table[k] == fill then Some(table) else None
  }

  function UpsertFills(table: seq<Fill>, fills: seq<Fill>): Option<seq<Fill>> {
    if fills == [] then Some(table)
    else
      match UpsertFills(table, fills[..|fills| - 1])
      case None => None
      case Some(t) => UpsertFill(t, fills[|fills| - 1])
  }

  datatype Reconciled = Reconciled(row: Row, table: seq<Fill>)

  /** completeReconciliation for a route-accounted row. */
  function CompleteReconciliation(r: Row, table: seq<Fill>, w: WorkerId, expectedFilled: nat, venueOrder: nat,
                                  quote: nat, fills: seq<Fill>): Outcome<Reconciled>
  {
    if expectedFilled == 0 || quote == 0 then Err(InvalidArgument)
    else if !FillSetOk(fills, venueOrder) || !SameQuantity(SumQuote(fills), quote) then Err(FillSetInvalid)
    else if !FeeOwns(r, w) then Err(LeaseConflict)
    else if r.route.None? || r.filled != Some(expectedFilled) || (r.venueOrderId.Some? && r.venueOrderId.value != venueOrder)
            || (r.quote.Some? && !SameQuantity(r.quote.value, quote))
    then Err(FeeEvidenceConflict)
    else
      var pnl := SettledPnl(r, fills);
      if pnl.None? then Err(NotTerminal)
      else
        var stored := UpsertFills(table, fills);
        if stored.None? then Err(FillConflict)
        else if |stored.value| != |fills| || !SameQuantity(SumQuantity(stored.value), SumQuantity(fills))
                || !SameQuantity(SumQuote(stored.value), quote)
        then Err(AggregateConflict)
        else
          Ok(Reconciled(
               r.(venueOrderId := Some(venueOrder), quote := Some(quote), fee := FeeComplete, feeLease := None,
                  pnl := PnlDone(pnl.value)),
               stored.value))
  }
}
