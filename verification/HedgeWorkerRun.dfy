/** HedgeWorker.runOnce as sequential code over the job store, and that the program counters of the transition
    system are this code when nobody else acts in between (backend/src/modules/hedge/hedge-worker.ts:70-243).
    The exchange's answers and the clock readings are parameters. */
module HedgeWorkerRun {
  import opened HedgeRoute
  import opened HedgeRows
  import opened HedgeWorker
  import opened HedgeMachine
  import opened HedgeStores
  import opened HedgeColumns

  /** What the adapter would answer to each call of one iteration. */
  datatype Replies = Replies(
    validated: Reply<()>,
    found: Reply<Option<OrderReply>>,
    submitted: Reply<OrderReply>,
    canceled: Reply<OrderReply>)

  datatype Tables = Tables(rows: seq<Row>, balances: map<nat, int>)

  /** The tables after a statement on row h. */
  function Commit(t: Tables, h: nat, out: Outcome<Change>): Tables
    requires h < |t.rows|
  {
    match out
    case Err(_) => t
    case Ok(change) => Tables(t.rows[h := change.row], Add(t.balances, t.rows[h].intent.token, change.delta))
  }

  // The statements of an iteration, by the steps that are left at most.
  const CLAIMING: nat := 11
  const OBSERVING: nat := 7
  const AUTHORIZING: nat := 6
  const CHECKING_CANCEL: nat := 6
  const APPLYING: nat := 3
  const RELEASING_IN_TRY: nat := 2
  const CLOSING: nat := 1

  /** Steps left at most. */
  function Rank(worker: Worker): nat {
    match worker
    case Idle => 0
    case Closing(_, Failing(_)) => CLOSING
    case Closing(_, Releasing(_, _, inTry)) => if inTry then RELEASING_IN_TRY else CLOSING
    case Running(_, _, pc) => (
      match pc
      case Applying(_, _) => APPLYING
      case AwaitingCancel => 4
      case AwaitingSubmit => 4
      case Canceling => 5
      case Submitting => 5
      case CheckingCancel(_) => CHECKING_CANCEL
      case Authorizing => AUTHORIZING
      case Observing(_) => OBSERVING
      case Querying => 8
      case Preparing => 9
      case Validating => 10)
  }

  /** clock(CLAIMING), clock(OBSERVING) and so on are what now() reads at those statements. */
  datatype Config = Config(id: WorkerId, clock: nat -> nat, retryDelayMs: nat)

  function StatementOf(c: Config, worker: Worker, t: Tables): Outcome<Change>
    requires AwaitsStore(worker) && worker.job.hedge < |t.rows|
  {
    Statement(c.id, worker, t.rows[worker.job.hedge], c.clock(Rank(worker)), c.retryDelayMs)
  }

  /** One step of the program counters, alone. */
  function StepAlone(c: Config, worker: Worker, replies: Replies, t: Tables): (next: (Worker, Tables))
    requires !worker.Idle? && worker.job.hedge < |t.rows|
    ensures Rank(next.0) < Rank(worker)
    ensures |next.1.rows| == |t.rows| && (next.0.Idle? || next.0.job == worker.job)
  {
    if AwaitsStore(worker) then
      var out := StatementOf(c, worker, t);
      (AfterStatement(worker, CancelDue(t.rows[worker.job.hedge], c.id, c.clock(Rank(worker))), out),
       Commit(t, worker.job.hedge, out))
    else
      (match worker.pc
       case Validating => AfterValidate(worker, replies.validated)
       case Querying => AfterQuery(worker, replies.found)
       case Submitting => worker.(pc := AwaitingSubmit)
       case AwaitingSubmit => AfterOrder(worker, replies.submitted, OrderPendingCode)
       case Canceling => worker.(pc := AwaitingCancel)
       case AwaitingCancel => AfterOrder(worker, replies.canceled, CancelPendingCode), t)
  }

  /** The program counters run to the end, alone. */
  function RunAlone(c: Config, worker: Worker, replies: Replies, t: Tables): Tables
    requires worker.Idle? || worker.job.hedge < |t.rows|
    decreases Rank(worker)
  {
    if worker.Idle? then t
    else
      var next := StepAlone(c, worker, replies, t);
      RunAlone(c, next.0, replies, next.1)
  }

  /** normalizeJobError of a store error. */
  function StoreFailure(e: StoreError): VenueError {
    if e.NonCanonical? then VenueError(SettlementNonCanonical, false, None) else VenueError(WorkerInternal, true, None)
  }

  /** The rest of the iteration: nothing after a return, the catch block after an error. */
  function Rest(c: Config, job: Job, replies: Replies, error: Option<VenueError>, t: Tables): Tables
    requires job.hedge < |t.rows|
  {
    match error
    case None => t
    case Some(e) => RunAlone(c, AfterError(job, e), replies, t)
  }

  /** Sending a call changes no table; its answer decides what follows. */
  lemma CallsPass(c: Config, job: Job, plan: Plan, replies: Replies, t: Tables)
    requires job.hedge < |t.rows|
    ensures RunAlone(c, Running(job, plan, Submitting), replies, t)
            == RunAlone(c, AfterOrder(Running(job, plan, AwaitingSubmit), replies.submitted, OrderPendingCode), replies, t)
    ensures RunAlone(c, Running(job, plan, Canceling), replies, t)
            == RunAlone(c, AfterOrder(Running(job, plan, AwaitingCancel), replies.canceled, CancelPendingCode), replies, t)
  {
    assert RunAlone(c, Running(job, plan, Submitting), replies, t)
           == RunAlone(c, Running(job, plan, AwaitingSubmit), replies, t);
    assert RunAlone(c, Running(job, plan, Canceling), replies, t)
           == RunAlone(c, Running(job, plan, AwaitingCancel), replies, t);
  }

  /** The cancel check alone: the call follows when it is due, the report otherwise. */
  lemma CheckPasses(c: Config, job: Job, plan: Plan, order: OrderReply, replies: Replies, t: Tables)
    requires job.hedge < |t.rows|
    ensures var r, now := t.rows[job.hedge], c.clock(CHECKING_CANCEL);
            RunAlone(c, Running(job, plan, CheckingCancel(order)), replies, t)
            == if CancelDue(r, c.id, now)
               then RunAlone(c, AfterOrder(Running(job, plan, AwaitingCancel), replies.canceled, CancelPendingCode), replies,
                             t.(rows := t.rows[job.hedge := RequestCancel(r, now)]))
               else RunAlone(c, Running(job, plan, Applying(order, OrderPendingCode)), replies, t)
  {
    hide CancelDue, RequestCancel, AfterOrder;
    var r, now := t.rows[job.hedge], c.clock(CHECKING_CANCEL);
    var next := StepAlone(c, Running(job, plan, CheckingCancel(order)), replies, t);
    assert RunAlone(c, Running(job, plan, CheckingCancel(order)), replies, t) == RunAlone(c, next.0, replies, next.1);
    if CancelDue(r, c.id, now) {
      CallsPass(c, job, plan, replies, next.1);
    } else {
      assert t.rows[job.hedge := r] == t.rows;
    }
  }

  // ---------------------------------------------------------------- what the methods leave in row h

  /** Row h is queued under worker w's lease. */
  predicate Held(t: Tables, h: nat, w: WorkerId)
    requires h < |t.rows|
  {
    var r := t.rows[h];
    r.status.Queued? && r.lease.Some? && r.lease.value.owner == w
  }

  /** Only row h is another, now without its lease, to be tried again after the delay. */
  predicate Rescheduled(before: Tables, after: Tables, h: nat, code: ErrorCode, now: nat, delay: nat)
    requires h < |before.rows|
  {
    && after.balances == before.balances
    && after.rows == before.rows[h := before.rows[h].(lastError := Some(code), nextAttemptAt := now + delay, lease := None)]
  }

  /** Only row h is another, now ended. */
  predicate Ended(before: Tables, after: Tables, h: nat, now: nat, status: Status, code: Option<ErrorCode>,
                  ids: Option<OrderIds>, evidence: Option<Evidence>)
    requires h < |before.rows|
  {
    && |after.rows| == |before.rows|
    && after.rows == before.rows[h := after.rows[h]]
    && EndedRow(before.rows[h], after.rows[h], now, status, code, ids, evidence)
  }

  class JobWorker {
    const store: HedgeJobStore
    const config: Config
    const routes: map<nat, Route>  // by hedged token
    const maxOrderAgeMs: nat

    constructor (store: HedgeJobStore, config: Config, routes: map<nat, Route>, maxOrderAgeMs: nat)
      ensures this.store == store && this.config == config && this.routes == routes
      ensures this.maxOrderAgeMs == maxOrderAgeMs
    {
      this.store, this.config, this.routes, this.maxOrderAgeMs := store, config, routes, maxOrderAgeMs;
    }

    function State(): Tables
      reads store.db
    {
      Tables(store.db.rows, store.db.balances)
    }

    /** The whole iteration leaves the tables as the program counters do. */
    method RunOnce(leaseMs: nat, replies: Replies) returns (claimed: Option<Job>)
      modifies store.db`rows, store.db`balances
      ensures claimed.None? ==> State() == old(State())
      ensures claimed.Some? ==>
                var h, before := claimed.value.hedge, old(State());
                && h < |before.rows|
                && var r, now := before.rows[h], config.clock(CLAIMING);
                   && r.status.Queued? && (r.canonical || r.submissionAttemptedAt.Some?) && r.nextAttemptAt <= now
                   && (r.lease.None? || r.lease.value.expiresAt <= now)
                   && var row := r.(lease := Some(Lease(config.id, now + leaseMs)), attemptCount := r.attemptCount + 1);
                   && claimed.value == JobOf(h, row)
                   && State() == RunAlone(config, AfterClaim(claimed.value, RouteOf(claimed.value), maxOrderAgeMs), replies,
                                          Tables(before.rows[h := row], before.balances))
    {
      hide RunAlone, AfterClaim, AfterError, MakePlan, Rescheduled, Ended;
      claimed := store.ClaimNext(config.id, config.clock(CLAIMING), leaseMs);
      if claimed.None? { return; }
      var error := Attempt(claimed.value, replies);
      if error.Some? { HandleJobError(claimed.value, error.value, replies); }
    }

    function RouteOf(job: Job): Option<Route> {
      if job.intent.token in routes then Some(routes[job.intent.token]) else None
    }

    /** The try block. */
    method Attempt(job: Job, replies: Replies) returns (error: Option<VenueError>)
      requires job.hedge < |store.db.rows|
      modifies store.db`rows, store.db`balances
      ensures |store.db.rows| == |old(store.db.rows)|
      ensures RunAlone(config, AfterClaim(job, RouteOf(job), maxOrderAgeMs), replies, old(State()))
              == Rest(config, job, replies, error, State())
      ensures var planned := MakePlan(job, if job.intent.token in routes then Some(routes[job.intent.token]) else None,
                                      maxOrderAgeMs);
              && (planned.Refusal? ==> State() == old(State()) && error == Some(planned.error))
              && (planned.Answer? && !job.submissionAttempted && replies.validated.Refusal? ==>
                    State() == old(State()) && error == Some(replies.validated.error))
              && (planned.Answer? && job.submissionAttempted && replies.found.Refusal? ==>
                    State() == old(State()) && error == Some(replies.found.error))
    {
      var planned := MakePlan(job, RouteOf(job), maxOrderAgeMs);
      if planned.Refusal? { return Some(planned.error); }
      var plan := planned.value;
      if !job.submissionAttempted {
        if replies.validated.Refusal? { return Some(replies.validated.error); }
        var prepared := store.PrepareRoute(job.hedge, config.id, plan.jobRoute);
        if prepared.Some? { return Some(StoreFailure(prepared.value)); }
      }
      error := QueryAndAct(job, plan, replies);
    }

    method QueryAndAct(job: Job, plan: Plan, replies: Replies) returns (error: Option<VenueError>)
      requires job.hedge < |store.db.rows|
      modifies store.db`rows, store.db`balances
      ensures |store.db.rows| == |old(store.db.rows)|
      ensures RunAlone(config, Running(job, plan, Querying), replies, old(State()))
              == Rest(config, job, replies, error, State())
      ensures replies.found.Refusal? ==> State() == old(State()) && error == Some(replies.found.error)
      ensures replies.found == Answer(None) && job.submissionAttempted ==>
                && error.None?
                && if old(Held(State(), job.hedge, config.id))
                   then Rescheduled(old(State()), State(), job.hedge,
                                    if job.cancelRequested then CancelUnconfirmed else SubmissionUnconfirmed,
                                    config.clock(CLOSING), RetryDelay(config.retryDelayMs, job.attemptCount, None))
                   else State() == old(State())
      ensures replies.found == Answer(None) && !job.submissionAttempted ==>
                var r := old(store.db.rows[job.hedge]);
                if !r.canonical
                then State() == old(State()) && error == Some(VenueError(SettlementNonCanonical, false, None))
                else if !(old(Held(State(), job.hedge, config.id)) && r.route.Some? && r.cancelRequestedAt.None?)
                then State() == old(State()) && error == Some(VenueError(WorkerInternal, true, None))
                else replies.submitted.Refusal? ==>
                  && error == Some(replies.submitted.error)
                  && State() == old(State()).(rows := old(store.db.rows)[job.hedge := r.(submissionAttemptedAt :=
                       if r.submissionAttemptedAt.None? then Some(config.clock(AUTHORIZING)) else r.submissionAttemptedAt)])
    {
      hide RetryDelay, ReplyError, CancelDue, RecordProgress, CompleteTerminal, EndedRow, CheckFill, CheckEvidence;
      if replies.found.Refusal? { return Some(replies.found.error); }
      if replies.found.value.Some? {
        error := Observe(job, plan, replies.found.value.value, replies);
        return;
      }
      if job.submissionAttempted {
        var code := if job.cancelRequested then CancelUnconfirmed else SubmissionUnconfirmed;
        var _ := ScheduleRetry(job, code, None, false, replies);
        return None;
      }
      var authorized := store.AuthorizeSubmission(job.hedge, config.id, config.clock(AUTHORIZING));
      if authorized.Some? { return Some(StoreFailure(authorized.value)); }
      CallsPass(config, job, plan, replies, State());
      if replies.submitted.Refusal? { return Some(replies.submitted.error); }
      error := ApplyOrderResult(job, plan, replies.submitted.value, OrderPendingCode, replies);
    }

    method Observe(job: Job, plan: Plan, order: OrderReply, replies: Replies) returns (error: Option<VenueError>)
      requires job.hedge < |store.db.rows|
      modifies store.db`rows, store.db`balances
      ensures |store.db.rows| == |old(store.db.rows)|
      ensures RunAlone(config, Running(job, plan, Observing(order)), replies, old(State()))
              == Rest(config, job, replies, error, State())
      ensures !old(Held(State(), job.hedge, config.id)) || old(store.db.rows[job.hedge].route.None?) ==>
                State() == old(State()) && error == Some(VenueError(WorkerInternal, true, None))
    {
      hide CompleteTerminal, RecordProgress, RetryDelay, ReplyError, CancelDue, RequestCancel;
      var observed := store.RecordExternalOrderObserved(job.hedge, config.id, config.clock(OBSERVING));
      if observed.Some? { return Some(StoreFailure(observed.value)); }
      if order.state.OrderPending? {
        error := CancelOrApply(job, plan, order, replies);
      } else {
        error := ApplyOrderResult(job, plan, order, OrderPendingCode, replies);
      }
    }

    method CancelOrApply(job: Job, plan: Plan, order: OrderReply, replies: Replies) returns (error: Option<VenueError>)
      requires job.hedge < |store.db.rows|
      modifies store.db`rows, store.db`balances
      ensures |store.db.rows| == |old(store.db.rows)|
      ensures RunAlone(config, Running(job, plan, CheckingCancel(order)), replies, old(State()))
              == Rest(config, job, replies, error, State())
      ensures var r := old(store.db.rows[job.hedge]);
              && old(Held(State(), job.hedge, config.id)) && r.submissionAttemptedAt.Some? && r.route.Some?
              && r.cancelRequestedAt.None?
              && r.submissionAttemptedAt.value + r.route.value.maxOrderAgeMs <= config.clock(CHECKING_CANCEL)
              && replies.canceled.Refusal? ==>
                && error == Some(replies.canceled.error)
                && store.db.rows == old(store.db.rows)[job.hedge := r.(cancelRequestedAt :=
                                                                         Some(config.clock(CHECKING_CANCEL)))]
    {
      CheckPasses(config, job, plan, order, replies, State());
      hide RunAlone, CompleteTerminal, RecordProgress, RetryDelay, ReplyError, CancelDue, RequestCancel, Ended, Rescheduled;
      var due := store.AuthorizeCancelIfDue(job.hedge, config.id, config.clock(CHECKING_CANCEL));
      if !due {
        error := ApplyOrderResult(job, plan, order, OrderPendingCode, replies);
        return;
      }
      if replies.canceled.Refusal? { return Some(replies.canceled.error); }
      error := ApplyOrderResult(job, plan, replies.canceled.value, CancelPendingCode, replies);
    }

    method ApplyOrderResult(job: Job, plan: Plan, order: OrderReply, pendingCode: ErrorCode, replies: Replies)
      returns (error: Option<VenueError>)
      requires job.hedge < |store.db.rows|
      modifies store.db`rows, store.db`balances
      ensures |store.db.rows| == |old(store.db.rows)|
      ensures RunAlone(config, Running(job, plan, Applying(order, pendingCode)), replies, old(State()))
              == Rest(config, job, replies, error, State())
      ensures ReplyError(order, plan).Some? ==>
                error == Some(VenueError(ReplyError(order, plan).value, true, None)) && State() == old(State())
      ensures error.None? && !order.state.OrderPending? ==>
                Ended(old(State()), State(), job.hedge, config.clock(APPLYING),
                      if order.state.OrderFilled? then Filled else Failed,
                      if order.state.OrderFilled? then None else Some(order.state.code),
                      Some(OrderIds(plan.jobRoute.clientOrderId, order.venueOrderId)),
                      if order.executed == 0 then None else Some(Evidence(order.executed, order.quote)))
      ensures error.None? && order.state.OrderPending? ==> Progressed(old(State()), State(), job, order, pendingCode)
      ensures error.None? <==>
                && ReplyError(order, plan).None?
                && if order.state.OrderPending? then old(MayProgress(State(), job, plan, order))
                   else old(MayEnd(State(), job, plan, order))
    {
      hide RetryDelay, ReplyError, CancelDue, RecordProgress, CompleteTerminal, EndedRow, Held;
      var invalid := ReplyError(order, plan);
      if invalid.Some? { return Some(VenueError(invalid.value, true, None)); }
      var ids := OrderIds(plan.jobRoute.clientOrderId, order.venueOrderId);
      var failed: Option<StoreError>;
      if !order.state.OrderPending? {
        TerminalColumns(store.db.rows[job.hedge], config.id, config.clock(APPLYING),
                        if order.state.OrderFilled? then Filled else Failed,
                        if order.state.OrderFilled? then None else Some(order.state.code), Some(ids), EvidenceOf(order));
      }
      match order.state {
        case OrderFilled =>
          failed := store.CompleteTerminal(job.hedge, config.id, config.clock(APPLYING), Filled, None, Some(ids),
                                           EvidenceOf(order));
          return if failed.Some? then Some(StoreFailure(failed.value)) else None;
        case OrderFailed(code) =>
          failed := store.CompleteTerminal(job.hedge, config.id, config.clock(APPLYING), Failed, Some(code), Some(ids),
                                           EvidenceOf(order));
          return if failed.Some? then Some(StoreFailure(failed.value)) else None;
        case OrderPending =>
          error := RecordAndReschedule(job, plan, order, pendingCode, replies);
      }
    }

    predicate MayProgress(t: Tables, job: Job, plan: Plan, order: OrderReply)
      requires job.hedge < |t.rows|
    {
      && Held(t, job.hedge, config.id)
      && (order.executed > 0 ==>
            RecordProgress(t.rows[job.hedge], config.id, config.clock(APPLYING), plan.jobRoute.clientOrderId,
                           order.venueOrderId, order.executed, order.quote).Ok?)
    }

    predicate MayEnd(t: Tables, job: Job, plan: Plan, order: OrderReply)
      requires job.hedge < |t.rows| && !order.state.OrderPending?
    {
      CompleteTerminal(t.rows[job.hedge], config.id, config.clock(APPLYING),
                       if order.state.OrderFilled? then Filled else Failed,
                       if order.state.OrderFilled? then None else Some(order.state.code),
                       Some(OrderIds(plan.jobRoute.clientOrderId, order.venueOrderId)),
                       if order.executed == 0 then None else Some(Evidence(order.executed, order.quote))).Ok?
    }

    /** After a pending report: the evidence recorded, if there is any, and the row released for another attempt. */
    predicate Progressed(before: Tables, after: Tables, job: Job, order: OrderReply, pendingCode: ErrorCode)
      requires job.hedge < |before.rows|
    {
      && |after.rows| == |before.rows|
      && after.rows == before.rows[job.hedge := after.rows[job.hedge]]
      && var r, r' := before.rows[job.hedge], after.rows[job.hedge];
         && r'.status.Queued? && r'.lease.None? && r'.lastError == Some(pendingCode)
         && r'.nextAttemptAt ==
            config.clock(RELEASING_IN_TRY) + RetryDelay(config.retryDelayMs, job.attemptCount, None)
         && (order.executed == 0 ==> r'.filled == r.filled && r'.quote == r.quote && after.balances == before.balances)
         && (order.executed > 0 ==> r'.filled == Some(order.executed) && r'.quote == Some(order.quote))
    }

    /** A pending report: progress, if any, and another attempt. */
    method RecordAndReschedule(job: Job, plan: Plan, order: OrderReply, pendingCode: ErrorCode, replies: Replies)
      returns (error: Option<VenueError>)
      requires job.hedge < |store.db.rows|
      requires order.state.OrderPending? && ReplyError(order, plan).None?
      modifies store.db`rows, store.db`balances
      ensures |store.db.rows| == |old(store.db.rows)|
      ensures RunAlone(config, Running(job, plan, Applying(order, pendingCode)), replies, old(State()))
              == Rest(config, job, replies, error, State())
      ensures error.None? <==> old(MayProgress(State(), job, plan, order))
      ensures error.None? ==> Progressed(old(State()), State(), job, order, pendingCode)
    {
      hide RetryDelay, CheckFill, CheckEvidence, ReplyError, CancelDue;
      var ids := OrderIds(plan.jobRoute.clientOrderId, order.venueOrderId);
      if order.executed > 0 {
        var failed := store.RecordExecutionProgress(job.hedge, config.id, config.clock(APPLYING), ids.external,
                                                    ids.venueOrder, order.executed, order.quote);
        if failed.Some? { return Some(StoreFailure(failed.value)); }
      } else {
        assert store.db.rows[job.hedge := store.db.rows[job.hedge]] == store.db.rows;
      }
      error := ScheduleRetry(job, pendingCode, None, true, replies);
    }

    /** scheduleRetry; a failed release is an error for the try block only where it is awaited there. */
    method ScheduleRetry(job: Job, code: ErrorCode, retryAfterMs: Option<nat>, awaited: bool, replies: Replies)
      returns (error: Option<VenueError>)
      requires job.hedge < |store.db.rows|
      modifies store.db`rows
      ensures |store.db.rows| == |old(store.db.rows)| && (!awaited ==> error.None?)
      ensures RunAlone(config, Closing(job, Releasing(code, retryAfterMs, awaited)), replies, old(State()))
              == Rest(config, job, replies, error, State())
      ensures if old(Held(State(), job.hedge, config.id))
              then
                && error.None?
                && Rescheduled(old(State()), State(), job.hedge, code,
                               config.clock(if awaited then RELEASING_IN_TRY else CLOSING),
                               RetryDelay(config.retryDelayMs, job.attemptCount, retryAfterMs))
              else State() == old(State()) && error == if awaited then Some(VenueError(WorkerInternal, true, None)) else None
    {
      var failed := store.ReleaseForRetry(job.hedge, config.id,
                                          config.clock(if awaited then RELEASING_IN_TRY else CLOSING), code,
                                          RetryDelay(config.retryDelayMs, job.attemptCount, retryAfterMs));
      error := if failed.Some? && awaited then Some(StoreFailure(failed.value)) else None;
    }

    method HandleJobError(job: Job, e: VenueError, replies: Replies)
      requires job.hedge < |store.db.rows|
      modifies store.db`rows, store.db`balances
      ensures State() == RunAlone(config, AfterError(job, e), replies, old(State()))
      ensures !old(Held(State(), job.hedge, config.id)) ==> State() == old(State())
      ensures old(Held(State(), job.hedge, config.id)) && (e.retryable || job.submissionAttempted) ==>
                Rescheduled(old(State()), State(), job.hedge, e.code, config.clock(CLOSING),
                            RetryDelay(config.retryDelayMs, job.attemptCount, e.retryAfterMs))
      ensures old(Held(State(), job.hedge, config.id)) && !e.retryable && !job.submissionAttempted ==>
                && Ended(old(State()), State(), job.hedge, config.clock(CLOSING), Failed, Some(e.code), None, None)
                && store.db.balances == old(store.db.balances)
    {
      if !e.retryable {
        if job.submissionAttempted {
          var _ := ScheduleRetry(job, e.code, e.retryAfterMs, false, replies);
          return;
        }
        var _ := store.CompleteTerminal(job.hedge, config.id, config.clock(CLOSING), Failed, Some(e.code), None, None);
        return;
      }
      var _ := ScheduleRetry(job, e.code, e.retryAfterMs, false, replies);
    }
  }
}
