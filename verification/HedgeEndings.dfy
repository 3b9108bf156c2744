/** No step of a run that keeps the route table lets somebody end a queued hedge whom the condition of
    HedgeProgress did not already name: the condition is necessary. */
module HedgeEndings {
  import opened Arithmetic
  import opened HedgeRoute
  import opened HedgeNetPnl
  import opened HedgeRows
  import opened HedgeWorker
  import opened HedgePlanner
  import opened HedgeMachine
  import opened HedgeInvariant
  import opened HedgeSafety
  import opened HedgeStuck
  import opened HedgeRegimes
  import opened HedgeProgress

  ghost predicate SomeHolder(s: Sys, h: nat, rulesKept: bool) {
    exists w :: 0 <= w < |s.workers| && HolderCanEnd(s, w, h, rulesKept)
  }

  // ---------------------------------------------------------------- the order, one step back

  /** Only the submit call and the exchange's own steps move the order. */
  lemma VenueMoves(s: Sys, step: Step, h: nat)
    requires Enabled(s, step) && h < |s.hedges|
    ensures h < |Next(s, step).hedges|
    ensures || Next(s, step).hedges[h].venue == s.hedges[h].venue
            || (step.Submit? && s.workers[step.w].job.hedge == h)
            || ((step.Accept? || step.Reject? || step.Trade? || step.Close?) && step.h == h)
  {
    if IsJobStep(step) {
      hide Statement, AfterStatement, AfterClaim, AfterQuery, AfterOrder, AfterValidate, CancelDue, Honest, Claimable, Add,
        AwaitsStore;
    } else if IsFeeStep(step) {
      FeeStepAside(s, step, h);
      hide Next, Enabled;
    } else {
      hide PlanHedge, TradeAllowed, Settle, Add, Traded;
    }
  }

  predicate SameColumns(r: Row, r': Row) { r'.route == r.route && r'.submissionAttemptedAt == r.submissionAttemptedAt }

  /** Fee workers leave the order and the job columns alone. */
  lemma FeeStepAside(s: Sys, step: Step, h: nat)
    requires Enabled(s, step) && IsFeeStep(step) && h < |s.hedges|
    ensures h < |Next(s, step).hedges| && Next(s, step).hedges[h].venue == s.hedges[h].venue
    ensures SameColumns(s.hedges[h].row, Next(s, step).hedges[h].row)
  {
    if step.FeeStatement? {
      FeeEffectAside(step.f, s.feeWorkers[step.f], s.hedges[s.feeWorkers[step.f].job.hedge], s.now, s.retryDelayMs);
    }
    hide FeeEffect, AfterTrades, AfterFeeQuery, AfterFeeClaim, FeeClaimable, AfterFeeStatement;
  }

  lemma FeeEffectAside(f: nat, worker: FeeWorker, g: Hedge, now: nat, retryDelayMs: nat)
    requires worker.FeeRunning?
    ensures FeeEffect(f, worker, g, now, retryDelayMs).Ok? ==>
              && FeeEffect(f, worker, g, now, retryDelayMs).value.venue == g.venue
              && SameColumns(g.row, FeeEffect(f, worker, g, now, retryDelayMs).value.row)
  {
  }

  /** What an order can still come to, it could come to before it traded or was closed. */
  lemma FinalBack(s: Sys, step: Step, h: nat, plan: Plan)
    requires Inv(s) && Enabled(s, step) && h < |s.hedges| && s.hedges[h].venue.Order?
    requires h < |Next(s, step).hedges| && FinalReachable(Next(s, step).hedges[h], plan)
    ensures FinalReachable(s.hedges[h], plan)
  {
    InvHedge(s, h);
    WithinAmount(h, s.hedges[h]);
    InvNext(s, step);
    VenueMoves(s, step, h);
    FirstCallStays(s, step, h);
    if step.Trade? && step.h == h {
      TradeShape(s, step);
      hide Inv, Next, Enabled, HedgeInv;
      TradeBack(s.hedges[h], Next(s, step).hedges[h], step.quantity, step.fill, plan);
    } else if step.Close? && step.h == h {
      CloseShape(s, step);
      hide Inv, Next, Enabled, HedgeInv, Readable;
      assert FinalPossible(s.hedges[h], s.hedges[h].venue.executed);
    } else {
      OtherShape(s, step, h);
      hide Inv, Next, Enabled, HedgeInv, Readable, FinalPossible;
      SameFinal(s.hedges[h], Next(s, step).hedges[h], plan);
    }
  }

  lemma SameFinal(g: Hedge, g': Hedge, plan: Plan)
    requires g'.venue == g.venue && g.calls != [] && g'.calls != [] && g'.calls[0] == g.calls[0]
    requires FinalReachable(g', plan)
    ensures FinalReachable(g, plan)
  {
    hide Readable;
    if !HasEnded(g.venue) {
      var final: nat :| FinalPossible(g', final) && Readable(plan, final, g'.calls[0].quantity);
      assert FinalPossible(g, final) by { hide Priced; }
    }
  }

  lemma OtherShape(s: Sys, step: Step, h: nat)
    requires Enabled(s, step) && h < |s.hedges| && h < |Next(s, step).hedges| && s.hedges[h].venue.Order?
    requires Inv(s) && !(step.Trade? && step.h == h) && !(step.Close? && step.h == h)
    ensures Next(s, step).hedges[h].venue == s.hedges[h].venue
  {
    hide Inv;
    VenueMoves(s, step, h);
    if step.Submit? && s.workers[step.w].job.hedge == h { NotSentYet(s, step.w, h); }
    hide Next;
  }

  lemma NotSentYet(s: Sys, v: nat, h: nat)
    requires Inv(s) && h < |s.hedges| && v < |s.workers| && AboutToSubmit(s.workers[v], h)
    ensures s.hedges[h].venue.NoOrder?
  {
    assert WorkerBound(v, s.workers[v], s.hedges);
    InvHedge(s, h);
    hide VenueInv, TradesInv, EvidenceInv, TerminalInv, FeeInv, PnlInv, RouteInv, PlanHedge;
  }

  lemma FirstCallStays(s: Sys, step: Step, h: nat)
    requires Enabled(s, step) && HedgesAdvance(s.hedges, Next(s, step).hedges) && h < |s.hedges| && s.hedges[h].calls != []
    ensures h < |Next(s, step).hedges| && Next(s, step).hedges[h].calls != []
    ensures Next(s, step).hedges[h].calls[0] == s.hedges[h].calls[0]
  {
    hide Next, Enabled;
    assert Advances(s.hedges[h], Next(s, step).hedges[h]);
  }

  lemma TradeShape(s: Sys, step: Step)
    requires Enabled(s, step) && step.Trade?
    ensures var g := s.hedges[step.h];
            && TradeAllowed(g, step.quantity, step.fill) && Next(s, step).hedges[step.h].venue.Order?
            && Next(s, step).hedges[step.h].venue.executed == g.venue.executed + step.quantity
            && Next(s, step).hedges[step.h].venue.phase
               == if g.venue.executed + step.quantity == g.calls[0].quantity then FullyExecuted else g.venue.phase
  {
  }

  lemma CloseShape(s: Sys, step: Step)
    requires Enabled(s, step) && step.Close?
    ensures s.hedges[step.h].venue.Order? && s.hedges[step.h].venue.phase.Open?
    ensures Next(s, step).hedges[step.h].venue == s.hedges[step.h].venue.(phase := Closed(step.code))
  {
  }

  lemma TradeBack(g: Hedge, g': Hedge, quantity: nat, fill: FillFields, plan: Plan)
    requires TradeAllowed(g, quantity, fill) && FinalReachable(g', plan)
    requires g'.venue.Order? && g'.calls != [] && g'.calls[0] == g.calls[0]
    requires g'.venue.executed == g.venue.executed + quantity
    requires g'.venue.phase == if g'.venue.executed == g.calls[0].quantity then FullyExecuted else g.venue.phase
    ensures FinalReachable(g, plan)
  {
    var final: nat := g'.venue.executed;
    if !HasEnded(g'.venue) {
      final :| FinalPossible(g', final) && Readable(plan, final, g'.calls[0].quantity);
    }
    hide Readable;
    TradePriced(g, quantity, fill, final - g.venue.executed);
    assert FinalPossible(g, final) by { hide Priced, TradeAllowed; }
    assert Readable(plan, final, g.calls[0].quantity);
  }

  /** If so much traded at or better than the limit, then more could have. */
  lemma TradePriced(g: Hedge, quantity: nat, fill: FillFields, x: nat)
    requires TradeAllowed(g, quantity, fill) && quantity <= x
    ensures Priced(g.calls[0], x)
  {
    var limit, unit := g.calls[0].jobRoute.limitPrice, Pow10(g.calls[0].jobRoute.route.tokenDecimals);
    MulMonotone(1, fill.quoteQuantity, unit);
    MulMonotone(quantity, x, limit);
    hide Pow10;
  }

  /** Who stands before the submit call has come there by an authorisation, before which it could end the
      hedge as well. */
  lemma SubmitterBack(s: Sys, step: Step, h: nat, v: nat, rulesKept: bool)
    requires Inv(s) && Enabled(s, step) && h < |s.hedges| && v < |Next(s, step).workers|
    requires AboutToSubmit(Next(s, step).workers[v], h)
    ensures v < |s.workers| && (AboutToSubmit(s.workers[v], h) || HolderCanEnd(s, v, h, rulesKept))
  {
    SubmitterOrigin(s, step, v, h);
    if !AboutToSubmit(s.workers[v], h) {
      hide Next, Enabled, OrderLeads, ReplyError;
      AuthorizerUnattempted(s, v, h);
      InvWorker(s, v, h);
    }
  }

  /** An order that can lead to an end could before the step, or somebody could end the hedge anyway. */
  lemma OrderBack(s: Sys, step: Step, h: nat, plan: Plan, rulesKept: bool)
    requires Inv(s) && Enabled(s, step) && h < |s.hedges| && h < |Next(s, step).hedges|
    requires OrderLeads(Next(s, step), h, plan)
    ensures OrderLeads(s, h, plan) || SomeHolder(s, h, rulesKept)
  {
    VenueMoves(s, step, h);
    match s.hedges[h].venue
    case InFlight =>
    case Order(_, _, _, _, _, _) =>
      OrderStays(s, step, h);
      FinalBack(s, step, h, plan);
    case Rejected =>
      RejectedStays(s, step, h);
    case NoOrder =>
      hide Inv, Next, HolderCanEnd, SomeHolder;
      NoOrderBack(s, step, h, plan, rulesKept);
  }

  lemma NoOrderBack(s: Sys, step: Step, h: nat, plan: Plan, rulesKept: bool)
    requires Inv(s) && Enabled(s, step) && h < |s.hedges| && h < |Next(s, step).hedges|
    requires s.hedges[h].venue.NoOrder? && OrderLeads(Next(s, step), h, plan)
    ensures OrderLeads(s, h, plan) || SomeHolder(s, h, rulesKept)
  {
    hide Inv, Next, HolderCanEnd, FinalReachable;
    VenueMoves(s, step, h);
    if step.Submit? && s.workers[step.w].job.hedge == h {
      assert AboutToSubmit(s.workers[step.w], h);
    } else {
      var v :| 0 <= v < |Next(s, step).workers| && AboutToSubmit(Next(s, step).workers[v], h);
      SubmitterBack(s, step, h, v, rulesKept);
    }
  }

  lemma OrderStays(s: Sys, step: Step, h: nat)
    requires Inv(s) && Enabled(s, step) && h < |s.hedges| && s.hedges[h].venue.Order?
    ensures h < |Next(s, step).hedges| && Next(s, step).hedges[h].venue.Order?
  {
    InvNext(s, step);
    hide Inv, Next, Enabled;
    assert Advances(s.hedges[h], Next(s, step).hedges[h]);
  }

  lemma RejectedStays(s: Sys, step: Step, h: nat)
    requires Inv(s) && Enabled(s, step) && h < |s.hedges| && s.hedges[h].venue.Rejected?
    ensures h < |Next(s, step).hedges| && Next(s, step).hedges[h].venue.Rejected?
  {
    InvNext(s, step);
    hide Inv, Next, Enabled;
    assert Advances(s.hedges[h], Next(s, step).hedges[h]);
  }

  // ---------------------------------------------------------------- the row, one step back

  /** Route and attempt are written only by a holder that could end the hedge. */
  lemma ColumnsBack(s: Sys, step: Step, h: nat, rulesKept: bool)
    requires Inv(s) && Enabled(s, step) && h < |s.hedges| && h < |Next(s, step).hedges|
    requires !SameColumns(s.hedges[h].row, Next(s, step).hedges[h].row)
    ensures SomeHolder(s, h, rulesKept)
  {
    if step.RunStatement? {
      ColumnsWritten(s, step.w, step.fault, h);
      hide Next, Enabled, OrderLeads, ReplyError, Inv;
      InvWorker(s, step.w, h);
      NotYetAttempted(step.w, s.workers[step.w], h, s.hedges[h]);
      assert HolderCanEnd(s, step.w, h, rulesKept) by { hide WorkerOk, HedgeInv; }
    } else {
      QuietColumns(s, step, h);
    }
  }

  lemma ColumnsWritten(s: Sys, v: nat, fault: Fault, h: nat)
    requires Enabled(s, RunStatement(v, fault)) && h < |s.hedges| && h < |Next(s, RunStatement(v, fault)).hedges|
    requires !SameColumns(s.hedges[h].row, Next(s, RunStatement(v, fault)).hedges[h].row)
    ensures AtWork(s, v, h) && s.workers[v].Running?
    ensures var pc := s.workers[v].pc;
            || (pc.Preparing? && FitsRoute(s.hedges[h].row, s.workers[v].plan))
            || pc.Authorizing?
            || (s.hedges[h].row.submissionAttemptedAt.None? && (pc.Observing? || pc.Applying?))
  {
    var worker := s.workers[v];
    StatementColumns(v, worker, s.hedges[worker.job.hedge].row, s.now, s.retryDelayMs);
    hide Statement, AfterStatement, CancelDue, Add, AwaitsStore;
  }

  lemma StatementColumns(v: nat, worker: Worker, r: Row, now: nat, retryDelayMs: nat)
    requires AwaitsStore(worker)
    ensures var out := Statement(v, worker, r, now, retryDelayMs);
            out.Ok? && !SameColumns(r, out.value.row) ==>
              && Owns(r, v) && worker.Running?
              && (|| (worker.pc.Preparing? && FitsRoute(r, worker.plan))
                  || worker.pc.Authorizing?
                  || (r.submissionAttemptedAt.None? && (worker.pc.Observing? || worker.pc.Applying?)))
  {
    hide ReplyError, RetryDelay, CancelDue, CheckFill, CheckEvidence;
  }

  /** A worker with a report of the order knows of an attempt. */
  lemma NotYetAttempted(v: nat, worker: Worker, h: nat, g: Hedge)
    requires HedgeInv(h, g) && WorkerOk(v, worker, g) && worker.Running? && Owns(g.row, v)
    ensures worker.pc.Preparing? || worker.pc.Authorizing? ==> g.row.submissionAttemptedAt.None?
    ensures worker.pc.Authorizing? ==> FitsRoute(g.row, worker.plan)
    ensures worker.pc.Observing? || worker.pc.CheckingCancel? || worker.pc.Applying? ==>
              g.row.submissionAttemptedAt.Some? && Honest(g.venue, worker.pc.order)
  {
    hide VenueInv, TradesInv, EvidenceInv, TerminalInv, FeeInv, PnlInv, PlanHedge, RouteFor, Quantize;
  }

  lemma QuietColumns(s: Sys, step: Step, h: nat)
    requires Enabled(s, step) && h < |s.hedges| && !step.RunStatement?
    ensures h < |Next(s, step).hedges| && SameColumns(s.hedges[h].row, Next(s, step).hedges[h].row)
  {
    if IsJobStep(step) {
      QuietJobColumns(s, step, h);
    } else if IsFeeStep(step) {
      FeeStepAside(s, step, h);
      hide Next, Enabled;
    } else {
      hide PlanHedge, TradeAllowed, Settle, Add, Traded;
    }
  }

  lemma QuietJobColumns(s: Sys, step: Step, h: nat)
    requires Enabled(s, step) && h < |s.hedges| && IsJobStep(step) && !step.RunStatement?
    ensures h < |Next(s, step).hedges| && SameColumns(s.hedges[h].row, Next(s, step).hedges[h].row)
  {
    hide AfterClaim, AfterQuery, AfterOrder, AfterValidate, Honest, Claimable;
  }

  // ---------------------------------------------------------------- ending, one step back

  /** The hedge ends only by a worker that could end it. */
  lemma EndBack(s: Sys, step: Step, h: nat, rulesKept: bool)
    requires Inv(s) && Enabled(s, step) && h < |s.hedges| && h < |Next(s, step).hedges|
    requires s.hedges[h].row.status.Queued? && !Next(s, step).hedges[h].row.status.Queued?
    ensures SomeHolder(s, h, rulesKept)
  {
    if step.RunStatement? {
      EndWritten(s, step.w, step.fault, h);
      hide Next, Enabled, OrderLeads, ReplyError, Inv;
      InvWorker(s, step.w, h);
      if s.workers[step.w].Running? { NotYetAttempted(step.w, s.workers[step.w], h, s.hedges[h]); }
      assert HolderCanEnd(s, step.w, h, rulesKept) by { hide WorkerOk, HedgeInv; }
    } else if step.Claim? {
      ClaimKeepsStatus(s, step, h);
    } else {
      QuietRow(s, step, h);
    }
  }

  lemma EndWritten(s: Sys, v: nat, fault: Fault, h: nat)
    requires Enabled(s, RunStatement(v, fault)) && h < |s.hedges| && h < |Next(s, RunStatement(v, fault)).hedges|
    requires s.hedges[h].row.status.Queued? && !Next(s, RunStatement(v, fault)).hedges[h].row.status.Queued?
    ensures AtWork(s, v, h) && Finishing(s.workers[v])
  {
    var worker := s.workers[v];
    StatementFinishes(v, worker, s.hedges[worker.job.hedge].row, s.now, s.retryDelayMs);
    hide Statement, AfterStatement, CancelDue, Add, AwaitsStore, Finishing;
  }

  /** The worker waits for the statement that ends the hedge. */
  predicate Finishing(worker: Worker) {
    || (worker.Closing? && worker.end.Failing?)
    || (worker.Running? && worker.pc.Applying? && !worker.pc.order.state.OrderPending?
        && ReplyError(worker.pc.order, worker.plan).None?)
  }

  lemma StatementFinishes(v: nat, worker: Worker, r: Row, now: nat, retryDelayMs: nat)
    requires AwaitsStore(worker)
    ensures var out := Statement(v, worker, r, now, retryDelayMs);
            out.Ok? && r.status.Queued? && !out.value.row.status.Queued? ==> Owns(r, v) && Finishing(worker)
  {
    hide ReplyError, RetryDelay, CancelDue, CheckFill, CheckEvidence;
  }

  // ---------------------------------------------------------------- a lease holder, one step back

  /** A terminal report that the plan accepts shows that the order leads to an end. */
  lemma ReportLeads(h: nat, g: Hedge, plan: Plan, o: OrderReply)
    requires HedgeInv(h, g) && Honest(g.venue, o) && !o.state.OrderPending? && ReplyError(o, plan).None?
    ensures FinalReachable(g, plan)
  {
    WithinAmount(h, g);
    TerminalReport(g.venue, o);
    hide HedgeInv, Honest;
  }

  /** The holder of a hedge could end it before a step that left it where it stands. */
  lemma UnmovedBack(s: Sys, step: Step, w: nat, h: nat, rulesKept: bool)
    requires Inv(s) && Enabled(s, step) && AtWork(s, w, h) && h < |Next(s, step).hedges| && w < |Next(s, step).workers|
    requires Next(s, step).workers[w] == s.workers[w] && SameColumns(s.hedges[h].row, Next(s, step).hedges[h].row)
    requires HolderCanEnd(Next(s, step), w, h, rulesKept)
    ensures SomeHolder(s, h, rulesKept)
  {
    var t := Next(s, step);
    if s.workers[w].Running? && s.hedges[h].row.submissionAttemptedAt.Some? && !s.workers[w].pc.Applying? {
      var plan := s.workers[w].plan;
      if OrderLeads(t, h, plan) {
        OrderBack(s, step, h, plan, rulesKept);
      } else {
        RejectionBack(s, step, h, plan);
      }
      hide Inv, Next, Enabled, OrderLeads;
      assert OrderLeads(s, h, plan) || s.hedges[h].venue.Rejected? ==> HolderCanEnd(s, w, h, rulesKept);
    } else {
      hide Inv, Next, Enabled, OrderLeads, ReplyError;
      assert HolderCanEnd(s, w, h, rulesKept);
    }
  }

  lemma RejectionBack(s: Sys, step: Step, h: nat, plan: Plan)
    requires Enabled(s, step) && h < |s.hedges| && h < |Next(s, step).hedges| && Next(s, step).hedges[h].venue.Rejected?
    ensures s.hedges[h].venue.Rejected? || OrderLeads(s, h, plan)
  {
    VenueMoves(s, step, h);
  }

  /** Where a statement takes a worker. */
  lemma StatementLeads(w: nat, worker: Worker, r: Row, now: nat, retryDelayMs: nat, due: bool, fault: Fault)
    requires AwaitsStore(worker)
    ensures var after := AfterStatement(worker, due, Seen(Statement(w, worker, r, now, retryDelayMs), fault));
            && (after.Closing? && after.end.Failing? ==> worker.Running? && worker.pc.Authorizing?)
            && (after.Running? ==>
                  && worker.Running? && after.plan == worker.plan
                  && (|| worker.pc.Authorizing?
                      || (worker.pc.Preparing? && FitsRoute(r, worker.plan))
                      || ((worker.pc.Observing? || worker.pc.CheckingCancel?)
                          && (after.pc.CheckingCancel? || after.pc.Canceling?
                              || (after.pc.Applying? && after.pc.order == worker.pc.order)))))
  {
    OnlyAuthorization(w, worker, r, now, retryDelayMs);
    hide ReplyError, RetryDelay, CompleteTerminal, RecordProgress;
  }

  lemma StatementBack(s: Sys, w: nat, fault: Fault, h: nat, rulesKept: bool)
    requires Inv(s) && Enabled(s, RunStatement(w, fault)) && AtWork(s, w, h)
    requires h < |Next(s, RunStatement(w, fault)).hedges|
    requires SameColumns(s.hedges[h].row, Next(s, RunStatement(w, fault)).hedges[h].row)
    requires HolderCanEnd(Next(s, RunStatement(w, fault)), w, h, rulesKept)
    ensures SomeHolder(s, h, rulesKept)
  {
    var step := RunStatement(w, fault);
    var worker := s.workers[w];
    var g := s.hedges[h];
    var after := Next(s, step).workers[w];
    InvWorker(s, w, h);
    assert AwaitsStore(worker)
           && after == AfterStatement(worker, CancelDue(g.row, w, s.now),
                                      Seen(Statement(w, worker, g.row, s.now, s.retryDelayMs), fault)) by {
      hide Statement, AfterStatement, CancelDue, Add;
    }
    StatementLeads(w, worker, g.row, s.now, s.retryDelayMs, CancelDue(g.row, w, s.now), fault);
    hide Inv, Next, Enabled, Statement, AfterStatement, CancelDue, OrderLeads, FinalReachable;
    NotYetAttempted(w, worker, h, g);
    hide HolderCanEnd, SomeHolder, HedgeInv, WorkerOk, Honest, ReplyError, FitsRoute;
    HolderNeeds(Next(s, step), w, h, rulesKept);
    if worker.pc.Authorizing? || worker.pc.Preparing? {
      HolderByRoute(s, w, h, rulesKept);
    } else if after.pc.Applying? {
      ReportLeads(h, g, worker.plan, worker.pc.order);
      HolderByOrder(s, w, h, rulesKept);
    } else {
      HolderByOrderBack(s, step, w, h, rulesKept);
    }
  }

  /** What HolderCanEnd asks for, by where the worker stands. */
  lemma HolderNeeds(s: Sys, w: nat, h: nat, rulesKept: bool)
    requires HolderCanEnd(s, w, h, rulesKept)
    ensures s.workers[w].Closing? ==> s.workers[w].end.Failing?
    ensures s.workers[w].Running? && s.hedges[h].row.submissionAttemptedAt.Some? ==>
              var pc := s.workers[w].pc;
              if pc.Applying? then !pc.order.state.OrderPending? && ReplyError(pc.order, s.workers[w].plan).None?
              else (pc.AwaitingSubmit? && s.hedges[h].venue.Rejected?) || OrderLeads(s, h, s.workers[w].plan)
  {
    hide OrderLeads, ReplyError;
  }

  lemma HolderByRoute(s: Sys, w: nat, h: nat, rulesKept: bool)
    requires AtWork(s, w, h) && s.workers[w].Running? && s.hedges[h].row.submissionAttemptedAt.None?
    requires FitsRoute(s.hedges[h].row, s.workers[w].plan)
    ensures SomeHolder(s, h, rulesKept)
  {
    hide OrderLeads, ReplyError, FitsRoute;
    assert HolderCanEnd(s, w, h, rulesKept);
  }

  lemma HolderByRejection(s: Sys, w: nat, h: nat, rulesKept: bool)
    requires AtWork(s, w, h) && s.workers[w].Running? && s.hedges[h].row.submissionAttemptedAt.Some?
    requires s.workers[w].pc.AwaitingSubmit? && s.hedges[h].venue.Rejected?
    ensures SomeHolder(s, h, rulesKept)
  {
    hide OrderLeads, ReplyError;
    assert HolderCanEnd(s, w, h, rulesKept);
  }

  lemma HolderByOrder(s: Sys, w: nat, h: nat, rulesKept: bool)
    requires AtWork(s, w, h) && s.workers[w].Running? && !s.workers[w].pc.Applying?
    requires s.hedges[h].row.submissionAttemptedAt.Some? && s.hedges[h].venue.Order?
    requires FinalReachable(s.hedges[h], s.workers[w].plan)
    ensures SomeHolder(s, h, rulesKept)
  {
    assert HolderCanEnd(s, w, h, rulesKept) by { hide FinalReachable; }
  }

  lemma HolderByOrderBack(s: Sys, step: Step, w: nat, h: nat, rulesKept: bool)
    requires Inv(s) && Enabled(s, step) && AtWork(s, w, h) && s.workers[w].Running? && !s.workers[w].pc.Applying?
    requires s.hedges[h].row.submissionAttemptedAt.Some? && h < |Next(s, step).hedges|
    requires OrderLeads(Next(s, step), h, s.workers[w].plan)
    ensures SomeHolder(s, h, rulesKept)
  {
    hide Inv, Next, Enabled, OrderLeads;
    OrderBack(s, step, h, s.workers[w].plan, rulesKept);
    if OrderLeads(s, h, s.workers[w].plan) { assert HolderCanEnd(s, w, h, rulesKept); }
  }

  lemma ValidateBack(s: Sys, w: nat, validated: Reply<()>, h: nat, setup: Setup)
    requires Inv(s) && Enabled(s, ValidateReply(w, validated)) && AtWork(s, w, h)
    requires Follows(s, ValidateReply(w, validated), RouteKept(h, setup))
    requires HolderCanEnd(Next(s, ValidateReply(w, validated)), w, h, setup.rulesKept)
    ensures SomeHolder(s, h, setup.rulesKept)
  {
    InvWorker(s, w, h);
    hide Inv, HedgeInv, OrderLeads, ReplyError;
    assert s.hedges[h].row.submissionAttemptedAt.None? by { hide RouteFor, Quantize; }
    hide WorkerOk;
    assert HolderCanEnd(s, w, h, setup.rulesKept);
  }

  /** Steps by which worker w sends to or hears from the exchange about an order. */
  predicate Talks(step: Step, w: nat) {
    (step.QueryReply? || step.Submit? || step.SubmitReply? || step.Cancel? || step.CancelReply?) && step.w == w
  }

  /** Where the exchange's answers take a worker. */
  lemma TalkLeads(s: Sys, step: Step, w: nat, h: nat)
    requires Enabled(s, step) && Talks(step, w) && AtWork(s, w, h)
    ensures s.workers[w].Running?
    ensures var worker, after := s.workers[w], Next(s, step).workers[w];
            && (after.Closing? && after.end.Failing? ==>
                  !worker.job.submissionAttempted && (worker.pc.Querying? || worker.pc.AwaitingCancel?
                                                      || (worker.pc.AwaitingSubmit? && s.hedges[h].venue.Rejected?)))
            && (after.Running? ==>
                  && after.plan == worker.plan && !worker.pc.Applying?
                  && (|| (worker.pc.Querying? && !worker.job.submissionAttempted)
                      || (after.pc.Applying? && Honest(s.hedges[h].venue, after.pc.order))
                      || after.pc.Observing? || after.pc.AwaitingCancel?
                      || (after.pc.AwaitingSubmit? && Next(s, step).hedges[h].venue.InFlight?)))
  {
    hide Honest;
  }

  lemma TalkBack(s: Sys, step: Step, w: nat, h: nat, rulesKept: bool)
    requires Inv(s) && Enabled(s, step) && Talks(step, w) && AtWork(s, w, h) && h < |Next(s, step).hedges|
    requires SameColumns(s.hedges[h].row, Next(s, step).hedges[h].row)
    requires HolderCanEnd(Next(s, step), w, h, rulesKept)
    ensures SomeHolder(s, h, rulesKept)
  {
    var worker, after := s.workers[w], Next(s, step).workers[w];
    InvWorker(s, w, h);
    TalkLeads(s, step, w, h);
    TalkerAt(w, worker, h, s.hedges[h]);
    HolderNeeds(Next(s, step), w, h, rulesKept);
    hide Inv, Next, Enabled, OrderLeads, FinalReachable, HolderCanEnd, SomeHolder, HedgeInv, WorkerOk, Honest, ReplyError,
      FitsRoute;
    if worker.pc.Querying? && !worker.job.submissionAttempted {
      HolderByRoute(s, w, h, rulesKept);
    } else if after.Closing? {
      HolderByRejection(s, w, h, rulesKept);
    } else if after.pc.Applying? {
      ReportLeads(h, s.hedges[h], worker.plan, after.pc.order);
      HolderByOrder(s, w, h, rulesKept);
    } else {
      HolderByOrderBack(s, step, w, h, rulesKept);
    }
  }

  lemma TalkerAt(w: nat, worker: Worker, h: nat, g: Hedge)
    requires HedgeInv(h, g) && WorkerOk(w, worker, g) && worker.Running? && Owns(g.row, w)
    ensures worker.pc.Querying? && !worker.job.submissionAttempted ==>
              g.row.submissionAttemptedAt.None? && FitsRoute(g.row, worker.plan)
    ensures (worker.pc.Querying? && worker.job.submissionAttempted)
            || worker.pc.Submitting? || worker.pc.AwaitingSubmit? || worker.pc.Canceling? || worker.pc.AwaitingCancel? ==>
              g.row.submissionAttemptedAt.Some?
    ensures worker.pc.AwaitingCancel? ==> worker.job.submissionAttempted
  {
    hide VenueInv, TradesInv, EvidenceInv, TerminalInv, FeeInv, PnlInv, PlanHedge, RouteFor, Quantize;
  }

  // ---------------------------------------------------------------- a claim, one step back

  /** The plan depends on nothing of the row but the intent. */
  lemma PlanByIntent(h: nat, r: Row, r': Row, setup: Setup)
    requires r'.intent == r.intent
    ensures PlanNow(h, r', setup) == PlanNow(h, r, setup)
  {
    hide LimitPrice, Quantize;
  }

  /** Who can end the hedge right after claiming it stands for a claim that can. */
  lemma ClaimBack(s: Sys, step: Step, h: nat, setup: Setup)
    requires Inv(s) && Enabled(s, step) && Follows(s, step, RouteKept(h, setup))
    requires step.Claim? && step.h == h && step.fault.NoFault? && h < |Next(s, step).hedges|
    requires HolderCanEnd(Next(s, step), step.w, h, setup.rulesKept)
    ensures ClaimCanEnd(s, h, setup) || SomeHolder(s, h, setup.rulesKept)
  {
    var t := Next(s, step);
    var r := s.hedges[h].row;
    var row := ClaimRow(r, step.w, s.now, step.leaseMs);
    assert t.hedges[h] == WithRow(s.hedges[h], row);
    assert t.workers[step.w] == AfterClaim(JobOf(h, row), setup.config, setup.maxOrderAgeMs);
    PlanByIntent(h, r, row, setup);
    hide Inv, Next, Enabled, OrderLeads, MakePlan, ReplyError;
    if r.submissionAttemptedAt.Some? && PlanNow(h, r, setup).Answer? {
      OrderBack(s, step, h, PlanNow(h, r, setup).value, setup.rulesKept);
    }
  }

  lemma LaterClaimBack(s: Sys, step: Step, h: nat, setup: Setup)
    requires Inv(s) && Enabled(s, step) && h < |s.hedges| && h < |Next(s, step).hedges|
    requires SameColumns(s.hedges[h].row, Next(s, step).hedges[h].row)
    requires ClaimCanEnd(Next(s, step), h, setup)
    ensures ClaimCanEnd(s, h, setup) || SomeHolder(s, h, setup.rulesKept)
  {
    var r := s.hedges[h].row;
    SameIntent(s, step, h);
    PlanByIntent(h, r, Next(s, step).hedges[h].row, setup);
    hide Inv, Next, Enabled, OrderLeads, PlanNow, SomeHolder;
    if r.submissionAttemptedAt.Some? && PlanNow(h, r, setup).Answer? {
      OrderBack(s, step, h, PlanNow(h, r, setup).value, setup.rulesKept);
    }
  }

  lemma SameIntent(s: Sys, step: Step, h: nat)
    requires Inv(s) && Enabled(s, step) && h < |s.hedges|
    ensures h < |Next(s, step).hedges| && Next(s, step).hedges[h].row.intent == s.hedges[h].row.intent
  {
    InvNext(s, step);
    hide Inv, Next, Enabled;
    assert Advances(s.hedges[h], Next(s, step).hedges[h]);
  }

  // ---------------------------------------------------------------- any step back

  /** Only a worker's own step moves it. */
  lemma OwnStep(s: Sys, step: Step, w: nat)
    requires Enabled(s, step) && w < |Next(s, step).workers| && !Next(s, step).workers[w].Idle?
    ensures w < |s.workers|
    ensures || Next(s, step).workers[w] == s.workers[w]
            || (step.Claim? && step.w == w && step.fault.NoFault? && Next(s, step).workers[w].job.hedge == step.h)
            || (step.RunStatement? && step.w == w)
            || (step.ValidateReply? && step.w == w)
            || Talks(step, w)
  {
    if step.Claim? {
      var row := ClaimRow(s.hedges[step.h].row, step.w, s.now, step.leaseMs);
      AfterClaimShape(JobOf(step.h, row), step.config, step.maxOrderAgeMs);
      hide AfterClaim, Claimable;
    } else if IsJobStep(step) {
      hide Statement, AfterStatement, AfterQuery, AfterOrder, AfterValidate, CancelDue, Honest, Add, AwaitsStore;
    } else {
      WorkersUntouched(s, step);
      hide Next, Enabled;
    }
  }

  lemma HolderBack(s: Sys, step: Step, w: nat, h: nat, setup: Setup)
    requires Inv(s) && Enabled(s, step) && Follows(s, step, RouteKept(h, setup))
    requires h < |s.hedges| && h < |Next(s, step).hedges|
    requires SameColumns(s.hedges[h].row, Next(s, step).hedges[h].row)
    requires HolderCanEnd(Next(s, step), w, h, setup.rulesKept)
    ensures ClaimCanEnd(s, h, setup) || SomeHolder(s, h, setup.rulesKept)
  {
    assert AtWork(Next(s, step), w, h) by { hide Next, OrderLeads, ReplyError; }
    OwnStep(s, step, w);
    if step.Claim? && step.w == w && step.fault.NoFault? && Next(s, step).workers[w].job.hedge == step.h {
      ClaimBack(s, step, h, setup);
    } else {
      OwnsOrigin(s, step, w, h);
      WasAtWork(s, step, w, h);
      hide Inv, Next, Enabled, HolderCanEnd, SomeHolder, ClaimCanEnd, SameColumns, Follows, AtWork;
      if Next(s, step).workers[w] == s.workers[w] {
        UnmovedBack(s, step, w, h, setup.rulesKept);
      } else if step.RunStatement? {
        StatementBack(s, w, step.fault, h, setup.rulesKept);
      } else if step.ValidateReply? {
        ValidateBack(s, w, step.validated, h, setup);
      } else {
        TalkBack(s, step, w, h, setup.rulesKept);
      }
    }
  }

  /** A worker at work on the hedge after a step that was not its claim was so before. */
  lemma WasAtWork(s: Sys, step: Step, w: nat, h: nat)
    requires Enabled(s, step) && h < |s.hedges| && AtWork(Next(s, step), w, h)
    requires !(step.Claim? && step.w == w && step.fault.NoFault? && Next(s, step).workers[w].job.hedge == step.h)
    requires Owns(s.hedges[h].row, w) || (step.Claim? && step.w == w && step.h == h)
    ensures AtWork(s, w, h)
  {
    OwnStep(s, step, w);
    if step.Claim? && step.w == w {
      ClaimerIdle(s, step);
      hide Next, Enabled, Owns;
    } else {
      JobOrigin(s, step, w);
      hide Next, Enabled, Owns;
    }
  }

  /** A claim that reaches its worker gives it the hedge; one that does not leaves it idle. */
  lemma ClaimerIdle(s: Sys, step: Step)
    requires Enabled(s, step) && step.Claim?
    ensures step.w < |s.workers| && s.workers[step.w].Idle? && step.w < |Next(s, step).workers|
    ensures !step.fault.NoFault? ==> Next(s, step).workers[step.w].Idle?
    ensures step.fault.NoFault? ==> Next(s, step).workers[step.w].job.hedge == step.h
  {
    var row := ClaimRow(s.hedges[step.h].row, step.w, s.now, step.leaseMs);
    AfterClaimShape(JobOf(step.h, row), step.config, step.maxOrderAgeMs);
    hide AfterClaim, Claimable;
  }

  /** Whoever can still end the hedge after a step that keeps the route could before it. */
  lemma StillEndBack(s: Sys, step: Step, h: nat, setup: Setup)
    requires Inv(s) && Enabled(s, step) && Follows(s, step, RouteKept(h, setup))
    requires h < |s.hedges| && s.hedges[h].row.status.Queued? && h < |Next(s, step).hedges|
    requires !Next(s, step).hedges[h].row.status.Queued? || CanStillEnd(Next(s, step), h, setup)
    ensures CanStillEnd(s, h, setup)
  {
    hide Inv, Next, Enabled, HolderCanEnd, ClaimCanEnd, Follows;
    if !SameColumns(s.hedges[h].row, Next(s, step).hedges[h].row) {
      ColumnsBack(s, step, h, setup.rulesKept);
    } else if !Next(s, step).hedges[h].row.status.Queued? {
      EndBack(s, step, h, setup.rulesKept);
    } else if ClaimCanEnd(Next(s, step), h, setup) {
      LaterClaimBack(s, step, h, setup);
    } else {
      var w :| 0 <= w < |Next(s, step).workers| && HolderCanEnd(Next(s, step), w, h, setup.rulesKept);
      HolderBack(s, step, w, h, setup);
    }
  }

  /** A hedge that some run of the regime ends could still be ended at its start. */
  lemma {:induction false} EndsOnlyIf(s: Sys, run: seq<Step>, h: nat, setup: Setup)
    requires Inv(s) && h < |s.hedges| && s.hedges[h].row.status.Queued?
    requires Legal(s, run) && Obeys(s, run, RouteKept(h, setup)) && Met(Ends(h), After(s, run))
    ensures CanStillEnd(s, h, setup)
    decreases |run|
  {
    var step := run[0];
    SameIntent(s, step, h);
    InvNext(s, step);
    hide Inv, Next, Enabled, CanStillEnd, Follows;
    if Next(s, step).hedges[h].row.status.Queued? { EndsOnlyIf(Next(s, step), run[1..], h, setup); }
    StillEndBack(s, step, h, setup);
  }
}
