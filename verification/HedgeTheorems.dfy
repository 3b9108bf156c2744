/** What holds of the hedge protocol over every run, stated on runs and on the rows a reader sees. */
module HedgeTheorems {
  import opened HedgeRoute
  import opened HedgeNetPnl
  import opened HedgeRows
  import opened HedgeWorker
  import opened HedgePlanner
  import opened HedgeMachine
  import opened HedgeInvariant
  import opened HedgeSafety

  // ---------------------------------------------------------------- at most one submission

  /** How often submitLimitOrder is called for hedge h along the run. */
  function SubmitSteps(s: Sys, run: seq<Step>, h: nat): nat
    requires Legal(s, run)
    decreases |run|
  {
    if run == [] then 0
    else (if run[0].Submit? && s.workers[run[0].w].job.hedge == h then 1 else 0)
         + SubmitSteps(Next(s, run[0]), run[1..], h)
  }

  function SubmitCalls(calls: seq<Call>): nat {
    if calls == [] then 0 else SubmitCalls(calls[..|calls| - 1]) + if calls[|calls| - 1].SubmitCall? then 1 else 0
  }

  function CallsOf(s: Sys, h: nat): seq<Call> { if h < |s.hedges| then s.hedges[h].calls else [] }

  /** The call log records exactly the submissions of the run. */
  lemma {:induction false} SubmissionsLogged(s: Sys, run: seq<Step>, h: nat)
    requires Legal(s, run)
    ensures SubmitCalls(CallsOf(s, h)) + SubmitSteps(s, run, h) == SubmitCalls(CallsOf(After(s, run), h))
    decreases |run|
  {
    if run != [] {
      StepLogged(s, run[0], h);
      SubmissionsLogged(Next(s, run[0]), run[1..], h);
    }
  }

  /** What one step adds to the call log of hedge h. */
  function NewCalls(s: Sys, step: Step, h: nat): seq<Call>
    requires Enabled(s, step)
  {
    match step
    case Submit(w) =>
      var worker := s.workers[w];
      if worker.job.hedge == h
      then [SubmitCall(worker.plan.jobRoute, worker.job.intent.side, worker.plan.target)] else []
    case Cancel(w) => if s.workers[w].job.hedge == h then [CancelCall] else []
    case _ => []
  }

  lemma JobStepCalls(s: Sys, step: Step, h: nat)
    requires Enabled(s, step) && IsJobStep(step) && !step.Submit? && !step.Cancel?
    ensures CallsOf(Next(s, step), h) == CallsOf(s, h)
  {
    match step
    case Claim(w, k, _, _, _, _) => hide Claimable, AfterClaim;
    case RunStatement(w, _) => hide Statement, AfterStatement, CancelDue, Add;
    case _ => hide AfterQuery, AfterOrder, AfterValidate, Honest;
  }

  lemma FeeStepCalls(s: Sys, step: Step, h: nat)
    requires Enabled(s, step) && IsFeeStep(step)
    ensures CallsOf(Next(s, step), h) == CallsOf(s, h)
  {
    hide FeeEffect, AfterTrades, AfterFeeQuery, FeeClaimable, AfterFeeStatement;
    if step.FeeStatement? {
      FeeKeepsCalls(step.f, s.feeWorkers[step.f], s.hedges[s.feeWorkers[step.f].job.hedge], s.now, s.retryDelayMs);
    }
  }

  lemma StepCalls(s: Sys, step: Step, h: nat)
    requires Enabled(s, step)
    ensures CallsOf(Next(s, step), h) == CallsOf(s, h) + NewCalls(s, step, h)
  {
    if IsJobStep(step) && !step.Submit? && !step.Cancel? {
      JobStepCalls(s, step, h);
    } else if IsFeeStep(step) {
      FeeStepCalls(s, step, h);
    } else {
      hide PlanHedge, TradeAllowed, Settle, Add, Traded;
    }
  }

  lemma StepLogged(s: Sys, step: Step, h: nat)
    requires Enabled(s, step)
    ensures SubmitCalls(CallsOf(Next(s, step), h)) ==
            SubmitCalls(CallsOf(s, h)) + if step.Submit? && s.workers[step.w].job.hedge == h then 1 else 0
  {
    StepCalls(s, step, h);
    hide Next, CallsOf;
    var calls, more := CallsOf(s, h), NewCalls(s, step, h);
    if more == [] { assert calls + more == calls; } else { assert (calls + more)[..|calls|] == calls; }
  }

  lemma FeeKeepsCalls(f: nat, worker: FeeWorker, g: Hedge, now: nat, retryDelayMs: nat)
    requires worker.FeeRunning?
    ensures FeeEffect(f, worker, g, now, retryDelayMs).Ok? ==>
              FeeEffect(f, worker, g, now, retryDelayMs).value.calls == g.calls
  {
  }

  lemma {:induction false} OnlyFirstSubmits(calls: seq<Call>)
    requires forall i :: 0 < i < |calls| ==> calls[i].CancelCall?
    ensures SubmitCalls(calls) <= 1
    ensures |calls| > 1 ==> SubmitCalls(calls) == SubmitCalls(calls[..1])
  {
    if |calls| > 1 {
      OnlyFirstSubmits(calls[..|calls| - 1]);
      assert calls[..|calls| - 1][..1] == calls[..1];
    }
  }

  /** Over every interleaving of workers, stalls, crashes, lost statements and lease expiries the exchange
      is asked to submit at most once per hedge. */
  lemma AtMostOneSubmission(s: Sys, run: seq<Step>, h: nat)
    requires Initial(s) && Legal(s, run)
    ensures SubmitSteps(s, run, h) <= 1
  {
    InitialInv(s);
    RunInv(s, run);
    SubmissionsLogged(s, run, h);
    hide Inv, HedgeInv;
    if h < |After(s, run).hedges| {
      ReachedHedge(s, run, h);
      CallsOrdered(h, After(s, run).hedges[h]);
      OnlyFirstSubmits(CallsOf(After(s, run), h));
    }
  }

  lemma CallsOrdered(h: nat, g: Hedge)
    requires HedgeInv(h, g)
    ensures forall i :: 0 < i < |g.calls| ==> g.calls[i].CancelCall?
  {
  }

  lemma ReachedHedge(s: Sys, run: seq<Step>, h: nat)
    requires Initial(s) && Legal(s, run) && h < |After(s, run).hedges|
    ensures HedgeInv(h, After(s, run).hedges[h])
  {
    hide HedgeInv;
    InitialInv(s);
    RunInv(s, run);
  }

  /** When a submission is about to be sent it is the first call for the hedge, no cancel has been requested,
      the attempt is on record, and route, client order id, price and quantity are those of the stored route,
      computed from the hedge; whether the worker still holds its lease does not matter. */
  lemma SubmissionIsAuthorised(s: Sys, run: seq<Step>, w: nat)
    requires Initial(s) && Legal(s, run) && Enabled(After(s, run), Submit(w))
    ensures var now := After(s, run);
            var worker := now.workers[w];
            var g := now.hedges[worker.job.hedge];
            && g.calls == []
            && g.row.cancelRequestedAt.None?
            && g.row.submissionAttemptedAt.Some?
            && g.row.route == Some(worker.plan.jobRoute)
            && worker.plan.jobRoute.clientOrderId == worker.job.hedge
            && LimitPrice(g.row.intent.side, g.row.intent.amount, g.row.intent.referenceAmount,
                          worker.plan.jobRoute.route) == Some(worker.plan.jobRoute.limitPrice)
            && Quantize(g.row.intent.amount, worker.plan.jobRoute.route.stepSizeRaw) == Some(worker.plan.target)
  {
    InitialInv(s);
    RunInv(s, run);
    var now := After(s, run);
    assert WorkerBound(w, now.workers[w], now.hedges);
    ReachedHedge(s, run, now.workers[w].job.hedge);
  }

  /** The exchange is asked to cancel only after the submission, and only once the order has outlived the age
      fixed with its route. */
  lemma CancelOnlyOverAge(s: Sys, run: seq<Step>, h: nat, i: nat)
    requires Initial(s) && Legal(s, run) && h < |After(s, run).hedges|
    requires i < |After(s, run).hedges[h].calls| && After(s, run).hedges[h].calls[i].CancelCall?
    ensures var g := After(s, run).hedges[h];
            && i > 0 && g.calls[0].SubmitCall?
            && g.row.submissionAttemptedAt.Some? && g.row.route.Some? && g.row.cancelRequestedAt.Some?
            && g.row.submissionAttemptedAt.value + g.row.route.value.maxOrderAgeMs <= g.row.cancelRequestedAt.value
  {
    ReachedHedge(s, run, h);
    hide Legal, After, Initial, LimitPrice, Quantize, AtOrBetter;
  }

  // ---------------------------------------------------------------- columns that never change, pairs that grow

  /** Between any two moments of a run the route, the attempt and cancel times and both order ids stay once
      set, the recorded pair (filled, quote) never decreases, its quote rises exactly when its fill rises, and
      the fill stays within the requested amount. */
  lemma EvidenceChain(s: Sys, before: seq<Step>, later: seq<Step>, h: nat)
    requires Initial(s) && Legal(s, before) && Legal(After(s, before), later)
    requires h < |After(s, before).hedges|
    ensures h < |After(After(s, before), later).hedges|
    ensures var r := After(s, before).hedges[h].row;
            var r' := After(After(s, before), later).hedges[h].row;
            && r'.intent == r.intent
            && Kept(r.route, r'.route)
            && Kept(r.submissionAttemptedAt, r'.submissionAttemptedAt)
            && Kept(r.cancelRequestedAt, r'.cancelRequestedAt)
            && Kept(r.externalOrderId, r'.externalOrderId)
            && Kept(r.venueOrderId, r'.venueOrderId)
            && Or0(r.filled) <= Or0(r'.filled) <= r.intent.amount
            && Or0(r.quote) <= Or0(r'.quote)
            && (Or0(r.filled) < Or0(r'.filled) <==> Or0(r.quote) < Or0(r'.quote))
  {
    var mid := After(s, before);
    InitialInv(s);
    RunInv(s, before);
    RunInv(mid, later);
    RunAdvances(mid, later);
    assert HedgeInv(h, After(mid, later).hedges[h]);
    hide Inv, Legal, After, Initial, LimitPrice, Quantize;
    assert Advances(mid.hedges[h], After(mid, later).hedges[h]);
  }

  // ---------------------------------------------------------------- no abandoned order

  /** A failed hedge without an external order id has nothing at the exchange, now or later: no order was
      accepted and none is on its way. */
  lemma NoAbandonedOrder(s: Sys, before: seq<Step>, later: seq<Step>, h: nat)
    requires Initial(s) && Legal(s, before) && Legal(After(s, before), later)
    requires h < |After(s, before).hedges|
    requires After(s, before).hedges[h].row.status.Failed? && After(s, before).hedges[h].row.externalOrderId.None?
    ensures h < |After(After(s, before), later).hedges|
    ensures var g := After(After(s, before), later).hedges[h];
            (g.venue.NoOrder? || g.venue.Rejected?) && g.row.filled.None?
  {
    var mid := After(s, before);
    InitialInv(s);
    RunInv(s, before);
    RunInv(mid, later);
    RunAdvances(mid, later);
    assert HedgeInv(h, After(mid, later).hedges[h]);
    hide Inv, Legal, After, Initial, LimitPrice, Quantize;
    assert Advances(mid.hedges[h], After(mid, later).hedges[h]);
  }

  /** A terminal hedge with an order has recorded exactly what the order executed, the order has ended, and
      neither ever changes again. */
  lemma TerminalIsFinal(s: Sys, before: seq<Step>, later: seq<Step>, h: nat)
    requires Initial(s) && Legal(s, before) && Legal(After(s, before), later)
    requires h < |After(s, before).hedges|
    requires var r := After(s, before).hedges[h].row;
             r.status.Filled? || (r.status.Failed? && r.externalOrderId.Some?)
    ensures h < |After(After(s, before), later).hedges|
    ensures var g, g' := After(s, before).hedges[h], After(After(s, before), later).hedges[h];
            && g.venue.Order? && !g.venue.phase.Open?
            && Or0(g.row.filled) == g.venue.executed && Or0(g.row.quote) == g.venue.quote
            && (g.row.status.Filled? <==> g.venue.phase.FullyExecuted?)
            && g'.venue == g.venue && g'.row.status == g.row.status
            && g'.row.filled == g.row.filled && g'.row.quote == g.row.quote
  {
    var mid := After(s, before);
    InitialInv(s);
    RunInv(s, before);
    RunAdvances(mid, later);
    assert HedgeInv(h, mid.hedges[h]);
    hide Inv, Legal, After, Initial, LimitPrice, Quantize;
    assert Advances(mid.hedges[h], After(mid, later).hedges[h]);
  }

  /** HEDGE_NOT_EXECUTED is recorded only on a failed hedge that has no recorded fill and of which the
      exchange executed nothing. */
  lemma NotExecutedMeansNothingExecuted(s: Sys, run: seq<Step>, h: nat)
    requires Initial(s) && Legal(s, run) && h < |After(s, run).hedges|
    requires var pnl := After(s, run).hedges[h].row.pnl;
             pnl.PnlDone? && pnl.pnl.Unavailable? && pnl.pnl.reason == HedgeNotExecuted
    ensures var g := After(s, run).hedges[h];
            && g.row.status.Failed? && g.row.filled.None? && g.row.quote.None? && g.fills == []
            && (g.venue.Order? ==> g.venue.executed == 0)
            && !g.venue.InFlight?
  {
    ReachedHedge(s, run, h);
    hide Legal, After, Initial, LimitPrice, Quantize, AtOrBetter;
  }

  // ---------------------------------------------------------------- inventory

  /** Movement of a token by everything but hedge fills: settlements and other moves. */
  function OtherMovement(run: seq<Step>, token: nat): int
    decreases |run|
  {
    if run == [] then 0
    else (match run[0]
          case Move(t, delta) => if t == token then delta else 0
          case CreateHedge(settlement) => SettlementDelta(settlement, token)
          case _ => 0) + OtherMovement(run[1..], token)
  }

  lemma {:induction false} MovedIsOther(s: Sys, run: seq<Step>, token: nat)
    requires Legal(s, run)
    ensures Balance(After(s, run).moved, token) == Balance(s.moved, token) + OtherMovement(run, token)
    decreases |run|
  {
    if run != [] {
      StepMoves(s, run[0], token);
      MovedIsOther(Next(s, run[0]), run[1..], token);
    }
  }

  lemma StepMoves(s: Sys, step: Step, token: nat)
    requires Enabled(s, step)
    ensures Balance(Next(s, step).moved, token) ==
            Balance(s.moved, token) + match step
                                      case Move(t, delta) => if t == token then delta else 0
                                      case CreateHedge(settlement) => SettlementDelta(settlement, token)
                                      case _ => 0
  {
    hide Statement, AfterStatement, FeeEffect, AfterQuery, AfterClaim, AfterOrder, AfterTrades, PlanHedge, Honest,
      CancelDue, Claimable, RetryDelay, TradeAllowed, SettlementDelta, Settle;
    if step.CreateHedge? { SettleMoves(s.moved, step.settlement, token); }
  }

  /** Every balance is its initial value, plus the other movements, plus the signed sum of the recorded fills
      of the token's hedges: no cumulative report is counted twice. */
  lemma InventoryConserved(s: Sys, run: seq<Step>, token: nat)
    requires Initial(s) && Legal(s, run)
    ensures Balance(After(s, run).balances, token) ==
            Balance(s.balances, token) + OtherMovement(run, token) + HedgeSum(After(s, run).hedges, token)
  {
    hide Initial, HedgesOk, WorkersOk, FeeWorkersOk, SoleSubmitter;
    assert s.moved == s.balances by { InitialBalances(s); }
    InitialInv(s);
    RunInv(s, run);
    MovedIsOther(s, run, token);
  }

  lemma InitialBalances(s: Sys)
    requires Initial(s)
    ensures s.moved == s.balances
  {
  }

  // ---------------------------------------------------------------- leases fence

  /** A worker that has lost its lease changes nothing: whatever statement it still sends leaves every row and
      every balance as they are, although no statement checks the expiry time. */
  lemma StaleWorkerFenced(s: Sys, run: seq<Step>, w: nat, fault: Fault)
    requires Initial(s) && Legal(s, run) && Enabled(After(s, run), RunStatement(w, fault))
    requires var now := After(s, run);
             !Owns(now.hedges[now.workers[w].job.hedge].row, w)
    ensures var now := After(s, run);
            Next(now, RunStatement(w, fault)).hedges == now.hedges
            && Next(now, RunStatement(w, fault)).balances == now.balances
  {
    InitialInv(s);
    RunInv(s, run);
    StaleChangesNothing(After(s, run), w, fault);
  }

  lemma StaleChangesNothing(s: Sys, w: nat, fault: Fault)
    requires Inv(s) && Enabled(s, RunStatement(w, fault))
    requires !Owns(s.hedges[s.workers[w].job.hedge].row, w)
    ensures Next(s, RunStatement(w, fault)).hedges == s.hedges && Next(s, RunStatement(w, fault)).balances == s.balances
  {
    var worker := s.workers[w];
    var h := worker.job.hedge;
    var g := s.hedges[h];
    HedgeAt(s.hedges, h);
    assert WorkerBound(w, worker, s.hedges);
    hide Inv, HedgeInv, WorkerOk, Statement, AfterStatement, CancelDue, Advances, Owns, HedgesOk;
    var out := Statement(w, worker, g.row, s.now, s.retryDelayMs);
    if out.Ok? {
      StatementKeeps(w, worker, h, g, s.now, s.retryDelayMs);
      assert WithRow(g, out.value.row) == g;
    }
  }
}
