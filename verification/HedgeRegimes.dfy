/** Runs that keep to a regime, such as a route table that stays as it is or an exchange that tells the truth
    about trades, and what some run of a regime can lead to. */
module HedgeRegimes {
  import opened HedgeRoute
  import opened HedgeNetPnl
  import opened HedgeRows
  import opened HedgeWorker
  import opened HedgePlanner
  import opened HedgeMachine
  import opened HedgeSafety
  import opened BinanceTrades

  /** What every claim of the watched hedge reads from the route table and the worker's configuration; with
      rulesKept the exchange's symbol rules moreover stay such that the order passes them. */
  datatype Setup = Setup(config: Option<Route>, maxOrderAgeMs: nat, rulesKept: bool)

  datatype Regime =
    | Unrestricted
    | RouteKept(hedge: nat, setup: Setup)
    | FeesTruthful(hedge: nat)
    | FeesKept(hedge: nat, config: Option<Route>)  // truthful, and every fee claim reads this route

  predicate Follows(s: Sys, step: Step, regime: Regime)
    requires Enabled(s, step)
  {
    match regime
    case Unrestricted => true
    case RouteKept(h, setup) =>
      && (step.Claim? && step.h == h ==> step.config == setup.config && step.maxOrderAgeMs == setup.maxOrderAgeMs)
      && (step.ValidateReply? && s.workers[step.w].job.hedge == h && setup.rulesKept && step.validated.Refusal? ==>
            step.validated.error.retryable)
    case FeesTruthful(h) => FeeReplyTruthful(s, step, h)
    case FeesKept(h, config) => FeeReplyTruthful(s, step, h) && (step.FeeClaim? && step.h == h ==> step.config == config)
  }

  /** What the exchange tells a fee worker about the order of hedge h is true of some moment so far: an honest
      report, or the trades that the order then had, as the adapter lists them. */
  predicate FeeReplyTruthful(s: Sys, step: Step, h: nat)
    requires Enabled(s, step)
  {
    && (step.FeeQueryReply? && s.feeWorkers[step.f].job.hedge == h && step.found.Answer? && step.found.value.Some? ==>
          Honest(s.hedges[h].venue, step.found.value.value))
    && (step.FeeTradesReply? && s.feeWorkers[step.f].job.hedge == h && step.trades.Answer? ==>
          ListedOnce(s.hedges[h].venue, step.trades.value))
  }

  predicate ListedOnce(v: VenueOrder, fills: seq<Fill>) {
    v.Order? && exists n :: 0 <= n <= |v.trades| && Listed(v.trades[..n], v.id) == Some(fills)
  }

  predicate Obeys(s: Sys, run: seq<Step>, regime: Regime)
    requires Legal(s, run)
    decreases |run|
  {
    run == [] || (Follows(s, run[0], regime) && Obeys(Next(s, run[0]), run[1..], regime))
  }

  datatype Goal = Ends(h: nat) | CompletesFees(h: nat)

  predicate Met(goal: Goal, s: Sys) {
    goal.h < |s.hedges|
    && if goal.Ends? then !s.hedges[goal.h].row.status.Queued? else s.hedges[goal.h].row.fee.FeeComplete?
  }

  /** Some run of the regime leads to the goal. */
  ghost predicate Can(s: Sys, goal: Goal, regime: Regime) {
    exists run: seq<Step> :: Legal(s, run) && Obeys(s, run, regime) && Met(goal, After(s, run))
  }

  lemma Already(s: Sys, goal: Goal, regime: Regime)
    requires Met(goal, s)
    ensures Can(s, goal, regime)
  {
    assert Legal(s, []) && Obeys(s, [], regime) && After(s, []) == s;
  }

  lemma Before(s: Sys, step: Step, goal: Goal, regime: Regime)
    requires Enabled(s, step) && Follows(s, step, regime) && Can(Next(s, step), goal, regime)
    ensures Can(s, goal, regime)
  {
    var run :| Legal(Next(s, step), run) && Obeys(Next(s, step), run, regime) && Met(goal, After(Next(s, step), run));
    var whole := [step] + run;
    assert whole[1..] == run;
    hide Enabled, Next, Met, Follows;
    assert Legal(s, whole) && Obeys(s, whole, regime) && After(s, whole) == After(Next(s, step), run);
  }

  /** Steps that no regime restricts. */
  predicate Free(step: Step) {
    !step.Claim? && !step.ValidateReply? && !step.FeeClaim? && !step.FeeQueryReply? && !step.FeeTradesReply?
  }

  lemma BeforeFree(s: Sys, step: Step, goal: Goal, regime: Regime)
    requires Free(step) && Enabled(s, step) && Can(Next(s, step), goal, regime)
    ensures Can(s, goal, regime)
  {
    assert Follows(s, step, regime) by { hide Enabled, Next, Can; }
    hide Can, Enabled, Next, Follows;
    Before(s, step, goal, regime);
  }

  lemma FreeStep(s: Sys, step: Step, goal: Goal, regime: Regime)
    requires Inv(s) && Enabled(s, step) && Free(step)
    ensures Inv(Next(s, step)) && (Can(Next(s, step), goal, regime) ==> Can(s, goal, regime))
  {
    hide Inv, Can, Enabled, Next, HedgesAdvance;
    InvNext(s, step);
    if Can(Next(s, step), goal, regime) { BeforeFree(s, step, goal, regime); }
  }

  lemma {:induction false} WorkersStayThere(s: Sys, run: seq<Step>)
    requires Legal(s, run)
    ensures |After(s, run).workers| == |s.workers| && |After(s, run).feeWorkers| == |s.feeWorkers|
    decreases |run|
  {
    if run != [] {
      StepKeepsWorkers(s, run[0]);
      WorkersStayThere(Next(s, run[0]), run[1..]);
    }
  }

  lemma StepKeepsWorkers(s: Sys, step: Step)
    requires Enabled(s, step)
    ensures |Next(s, step).workers| == |s.workers| && |Next(s, step).feeWorkers| == |s.feeWorkers|
  {
    hide Statement, AfterStatement, FeeEffect, AfterQuery, AfterClaim, AfterOrder, AfterTrades, AfterFeeQuery, PlanHedge,
      Honest, CancelDue, Claimable, RetryDelay, TradeAllowed, Add, Settle, FeeClaimable, AwaitsStore, AfterFeeStatement,
      AfterFeeClaim, FreshHedge, Traded;
  }
}
