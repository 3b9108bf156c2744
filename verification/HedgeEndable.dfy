/** When a queued hedge can still end: exactly, for a route table that stays as it is, for the stored route, and
    for operators who may change the table as they like. */
module HedgeEndable {
  import opened Arithmetic
  import opened HedgeRoute
  import opened HedgeRows
  import opened HedgeWorker
  import opened HedgePlanner
  import opened HedgeMachine
  import opened HedgeInvariant
  import opened HedgeSafety
  import opened HedgeStuck
  import opened HedgeRegimes
  import opened HedgeProgress
  import opened HedgeEndings

  /** While every claim of a queued hedge reads the same route and order age, the hedge can end exactly when a
      later claim or a lease holder can end it: for a claim without an attempt on record when the plan is
      refused for good, or fits what is stored (or may yet be refused by the exchange's rules); with an attempt
      when there is a plan and the order can end, or is still to be sent, in amounts that the plan accepts. */
  lemma CanEndWithRouteKept(s: Sys, before: seq<Step>, h: nat, setup: Setup)
    requires Initial(s) && Legal(s, before) && |s.workers| > 0
    requires h < |After(s, before).hedges| && After(s, before).hedges[h].row.status.Queued?
    requires setup.config.Some? ==>
               setup.config.value.tokenDecimals == After(s, before).hedges[h].row.intent.tokenDecimals
    ensures Can(After(s, before), Ends(h), RouteKept(h, setup)) <==> CanStillEnd(After(s, before), h, setup)
  {
    var t := After(s, before);
    InitialInv(s);
    RunInv(s, before);
    WorkersStayThere(s, before);
    hide Inv, Initial, Legal, After, Obeys, CanStillEnd;
    if Can(t, Ends(h), RouteKept(h, setup)) {
      var run :| Legal(t, run) && Obeys(t, run, RouteKept(h, setup)) && Met(Ends(h), After(t, run));
      EndsOnlyIf(t, run, h, setup);
    }
    if CanStillEnd(t, h, setup) { hide Can; StillEnds(t, h, setup); }
  }

  // ---------------------------------------------------------------- stuck hedges, again

  lemma StuckCannot(t: Sys, h: nat, regime: Regime)
    requires Inv(t) && (Orphaned(t, h) || Stranded(t, h))
    ensures !Can(t, Ends(h), regime)
  {
    hide Inv, Orphaned, Stranded, Legal, After, Obeys;
    forall later | Legal(t, later) ensures !Met(Ends(h), After(t, later)) { StuckNeverEnds(t, later, h); }
  }

  /** What can end the hedge whatever plan a claim makes. */
  lemma RejectedHeard(s: Sys, h: nat, setup: Setup)
    requires Inv(s) && h < |s.hedges| && s.hedges[h].row.status.Queued?
    requires s.hedges[h].row.submissionAttemptedAt.Some? && s.hedges[h].venue.Rejected? && !Stranded(s, h)
    ensures CanStillEnd(s, h, setup)
  {
    var w :| 0 <= w < |s.workers| && HearsRejection(s.workers[w], h) && Owns(s.hedges[h].row, w);
    hide Inv, OrderLeads, ReplyError, ClaimCanEnd;
    assert HolderCanEnd(s, w, h, setup.rulesKept);
  }

  /** A route of the stored price terms that reads the executed amount leads to an end unless the hedge is stuck. */
  lemma UnstuckStillEnds(s: Sys, h: nat, setup: Setup)
    requires Inv(s) && h < |s.hedges| && s.hedges[h].row.status.Queued?
    requires !Orphaned(s, h) && !Stranded(s, h)
    requires var r := s.hedges[h].row;
             if r.submissionAttemptedAt.None?
             then match PlanNow(h, r, setup) case Refusal(e) => !e.retryable case Answer(plan) => FitsRoute(r, plan)
             else PlanNow(h, r, setup).Answer?
                  && (s.hedges[h].venue.Order? ==> FinalReachable(s.hedges[h], PlanNow(h, r, setup).value))
    ensures CanStillEnd(s, h, setup)
  {
    if s.hedges[h].row.submissionAttemptedAt.Some? {
      match s.hedges[h].venue
      case Rejected => RejectedHeard(s, h, setup);
      case NoOrder =>
        InvHedge(s, h);
        NoCallsYet(h, s.hedges[h]);
        hide Inv, HolderCanEnd, PlanNow;
      case _ => hide Inv, HolderCanEnd, PlanNow;
    } else {
      hide Inv, HolderCanEnd, PlanNow;
    }
  }

  lemma NoCallsYet(h: nat, g: Hedge)
    requires HedgeInv(h, g) && g.venue.NoOrder?
    ensures g.calls == []
  {
  }

  /** The plan that a prepared hedge gets again from the stored price terms, with a step of its own. */
  function StoredPlan(g: Hedge, step: nat): Plan
    requires g.row.route.Some? && step > 0 && Quantize(g.row.intent.amount, step).Some?
  {
    var j := g.row.route.value;
    Plan(j.(route := j.route.(stepSizeRaw := step)), Quantize(g.row.intent.amount, step).value)
  }

  lemma PriceIgnoresStep(side: Side, amount: nat, reference: nat, route: Route, step: nat)
    requires amount > 0 && reference > 0 && step > 0
    ensures LimitPrice(side, amount, reference, route.(stepSizeRaw := step)) == LimitPrice(side, amount, reference, route)
  {
    hide Times, Pow10, RoundToTick;
  }

  lemma StoredPlanMade(h: nat, g: Hedge, step: nat, rulesKept: bool)
    requires HedgeInv(h, g) && g.row.route.Some? && step > 0 && Quantize(g.row.intent.amount, step).Some?
    ensures var j := g.row.route.value;
            && j.route.tokenDecimals == g.row.intent.tokenDecimals
            && PlanNow(h, g.row, Setup(Some(j.route.(stepSizeRaw := step)), j.maxOrderAgeMs, rulesKept))
               == Answer(StoredPlan(g, step))
  {
    PriceIgnoresStep(g.row.intent.side, g.row.intent.amount, g.row.intent.referenceAmount, g.row.route.value.route, step);
    hide LimitPrice, Quantize, CallInv, VenueInv, TradesInv, EvidenceInv, TerminalInv, FeeInv, PnlInv, PlanHedge;
  }

  /** The stored plan reads any executed amount in whole steps; a step of one reads whatever was not executed in
      full. */
  lemma StoredPlanReads(h: nat, g: Hedge, step: nat)
    requires HedgeInv(h, g) && g.venue.Order? && g.row.route.Some? && step > 0
    requires Quantize(g.row.intent.amount, step).Some? && g.venue.executed % step == 0
    requires step == g.row.route.value.route.stepSizeRaw || (step == 1 && !g.venue.phase.FullyExecuted?)
    ensures FinalReachable(g, StoredPlan(g, step))
  {
    WithinAmount(h, g);
    QuantizeGreatest(g.row.intent.amount, 1, g.row.intent.amount);
    hide HedgeInv, Quantize;
    assert Readable(StoredPlan(g, step), g.venue.executed, g.calls[0].quantity);
    if !HasEnded(g.venue) { assert FinalPossible(g, g.venue.executed); }
  }

  /** While the stored route and order age are what claims read, and the order, if there is one, has executed
      whole steps of it, a prepared queued hedge can end exactly when it is not stuck. */
  lemma CanEndWithStoredRoute(s: Sys, before: seq<Step>, h: nat, rulesKept: bool)
    requires Initial(s) && Legal(s, before) && |s.workers| > 0
    requires h < |After(s, before).hedges| && After(s, before).hedges[h].row.status.Queued?
    requires After(s, before).hedges[h].row.route.Some?
    requires var g := After(s, before).hedges[h];
             g.venue.Order? ==> g.venue.executed % g.row.route.value.route.stepSizeRaw == 0
    ensures var j := After(s, before).hedges[h].row.route.value;
            Can(After(s, before), Ends(h), RouteKept(h, Setup(Some(j.route), j.maxOrderAgeMs, rulesKept)))
            <==> !Orphaned(After(s, before), h) && !Stranded(After(s, before), h)
  {
    var t := After(s, before);
    InitialInv(s);
    RunInv(s, before);
    WorkersStayThere(s, before);
    hide Initial, Legal, After, Obeys, CanStillEnd, Inv, Can, FinalReachable, Orphaned, Stranded, PlanNow;
    var g := t.hedges[h];
    var j := g.row.route.value;
    var setup := Setup(Some(j.route), j.maxOrderAgeMs, rulesKept);
    InvHedge(t, h);
    if Orphaned(t, h) || Stranded(t, h) {
      StuckCannot(t, h, RouteKept(h, setup));
    } else {
      RouteSteps(h, g);
      StoredPlanMade(h, g, j.route.stepSizeRaw, rulesKept);
      assert j.route.(stepSizeRaw := j.route.stepSizeRaw) == j.route;
      if g.venue.Order? { StoredPlanReads(h, g, j.route.stepSizeRaw); }
      UnstuckStillEnds(t, h, setup);
      StillEnds(t, h, setup);
    }
  }

  lemma RouteSteps(h: nat, g: Hedge)
    requires HedgeInv(h, g) && g.row.route.Some?
    ensures Quantize(g.row.intent.amount, g.row.route.value.route.stepSizeRaw).Some?
  {
    hide CallInv, VenueInv, TradesInv, EvidenceInv, TerminalInv, FeeInv, PnlInv, PlanHedge, LimitPrice, Quantize;
  }

  /** If the operators may change the route table as they like, a queued hedge can end exactly when it is neither
      orphaned (an authorisation nobody will follow with a submission) nor stranded (a rejected submission
      nobody with the lease will hear of). */
  lemma CanEndExactlyUnlessStuck(s: Sys, before: seq<Step>, h: nat)
    requires Initial(s) && Legal(s, before) && |s.workers| > 0
    requires h < |After(s, before).hedges| && After(s, before).hedges[h].row.status.Queued?
    ensures Can(After(s, before), Ends(h), Unrestricted)
            <==> !(Orphaned(After(s, before), h) || Stranded(After(s, before), h))
  {
    var t := After(s, before);
    InitialInv(s);
    RunInv(s, before);
    WorkersStayThere(s, before);
    hide Initial, Legal, After, Obeys, CanStillEnd, Inv, Can, Orphaned, Stranded, PlanNow;
    if Orphaned(t, h) || Stranded(t, h) {
      StuckCannot(t, h, Unrestricted);
    } else {
      var setup := HelpfulSetup(t, h);
      StillEnds(t, h, setup);
      Loosened(t, Ends(h), RouteKept(h, setup));
    }
  }

  /** A setup under which the hedge can end: no route at all before an attempt, afterwards the stored one, with
      a step of one for an order that was not executed in full. */
  lemma HelpfulSetup(t: Sys, h: nat) returns (setup: Setup)
    requires Inv(t) && h < |t.hedges| && t.hedges[h].row.status.Queued? && !Orphaned(t, h) && !Stranded(t, h)
    ensures setup.config.Some? ==> setup.config.value.tokenDecimals == t.hedges[h].row.intent.tokenDecimals
    ensures CanStillEnd(t, h, setup)
  {
    var g := t.hedges[h];
    InvHedge(t, h);
    if g.row.submissionAttemptedAt.None? {
      setup := Setup(None, 0, true);
    } else {
      AttemptPrepared(h, g);
      var j := g.row.route.value;
      var step := if g.venue.Order? && g.venue.phase.FullyExecuted? then j.route.stepSizeRaw else 1;
      RouteSteps(h, g);
      QuantizeGreatest(g.row.intent.amount, 1, 0);
      if g.venue.Order? && g.venue.phase.FullyExecuted? { FullInSteps(h, g); }
      setup := Setup(Some(j.route.(stepSizeRaw := step)), j.maxOrderAgeMs, true);
      hide Inv, HedgeInv, Orphaned, Stranded, CanStillEnd, Quantize, FinalReachable;
      StoredPlanMade(h, g, step, true);
      if g.venue.Order? { StoredPlanReads(h, g, step); }
    }
    hide Inv, HedgeInv, Orphaned, Stranded, CanStillEnd, Quantize, FinalReachable;
    UnstuckStillEnds(t, h, setup);
  }

  lemma AttemptPrepared(h: nat, g: Hedge)
    requires HedgeInv(h, g) && g.row.submissionAttemptedAt.Some?
    ensures g.row.route.Some?
  {
  }

  lemma Loosened(s: Sys, goal: Goal, regime: Regime)
    requires Can(s, goal, regime)
    ensures Can(s, goal, Unrestricted)
  {
    var run :| Legal(s, run) && Obeys(s, run, regime) && Met(goal, After(s, run));
    AnythingGoes(s, run);
    hide Legal, Obeys, After;
  }

  lemma {:induction false} AnythingGoes(s: Sys, run: seq<Step>)
    requires Legal(s, run)
    ensures Obeys(s, run, Unrestricted)
    decreases |run|
  {
    hide Enabled, Next;
    if run != [] { AnythingGoes(Next(s, run[0]), run[1..]); }
  }
}
