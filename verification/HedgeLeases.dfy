/** Lease exclusion: until a lease expires, or its holder releases or ends the hedge, nobody claims the hedge, not
    even its holder again; after that the next claim passes. */
module HedgeLeases {
  import opened HedgeRoute
  import opened HedgeRows
  import opened HedgeWorker
  import opened HedgePlanner
  import opened HedgeMachine
  import opened HedgeSafety
  import opened HedgeStuck

  lemma {:induction false} TimeGrows(s: Sys, run: seq<Step>)
    requires Legal(s, run)
    ensures s.now <= After(s, run).now
    decreases |run|
  {
    if run != [] {
      StepTime(s, run[0]);
      TimeGrows(Next(s, run[0]), run[1..]);
      hide Next, Enabled;
    }
  }

  lemma StepTime(s: Sys, step: Step)
    requires Enabled(s, step)
    ensures s.now <= Next(s, step).now
  {
    hide Statement, AfterStatement, CancelDue, Claimable, FeeClaimable, Honest, TradeAllowed, PlanHedge, FeeEffect,
      AfterClaim, AfterFeeClaim, AfterQuery, AfterOrder, AfterValidate, AfterTrades, AfterFeeQuery, AfterFeeStatement,
      Settle, Add, Traded, AwaitsStore;
  }

  // ---------------------------------------------------------------- the execution lease

  /** A hedge can be claimed exactly when it is queued, due, canonical or attempted, and free. */
  lemma ClaimExactly(s: Sys, w: nat, h: nat, leaseMs: nat, config: Option<Route>, maxOrderAgeMs: nat, fault: Fault)
    requires w < |s.workers| && s.workers[w].Idle? && h < |s.hedges|
    requires config.Some? ==> config.value.tokenDecimals == s.hedges[h].row.intent.tokenDecimals
    ensures var r := s.hedges[h].row;
            Enabled(s, Claim(w, h, leaseMs, config, maxOrderAgeMs, fault)) <==>
              && r.status.Queued? && r.nextAttemptAt <= s.now
              && (r.canonical || r.submissionAttemptedAt.Some?)
              && (r.lease.None? || r.lease.value.expiresAt <= s.now)
  {
  }

  /** A statement by which worker w lets go of hedge h: it releases or fails it, or ends it with a final report. */
  predicate LetsGo(s: Sys, step: Step, w: nat, h: nat) {
    && step.RunStatement? && step.w == w && w < |s.workers|
    && !s.workers[w].Idle? && s.workers[w].job.hedge == h
    && (s.workers[w].Closing? || (s.workers[w].pc.Applying? && !s.workers[w].pc.order.state.OrderPending?))
  }

  predicate NeverLetsGo(s: Sys, run: seq<Step>, w: nat, h: nat)
    requires Legal(s, run)
    decreases |run|
  {
    run == [] || (!LetsGo(s, run[0], w, h) && NeverLetsGo(Next(s, run[0]), run[1..], w, h))
  }

  predicate LeasedUntil(s: Sys, w: nat, h: nat, expiry: nat) {
    h < |s.hedges| && s.hedges[h].row.lease == Some(Lease(w, expiry))
  }

  /** Only the owner's letting go takes a lease off a row. */
  lemma LeaseTaken(v: nat, worker: Worker, r: Row, now: nat, retryDelayMs: nat)
    requires AwaitsStore(worker)
    ensures var out := Statement(v, worker, r, now, retryDelayMs);
            out.Ok? && out.value.row.lease != r.lease ==>
              && Owns(r, v)
              && (worker.Closing? || (worker.pc.Applying? && !worker.pc.order.state.OrderPending?))
  {
    hide ReplyError, RetryDelay, CancelDue, CheckFill, CheckEvidence;
  }

  lemma StatementKeepsLease(s: Sys, v: nat, fault: Fault, w: nat, h: nat, expiry: nat)
    requires Enabled(s, RunStatement(v, fault)) && LeasedUntil(s, w, h, expiry)
    requires !LetsGo(s, RunStatement(v, fault), w, h)
    ensures LeasedUntil(Next(s, RunStatement(v, fault)), w, h, expiry)
  {
    var worker := s.workers[v];
    LeaseTaken(v, worker, s.hedges[worker.job.hedge].row, s.now, s.retryDelayMs);
    hide Statement, AfterStatement, CancelDue, Add, AwaitsStore;
  }

  lemma ClaimKeepsLease(s: Sys, step: Step, w: nat, h: nat, expiry: nat)
    requires Enabled(s, step) && step.Claim? && LeasedUntil(s, w, h, expiry) && s.now < expiry
    ensures LeasedUntil(Next(s, step), w, h, expiry)
  {
    hide AfterClaim;
  }

  lemma StepKeepsLease(s: Sys, step: Step, w: nat, h: nat, expiry: nat)
    requires Enabled(s, step) && LeasedUntil(s, w, h, expiry) && s.now < expiry && !LetsGo(s, step, w, h)
    ensures LeasedUntil(Next(s, step), w, h, expiry)
  {
    if step.RunStatement? {
      StatementKeepsLease(s, step.w, step.fault, w, h, expiry);
    } else if step.Claim? {
      ClaimKeepsLease(s, step, w, h, expiry);
    } else {
      QuietRow(s, step, h);
      hide Next, Enabled;
    }
  }

  lemma {:induction false} RunKeepsLease(s: Sys, run: seq<Step>, w: nat, h: nat, expiry: nat)
    requires Legal(s, run) && NeverLetsGo(s, run, w, h) && LeasedUntil(s, w, h, expiry) && After(s, run).now < expiry
    ensures LeasedUntil(After(s, run), w, h, expiry)
    decreases |run|
  {
    if run != [] {
      TimeGrows(s, run);
      StepKeepsLease(s, run[0], w, h, expiry);
      RunKeepsLease(Next(s, run[0]), run[1..], w, h, expiry);
    }
  }

  lemma ClaimLeases(s: Sys, w: nat, h: nat, leaseMs: nat, config: Option<Route>, maxOrderAgeMs: nat, fault: Fault)
    requires Enabled(s, Claim(w, h, leaseMs, config, maxOrderAgeMs, fault)) && !fault.LostBefore?
    ensures LeasedUntil(Next(s, Claim(w, h, leaseMs, config, maxOrderAgeMs, fault)), w, h, s.now + leaseMs)
  {
    hide AfterClaim;
  }

  lemma LeasedExcludes(s: Sys, w: nat, h: nat, expiry: nat, step: Step)
    requires LeasedUntil(s, w, h, expiry) && s.now < expiry && step.Claim? && step.h == h
    ensures !Enabled(s, step)
  {
  }

  /** After a committed claim of hedge h by worker w at time t the row carries the lease until t + leaseMs, and as
      long as w has not let go no claim of h is possible before, in any run of the other workers, crashes of w
      and lost replies included. */
  lemma ClaimExcludesClaims(s: Sys, w: nat, h: nat, leaseMs: nat, config: Option<Route>, maxOrderAgeMs: nat, fault: Fault,
                            run: seq<Step>, other: Step)
    requires var claim := Claim(w, h, leaseMs, config, maxOrderAgeMs, fault);
             && Enabled(s, claim) && !fault.LostBefore?
             && Legal(Next(s, claim), run) && NeverLetsGo(Next(s, claim), run, w, h)
             && After(Next(s, claim), run).now < s.now + leaseMs
    requires other.Claim? && other.h == h
    ensures var end := After(Next(s, Claim(w, h, leaseMs, config, maxOrderAgeMs, fault)), run);
            && h < |end.hedges| && end.hedges[h].row.lease == Some(Lease(w, s.now + leaseMs))
            && !Enabled(end, other)
  {
    hide Next, Enabled, Legal, After, NeverLetsGo;
    var t := Next(s, Claim(w, h, leaseMs, config, maxOrderAgeMs, fault));
    ClaimLeases(s, w, h, leaseMs, config, maxOrderAgeMs, fault);
    RunKeepsLease(t, run, w, h, s.now + leaseMs);
    LeasedExcludes(After(t, run), w, h, s.now + leaseMs, other);
  }

  // ---------------------------------------------------------------- the fee lease

  /** A hedge's fees can be claimed exactly when they are pending, due and free. */
  lemma FeeClaimExactly(s: Sys, f: nat, h: nat, leaseMs: nat, config: Option<Route>, fault: Fault)
    requires f < |s.feeWorkers| && s.feeWorkers[f].FeeIdle? && h < |s.hedges|
    requires config.Some? ==> config.value.tokenDecimals == s.hedges[h].row.intent.tokenDecimals
    ensures var r := s.hedges[h].row;
            Enabled(s, FeeClaim(f, h, leaseMs, config, fault)) <==>
              && r.fee.FeePending? && r.feeNextAttemptAt <= s.now
              && (r.feeLease.None? || r.feeLease.value.expiresAt <= s.now)
  {
  }

  /** A statement by which fee worker f lets go of hedge h: its commit or its release. */
  predicate FeeLetsGo(s: Sys, step: Step, f: nat, h: nat) {
    && step.FeeStatement? && step.f == f && f < |s.feeWorkers|
    && s.feeWorkers[f].FeeRunning? && s.feeWorkers[f].job.hedge == h
  }

  predicate NeverFeeLetsGo(s: Sys, run: seq<Step>, f: nat, h: nat)
    requires Legal(s, run)
    decreases |run|
  {
    run == [] || (!FeeLetsGo(s, run[0], f, h) && NeverFeeLetsGo(Next(s, run[0]), run[1..], f, h))
  }

  predicate FeeLeasedUntil(s: Sys, f: nat, h: nat, expiry: nat) {
    h < |s.hedges| && s.hedges[h].row.feeLease == Some(Lease(f, expiry))
  }

  lemma FeeLeaseTaken(f: nat, worker: FeeWorker, g: Hedge, now: nat, retryDelayMs: nat)
    requires worker.FeeRunning?
    ensures var out := FeeEffect(f, worker, g, now, retryDelayMs);
            out.Ok? && out.value.row.feeLease != g.row.feeLease ==> FeeOwns(g.row, f)
  {
    hide FillSetOk, SettledPnl, UpsertFills, SumQuantity, SumQuote, RetryDelay;
  }

  lemma StatementKeepsFeeLease(v: nat, worker: Worker, r: Row, now: nat, retryDelayMs: nat)
    requires AwaitsStore(worker)
    ensures var out := Statement(v, worker, r, now, retryDelayMs);
            out.Ok? ==> out.value.row.feeLease == r.feeLease
  {
    hide ReplyError, RetryDelay, CancelDue, CheckFill, CheckEvidence, Owns;
  }

  lemma FeeStepKeepsLease(s: Sys, step: Step, f: nat, h: nat, expiry: nat)
    requires Enabled(s, step) && IsFeeStep(step) && FeeLeasedUntil(s, f, h, expiry) && s.now < expiry
    requires !FeeLetsGo(s, step, f, h)
    ensures FeeLeasedUntil(Next(s, step), f, h, expiry)
  {
    if step.FeeStatement? {
      FeeLeaseTaken(step.f, s.feeWorkers[step.f], s.hedges[s.feeWorkers[step.f].job.hedge], s.now, s.retryDelayMs);
    }
    hide FeeEffect, AfterTrades, AfterFeeQuery, AfterFeeClaim, AfterFeeStatement;
  }

  lemma JobStepKeepsFeeLease(s: Sys, step: Step, f: nat, h: nat, expiry: nat)
    requires Enabled(s, step) && IsJobStep(step) && FeeLeasedUntil(s, f, h, expiry)
    ensures FeeLeasedUntil(Next(s, step), f, h, expiry)
  {
    if step.RunStatement? {
      var worker := s.workers[step.w];
      StatementKeepsFeeLease(step.w, worker, s.hedges[worker.job.hedge].row, s.now, s.retryDelayMs);
    }
    hide Statement, AfterStatement, CancelDue, Add, AwaitsStore, AfterClaim, Claimable, AfterQuery, AfterOrder, AfterValidate,
      Honest;
  }

  lemma StepKeepsFeeLease(s: Sys, step: Step, f: nat, h: nat, expiry: nat)
    requires Enabled(s, step) && FeeLeasedUntil(s, f, h, expiry) && s.now < expiry && !FeeLetsGo(s, step, f, h)
    ensures FeeLeasedUntil(Next(s, step), f, h, expiry)
  {
    if IsJobStep(step) {
      JobStepKeepsFeeLease(s, step, f, h, expiry);
    } else if IsFeeStep(step) {
      FeeStepKeepsLease(s, step, f, h, expiry);
    } else {
      hide PlanHedge, TradeAllowed, Settle, Add, Traded;
    }
  }

  lemma {:induction false} RunKeepsFeeLease(s: Sys, run: seq<Step>, f: nat, h: nat, expiry: nat)
    requires Legal(s, run) && NeverFeeLetsGo(s, run, f, h) && FeeLeasedUntil(s, f, h, expiry)
    requires After(s, run).now < expiry
    ensures FeeLeasedUntil(After(s, run), f, h, expiry)
    decreases |run|
  {
    if run != [] {
      TimeGrows(s, run);
      StepKeepsFeeLease(s, run[0], f, h, expiry);
      RunKeepsFeeLease(Next(s, run[0]), run[1..], f, h, expiry);
    }
  }

  lemma FeeClaimLeases(s: Sys, f: nat, h: nat, leaseMs: nat, config: Option<Route>, fault: Fault)
    requires Enabled(s, FeeClaim(f, h, leaseMs, config, fault)) && !fault.LostBefore?
    ensures FeeLeasedUntil(Next(s, FeeClaim(f, h, leaseMs, config, fault)), f, h, s.now + leaseMs)
  {
    hide AfterFeeClaim;
  }

  lemma FeeLeasedExcludes(s: Sys, f: nat, h: nat, expiry: nat, step: Step)
    requires FeeLeasedUntil(s, f, h, expiry) && s.now < expiry && step.FeeClaim? && step.h == h
    ensures !Enabled(s, step)
  {
  }

  /** The same for the fee lease: until it expires or its holder commits or releases, no fee claim of h. */
  lemma FeeClaimExcludesClaims(s: Sys, f: nat, h: nat, leaseMs: nat, config: Option<Route>, fault: Fault,
                               run: seq<Step>, other: Step)
    requires var claim := FeeClaim(f, h, leaseMs, config, fault);
             && Enabled(s, claim) && !fault.LostBefore?
             && Legal(Next(s, claim), run) && NeverFeeLetsGo(Next(s, claim), run, f, h)
             && After(Next(s, claim), run).now < s.now + leaseMs
    requires other.FeeClaim? && other.h == h
    ensures var end := After(Next(s, FeeClaim(f, h, leaseMs, config, fault)), run);
            && h < |end.hedges| && end.hedges[h].row.feeLease == Some(Lease(f, s.now + leaseMs))
            && !Enabled(end, other)
  {
    hide Next, Enabled, Legal, After, NeverFeeLetsGo;
    var t := Next(s, FeeClaim(f, h, leaseMs, config, fault));
    FeeClaimLeases(s, f, h, leaseMs, config, fault);
    RunKeepsFeeLease(t, run, f, h, s.now + leaseMs);
    FeeLeasedExcludes(After(t, run), f, h, s.now + leaseMs, other);
  }
}
