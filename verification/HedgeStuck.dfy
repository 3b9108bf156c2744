/** Hedges that can never end: an authorisation that was never followed by a submission, and a rejected
    submission of which nobody with the lease will hear.  The protocol prefers no order to two. */
module HedgeStuck {
  import opened HedgeRoute
  import opened HedgeRows
  import opened HedgeWorker
  import opened HedgePlanner
  import opened HedgeMachine
  import opened HedgeInvariant
  import opened HedgeSafety
  import opened HedgeTheorems

  // ---------------------------------------------------------------- never submitted

  /** An attempt is on record, but no submission was sent and no worker is about to send one, as after a
      crash between authorizeSubmission and submitLimitOrder. */
  predicate Orphaned(s: Sys, h: nat) {
    && h < |s.hedges|
    && s.hedges[h].row.submissionAttemptedAt.Some?
    && s.hedges[h].calls == []
    && forall w :: 0 <= w < |s.workers| ==> !AboutToSubmit(s.workers[w], h)
  }

  /** Only a worker that stands before the submit call makes the first call, and none comes to stand there
      once an attempt is on record. */
  lemma OrphanedStep(s: Sys, step: Step, h: nat)
    requires Inv(s) && Enabled(s, step) && Orphaned(s, h)
    ensures Orphaned(Next(s, step), h)
  {
    InvNext(s, step);
    FirstCallIsSubmit(s, step, h);
    NewSubmitter(s, step, h);
    hide Inv, Next, Enabled;
    assert Advances(s.hedges[h], Next(s, step).hedges[h]);
  }

  lemma FirstCallIsSubmit(s: Sys, step: Step, h: nat)
    requires Inv(s) && Enabled(s, step) && h < |s.hedges| && s.hedges[h].calls == []
    requires forall w :: 0 <= w < |s.workers| ==> !AboutToSubmit(s.workers[w], h)
    ensures h < |Next(s, step).hedges| && Next(s, step).hedges[h].calls == []
  {
    InvNext(s, step);
    StepLogged(s, step, h);
    NotThisSubmit(s, step, h);
    var g' := Next(s, step).hedges[h];
    assert HedgeInv(h, g');
    hide Inv, Next, Enabled, HedgesAdvance;
    CallsOrdered(h, g');
    OnlyFirstSubmits(g'.calls);
    if g'.calls != [] { FirstCounts(h, g'); }
  }

  lemma NotThisSubmit(s: Sys, step: Step, h: nat)
    requires Enabled(s, step)
    requires forall w :: 0 <= w < |s.workers| ==> !AboutToSubmit(s.workers[w], h)
    ensures !(step.Submit? && s.workers[step.w].job.hedge == h)
  {
    if step.Submit? { assert step.w < |s.workers| && !AboutToSubmit(s.workers[step.w], h); }
  }

  lemma FirstCounts(h: nat, g: Hedge)
    requires HedgeInv(h, g) && g.calls != []
    ensures SubmitCalls(g.calls) >= 1
  {
    hide RouteInv, VenueInv, EvidenceInv, TerminalInv, FeeInv, PnlInv, PlanHedge, Quantize;
    OnlyFirstSubmits(g.calls);
    assert g.calls[..1] == [g.calls[0]];
    assert g.calls[..1][..0] == [];
  }

  lemma NewSubmitter(s: Sys, step: Step, h: nat)
    requires Inv(s) && Enabled(s, step) && Orphaned(s, h)
    ensures forall w :: 0 <= w < |Next(s, step).workers| ==> !AboutToSubmit(Next(s, step).workers[w], h)
  {
    hide Next, Enabled, Inv;
    var workers' := Next(s, step).workers;
    forall w | 0 <= w < |workers'| ensures !AboutToSubmit(workers'[w], h) {
      if AboutToSubmit(workers'[w], h) {
        SubmitterOrigin(s, step, w, h);
        AuthorizerUnattempted(s, w, h);
      }
    }
  }

  lemma AuthorizerUnattempted(s: Sys, w: nat, h: nat)
    requires Inv(s) && w < |s.workers| && h < |s.hedges|
    requires s.workers[w].Running? && s.workers[w].pc.Authorizing? && s.workers[w].job.hedge == h
    requires Owns(s.hedges[h].row, w)
    ensures s.hedges[h].row.submissionAttemptedAt.None?
  {
    assert WorkerBound(w, s.workers[w], s.hedges);
  }

  /** The step by which worker w's authorisation succeeds and is committed. */
  predicate Authorises(s: Sys, step: Step, w: nat, h: nat)
    requires Enabled(s, step)
  {
    && step == RunStatement(w, NoFault)
    && s.workers[w].Running? && s.workers[w].pc.Authorizing? && s.workers[w].job.hedge == h
    && AuthorizeSubmission(s.hedges[h].row, w, s.now).Ok?
    && Next(s, step).hedges == s.hedges[h := WithRow(s.hedges[h], AuthorizeSubmission(s.hedges[h].row, w, s.now).value.row)]
  }

  /** A worker comes to stand before the submit call only by a successful, committed authorisation under its
      own lease. */
  lemma SubmitterOrigin(s: Sys, step: Step, w: nat, h: nat)
    requires Enabled(s, step) && w < |Next(s, step).workers| && AboutToSubmit(Next(s, step).workers[w], h)
    ensures w < |s.workers|
    ensures AboutToSubmit(s.workers[w], h) || Authorises(s, step, w, h)
  {
    if step.RunStatement? {
      StatementOrigin(s, step.w, step.fault, w, h);
    } else if IsJobStep(step) {
      CallOrigin(s, step, w, h);
    } else {
      WorkersUntouched(s, step);
      hide Next, Enabled, Owns;
    }
  }

  lemma StatementOrigin(s: Sys, v: nat, fault: Fault, w: nat, h: nat)
    requires Enabled(s, RunStatement(v, fault)) && w < |s.workers|
    requires AboutToSubmit(Next(s, RunStatement(v, fault)).workers[w], h)
    ensures AboutToSubmit(s.workers[w], h) || Authorises(s, RunStatement(v, fault), w, h)
  {
    var worker := s.workers[v];
    var r := s.hedges[worker.job.hedge].row;
    AfterStatementShape(v, worker, r, s.now, s.retryDelayMs, CancelDue(r, v, s.now), fault);
    hide Statement, AfterStatement, CancelDue, Add, AwaitsStore, Owns;
  }

  lemma CallOrigin(s: Sys, step: Step, w: nat, h: nat)
    requires Enabled(s, step) && IsJobStep(step) && !step.RunStatement?
    requires w < |Next(s, step).workers| && AboutToSubmit(Next(s, step).workers[w], h)
    ensures w < |s.workers| && AboutToSubmit(s.workers[w], h)
  {
    match step
    case Claim(v, k, leaseMs, config, maxOrderAgeMs, fault) =>
      AfterClaimShape(JobOf(k, ClaimRow(s.hedges[k].row, v, s.now, leaseMs)), config, maxOrderAgeMs);
      hide AfterClaim, Claimable;
    case _ => hide Honest;
  }

  lemma WorkersUntouched(s: Sys, step: Step)
    requires Enabled(s, step) && !IsJobStep(step)
    ensures Next(s, step).workers == s.workers
  {
    hide FeeEffect, AfterTrades, AfterFeeQuery, AfterFeeStatement, PlanHedge, TradeAllowed, Add, Settle, FeeClaimable;
  }

  /** Such a hedge is never submitted and never ends, in any later run. */
  lemma {:induction false} OrphanNeverEnds(s: Sys, before: seq<Step>, later: seq<Step>, h: nat)
    requires Initial(s) && Legal(s, before) && Legal(After(s, before), later)
    requires Orphaned(After(s, before), h)
    ensures h < |After(After(s, before), later).hedges|
    ensures var g := After(After(s, before), later).hedges[h];
            g.row.status.Queued? && g.calls == [] && g.venue.NoOrder? && g.row.filled.None?
  {
    InitialInv(s);
    RunInv(s, before);
    OrphanedRun(After(s, before), later, h);
    RunInv(After(s, before), later);
    assert HedgeInv(h, After(After(s, before), later).hedges[h]);
    hide Inv, Legal, After, Initial, LimitPrice, Quantize;
  }

  lemma {:induction false} OrphanedRun(s: Sys, run: seq<Step>, h: nat)
    requires Inv(s) && Legal(s, run) && Orphaned(s, h)
    ensures Orphaned(After(s, run), h)
    decreases |run|
  {
    if run != [] {
      InvNext(s, run[0]);
      OrphanedStep(s, run[0], h);
      OrphanedRun(Next(s, run[0]), run[1..], h);
    }
  }

  // ---------------------------------------------------------------- rejected, and nobody to hear of it

  /** The worker will still learn, or has learnt, that its submission was rejected. */
  predicate HearsRejection(worker: Worker, h: nat) {
    || (worker.Running? && worker.pc.AwaitingSubmit? && worker.job.hedge == h)
    || (worker.Closing? && worker.end.Failing? && worker.job.hedge == h)
  }

  /** The exchange rejected the submission, but the worker that would hear of it has crashed, lost the reply or
      lost its lease. */
  predicate Stranded(s: Sys, h: nat) {
    && h < |s.hedges|
    && s.hedges[h].row.status.Queued?
    && s.hedges[h].row.submissionAttemptedAt.Some?
    && s.hedges[h].venue.Rejected?
    && forall w :: 0 <= w < |s.workers| ==> !(HearsRejection(s.workers[w], h) && Owns(s.hedges[h].row, w))
  }

  /** Where the lease of hedge h can come from. */
  lemma OwnsOrigin(s: Sys, step: Step, w: nat, h: nat)
    requires Enabled(s, step) && h < |s.hedges| && h < |Next(s, step).hedges| && Owns(Next(s, step).hedges[h].row, w)
    ensures Owns(s.hedges[h].row, w) || (step.Claim? && step.w == w && step.h == h)
  {
    if step.RunStatement? {
      StatementLease(s, step.w, step.fault, h);
    } else if step.Claim? {
      hide AfterClaim, Claimable;
    } else {
      QuietRow(s, step, h);
      hide Next, Enabled;
    }
  }

  lemma StatementLease(s: Sys, v: nat, fault: Fault, h: nat)
    requires Enabled(s, RunStatement(v, fault)) && h < |s.hedges|
    ensures var s' := Next(s, RunStatement(v, fault));
            && h < |s'.hedges|
            && (s'.hedges[h].row.lease == s.hedges[h].row.lease || s'.hedges[h].row.lease.None?)
            && (s'.hedges[h].row.status == s.hedges[h].row.status || Ending(s, v, h))
            && (s'.hedges[h].row.status.Queued? ==> s.hedges[h].row.status.Queued?)
  {
    var worker := s.workers[v];
    StatementRow(v, worker, s.hedges[worker.job.hedge].row, s.now, s.retryDelayMs);
    hide Statement, AfterStatement, CancelDue, Add, AwaitsStore;
  }

  /** The statement that worker v waits for can end hedge h. */
  predicate Ending(s: Sys, v: nat, h: nat)
    requires v < |s.workers| && h < |s.hedges|
  {
    var worker := s.workers[v];
    && !worker.Idle? && worker.job.hedge == h
    && Owns(s.hedges[h].row, v)
    && ((worker.Running? && worker.pc.Applying?) || (worker.Closing? && worker.end.Failing?))
  }

  lemma StatementRow(v: nat, worker: Worker, r: Row, now: nat, retryDelayMs: nat)
    requires AwaitsStore(worker)
    ensures var out := Statement(v, worker, r, now, retryDelayMs);
            out.Ok? ==>
              && (out.value.row.lease == r.lease || out.value.row.lease.None?)
              && (out.value.row.status == r.status
                  || (Owns(r, v) && ((worker.Running? && worker.pc.Applying?) || (worker.Closing? && worker.end.Failing?))))
              && (out.value.row.status.Queued? ==> r.status.Queued?)
  {
    hide ReplyError, RetryDelay, CancelDue, CheckFill, CheckEvidence;
  }

  /** Lease and status of hedge h are the same after the step. */
  predicate SameLease(s: Sys, t: Sys, h: nat) {
    && h < |s.hedges| && h < |t.hedges|
    && t.hedges[h].row.lease == s.hedges[h].row.lease && t.hedges[h].row.status == s.hedges[h].row.status
  }

  /** Every other step leaves lease and status alone. */
  lemma QuietRow(s: Sys, step: Step, h: nat)
    requires Enabled(s, step) && h < |s.hedges| && !step.Claim? && !step.RunStatement?
    ensures SameLease(s, Next(s, step), h)
  {
    if IsJobStep(step) { QuietJobRow(s, step, h); } else if IsFeeStep(step) { QuietFeeRow(s, step, h); } else {
      hide PlanHedge, TradeAllowed, Settle, Add, Traded;
    }
  }

  lemma QuietJobRow(s: Sys, step: Step, h: nat)
    requires Enabled(s, step) && h < |s.hedges| && IsJobStep(step) && !step.Claim? && !step.RunStatement?
    ensures SameLease(s, Next(s, step), h)
  {
    hide AfterQuery, AfterOrder, AfterValidate, Honest;
  }

  lemma QuietFeeRow(s: Sys, step: Step, h: nat)
    requires Enabled(s, step) && h < |s.hedges| && IsFeeStep(step)
    ensures SameLease(s, Next(s, step), h)
  {
    if step.FeeStatement? {
      FeeKeepsLease(step.f, s.feeWorkers[step.f], s.hedges[s.feeWorkers[step.f].job.hedge], s.now, s.retryDelayMs);
    }
    hide FeeEffect, AfterTrades, AfterFeeQuery, AfterFeeClaim, FeeClaimable, AfterFeeStatement;
  }

  lemma FeeKeepsLease(f: nat, worker: FeeWorker, g: Hedge, now: nat, retryDelayMs: nat)
    requires worker.FeeRunning?
    ensures FeeEffect(f, worker, g, now, retryDelayMs).Ok? ==>
              && FeeEffect(f, worker, g, now, retryDelayMs).value.row.lease == g.row.lease
              && FeeEffect(f, worker, g, now, retryDelayMs).value.row.status == g.row.status
  {
  }

  /** A worker keeps its claim-time snapshot until its next claim, and a release never turns into a failure. */
  lemma JobOrigin(s: Sys, step: Step, w: nat)
    requires Enabled(s, step) && w < |Next(s, step).workers| && !Next(s, step).workers[w].Idle?
    requires !(step.Claim? && step.w == w && step.fault.NoFault?)
    ensures w < |s.workers| && !s.workers[w].Idle? && Next(s, step).workers[w].job == s.workers[w].job
    ensures var worker, worker' := s.workers[w], Next(s, step).workers[w];
            worker.Closing? && worker.end.Releasing? ==> worker'.Closing? && worker'.end.Releasing?
  {
    if step.RunStatement? {
      StatementJobOrigin(s, step.w, step.fault, w);
    } else if IsJobStep(step) {
      ReplyJobOrigin(s, step, w);
    } else {
      WorkersUntouched(s, step);
      hide Next, Enabled;
    }
  }

  lemma StatementJobOrigin(s: Sys, v: nat, fault: Fault, w: nat)
    requires Enabled(s, RunStatement(v, fault))
    requires w < |Next(s, RunStatement(v, fault)).workers| && !Next(s, RunStatement(v, fault)).workers[w].Idle?
    ensures var worker, worker' := s.workers[w], Next(s, RunStatement(v, fault)).workers[w];
            && w < |s.workers| && !worker.Idle? && worker'.job == worker.job
            && (worker.Closing? && worker.end.Releasing? ==> worker'.Closing? && worker'.end.Releasing?)
  {
    var worker := s.workers[v];
    var r := s.hedges[worker.job.hedge].row;
    KeepsJob(v, worker, r, s.now, s.retryDelayMs, CancelDue(r, v, s.now), fault);
    hide Statement, AfterStatement, CancelDue, Add, AwaitsStore;
  }

  lemma ReplyJobOrigin(s: Sys, step: Step, w: nat)
    requires Enabled(s, step) && IsJobStep(step) && !step.RunStatement?
    requires w < |Next(s, step).workers| && !Next(s, step).workers[w].Idle?
    requires !(step.Claim? && step.w == w && step.fault.NoFault?)
    ensures w < |s.workers| && !s.workers[w].Idle? && Next(s, step).workers[w].job == s.workers[w].job
    ensures var worker, worker' := s.workers[w], Next(s, step).workers[w];
            worker.Closing? && worker.end.Releasing? ==> worker'.Closing? && worker'.end.Releasing?
  {
    hide Honest, AfterClaim, Claimable;
  }

  lemma KeepsJob(w: nat, worker: Worker, r: Row, now: nat, retryDelayMs: nat, due: bool, fault: Fault)
    requires AwaitsStore(worker)
    ensures var after := AfterStatement(worker, due, Seen(Statement(w, worker, r, now, retryDelayMs), fault));
            !after.Idle? ==>
              && after.job == worker.job
              && (worker.Closing? && worker.end.Releasing? ==> after.Closing? && after.end.Releasing?)
  {
    OnlyAuthorization(w, worker, r, now, retryDelayMs);
    hide Statement, ReplyError;
  }

  lemma OnlyAuthorization(w: nat, worker: Worker, r: Row, now: nat, retryDelayMs: nat)
    requires AwaitsStore(worker)
    ensures Statement(w, worker, r, now, retryDelayMs) == Err(NonCanonical) ==> worker.Running? && worker.pc.Authorizing?
  {
    if Statement(w, worker, r, now, retryDelayMs) == Err(NonCanonical) {
      OnlyAuthorizationJudges(w, worker, r, now, retryDelayMs);
    }
  }

  /** Of the workers with an unattempted snapshot, only one that hears of the rejection or is letting go can
      still hold the lease once an attempt is recorded and rejected. */
  lemma HolderHears(w: nat, worker: Worker, h: nat, g: Hedge)
    requires HedgeInv(h, g) && WorkerOk(w, worker, g) && !worker.Idle? && worker.job.hedge == h
    requires !worker.job.submissionAttempted && Owns(g.row, w)
    requires g.row.submissionAttemptedAt.Some? && g.venue.Rejected?
    ensures HearsRejection(worker, h) || (worker.Closing? && worker.end.Releasing?)
  {
    hide RouteInv, VenueInv, EvidenceInv, TerminalInv, FeeInv, PnlInv, PlanHedge, RouteFor, Quantize;
  }

  lemma HearerUnattempted(w: nat, worker: Worker, h: nat, g: Hedge)
    requires WorkerOk(w, worker, g) && HearsRejection(worker, h)
    ensures !worker.job.submissionAttempted
  {
    hide RouteFor, Quantize;
  }

  lemma ClaimHearsNothing(job: Job, config: Option<Route>, maxOrderAgeMs: nat, h: nat)
    requires job.submissionAttempted
    ensures !HearsRejection(AfterClaim(job, config, maxOrderAgeMs), h)
  {
    hide MakePlan;
  }

  lemma StrandedStep(s: Sys, step: Step, h: nat)
    requires Inv(s) && Enabled(s, step) && Stranded(s, h)
    ensures Stranded(Next(s, step), h)
  {
    InvNext(s, step);
    var s' := Next(s, step);
    StrandedColumns(s, step, h);
    forall w | 0 <= w < |s'.workers| ensures !(HearsRejection(s'.workers[w], h) && Owns(s'.hedges[h].row, w)) {
      if HearsRejection(s'.workers[w], h) && Owns(s'.hedges[h].row, w) { NoNewHearer(s, step, w, h); }
    }
    StrandedQueued(s, step, h);
  }

  lemma StrandedColumns(s: Sys, step: Step, h: nat)
    requires Inv(s) && Enabled(s, step) && Stranded(s, h)
    ensures h < |Next(s, step).hedges|
    ensures Next(s, step).hedges[h].row.submissionAttemptedAt.Some? && Next(s, step).hedges[h].venue.Rejected?
  {
    InvNext(s, step);
    hide Inv, Next, Enabled;
    assert Advances(s.hedges[h], Next(s, step).hedges[h]);
  }

  lemma NoNewHearer(s: Sys, step: Step, w: nat, h: nat)
    requires Inv(s) && Enabled(s, step) && Stranded(s, h)
    requires h < |Next(s, step).hedges| && w < |Next(s, step).workers|
    ensures !(HearsRejection(Next(s, step).workers[w], h) && Owns(Next(s, step).hedges[h].row, w))
  {
    if HearsRejection(Next(s, step).workers[w], h) && Owns(Next(s, step).hedges[h].row, w) {
      OwnsOrigin(s, step, w, h);
      if step.Claim? && step.w == w {
        ClaimerHears(s, step, w, h);
      } else {
        InvNext(s, step);
        HearerAt(Next(s, step), w, h);
        JobOrigin(s, step, w);
        HolderAt(s, w, h);
        hide Next, Enabled, Inv;
      }
    }
  }

  lemma ClaimerHears(s: Sys, step: Step, w: nat, h: nat)
    requires Enabled(s, step) && step.Claim? && step.w == w && h < |s.hedges|
    requires s.hedges[h].row.submissionAttemptedAt.Some?
    ensures !HearsRejection(Next(s, step).workers[w], h)
  {
    var row := ClaimRow(s.hedges[step.h].row, w, s.now, step.leaseMs);
    AfterClaimShape(JobOf(step.h, row), step.config, step.maxOrderAgeMs);
    if step.h == h { ClaimHearsNothing(JobOf(h, row), step.config, step.maxOrderAgeMs, h); }
    hide AfterClaim, Claimable;
  }

  lemma HearerAt(s: Sys, w: nat, h: nat)
    requires Inv(s) && w < |s.workers| && h < |s.hedges| && HearsRejection(s.workers[w], h)
    ensures !s.workers[w].job.submissionAttempted
  {
    assert WorkerBound(w, s.workers[w], s.hedges);
    HearerUnattempted(w, s.workers[w], h, s.hedges[h]);
  }

  lemma HolderAt(s: Sys, w: nat, h: nat)
    requires Inv(s) && Stranded(s, h) && w < |s.workers| && !s.workers[w].Idle? && s.workers[w].job.hedge == h
    requires !s.workers[w].job.submissionAttempted && Owns(s.hedges[h].row, w)
    ensures s.workers[w].Closing? && s.workers[w].end.Releasing?
  {
    HedgeAt(s.hedges, h);
    assert WorkerBound(w, s.workers[w], s.hedges);
    HolderHears(w, s.workers[w], h, s.hedges[h]);
    hide HedgeInv, WorkerOk, Inv, HearsRejection;
    NoHearer(s, w, h);
  }

  lemma NoHearer(s: Sys, w: nat, h: nat)
    requires Stranded(s, h) && w < |s.workers|
    ensures !(HearsRejection(s.workers[w], h) && Owns(s.hedges[h].row, w))
  {
  }

  /** No worker can end it: one that applies a report would have an order, one that fails does not hold the
      lease. */
  lemma StrandedQueued(s: Sys, step: Step, h: nat)
    requires Inv(s) && Enabled(s, step) && Stranded(s, h)
    requires h < |Next(s, step).hedges|
    ensures Next(s, step).hedges[h].row.status.Queued?
  {
    if step.RunStatement? {
      StatementLease(s, step.w, step.fault, h);
      if Ending(s, step.w, h) { NoEnding(s, step.w, h); }
      hide Next, Inv, Ending;
    } else if step.Claim? {
      ClaimKeepsStatus(s, step, h);
      hide Next, Enabled, Inv;
    } else {
      QuietRow(s, step, h);
      hide Next, Enabled, Inv;
    }
  }

  lemma ClaimKeepsStatus(s: Sys, step: Step, h: nat)
    requires Enabled(s, step) && step.Claim? && h < |s.hedges|
    ensures h < |Next(s, step).hedges| && Next(s, step).hedges[h].row.status == s.hedges[h].row.status
  {
    hide AfterClaim, Claimable;
  }

  lemma NoEnding(s: Sys, v: nat, h: nat)
    requires Inv(s) && Stranded(s, h) && v < |s.workers|
    ensures !Ending(s, v, h)
  {
    assert WorkerBound(v, s.workers[v], s.hedges);
    NoHearer(s, v, h);
  }

  lemma {:induction false} StrandedRun(s: Sys, run: seq<Step>, h: nat)
    requires Inv(s) && Legal(s, run) && Stranded(s, h)
    ensures Stranded(After(s, run), h)
    decreases |run|
  {
    if run != [] {
      InvNext(s, run[0]);
      StrandedStep(s, run[0], h);
      StrandedRun(Next(s, run[0]), run[1..], h);
    }
  }

  /** A stuck hedge stays queued in every later run. */
  lemma StuckNeverEnds(s: Sys, later: seq<Step>, h: nat)
    requires Inv(s) && Legal(s, later) && (Orphaned(s, h) || Stranded(s, h))
    ensures h < |After(s, later).hedges| && After(s, later).hedges[h].row.status.Queued?
  {
    if Orphaned(s, h) {
      OrphanedRun(s, later, h);
      RunInv(s, later);
      HedgeAt(After(s, later).hedges, h);
      OrphanQueued(h, After(s, later).hedges[h]);
    } else {
      StrandedRun(s, later, h);
    }
  }

  lemma OrphanQueued(h: nat, g: Hedge)
    requires HedgeInv(h, g) && g.row.submissionAttemptedAt.Some? && g.calls == []
    ensures g.row.status.Queued?
  {
    hide RouteInv, VenueInv, FeeInv, PnlInv, PlanHedge, Quantize;
  }
}
