/** The invariant of the whole transition system and its preservation over every run. */
module HedgeSafety {
  import opened HedgeRoute
  import opened HedgeNetPnl
  import opened HedgeRows
  import opened HedgeWorker
  import opened HedgePlanner
  import opened HedgeMachine
  import opened HedgeInvariant

  // ---------------------------------------------------------------- inventory

  /** What the recorded fill of one hedge moved. */
  function Moved(g: Hedge, token: nat): int {
    if g.row.intent.token == token then Signed(g.row.intent.side, Or0(g.row.filled)) else 0
  }

  function HedgeSum(hedges: seq<Hedge>, token: nat): int {
    if hedges == [] then 0
    else HedgeSum(hedges[..|hedges| - 1], token) + Moved(hedges[|hedges| - 1], token)
  }

  lemma {:induction false} HedgeSumUpdate(hedges: seq<Hedge>, h: nat, g: Hedge, token: nat)
    requires h < |hedges|
    ensures HedgeSum(hedges[h := g], token) == HedgeSum(hedges, token) - Moved(hedges[h], token) + Moved(g, token)
  {
    var n := |hedges| - 1;
    if h < n {
      HedgeSumUpdate(hedges[..n], h, g, token);
      assert hedges[h := g][..n] == hedges[..n][h := g];
    } else {
      assert hedges[h := g][..n] == hedges[..n];
    }
  }

  /** Each balance is its initial value and other movements plus the signed recorded fills. */
  ghost predicate Conserved(s: Sys) {
    forall t: nat :: Balance(s.balances, t) == Balance(s.moved, t) + HedgeSum(s.hedges, t)
  }

  // ---------------------------------------------------------------- the invariant

  predicate HedgesOk(hedges: seq<Hedge>) {
    forall h :: 0 <= h < |hedges| ==> HedgeInv(h, hedges[h])
  }

  predicate WorkerBound(w: nat, worker: Worker, hedges: seq<Hedge>) {
    worker.Idle? || (worker.job.hedge < |hedges| && WorkerOk(w, worker, hedges[worker.job.hedge]))
  }

  predicate WorkersOk(workers: seq<Worker>, hedges: seq<Hedge>) {
    forall w :: 0 <= w < |workers| ==> WorkerBound(w, workers[w], hedges)
  }

  predicate FeeBound(worker: FeeWorker, hedges: seq<Hedge>) {
    worker.FeeIdle? || (worker.job.hedge < |hedges| && FeeWorkerOk(worker, hedges[worker.job.hedge]))
  }

  predicate FeeWorkersOk(workers: seq<FeeWorker>, hedges: seq<Hedge>) {
    forall f :: 0 <= f < |workers| ==> FeeBound(workers[f], hedges)
  }

  predicate AboutToSubmit(worker: Worker, h: nat) {
    worker.Running? && worker.pc.Submitting? && worker.job.hedge == h
  }

  /** No two workers stand before the submit call of one hedge. */
  ghost predicate SoleSubmitter(workers: seq<Worker>) {
    forall v, w, h :: 0 <= v < w < |workers| ==> !(AboutToSubmit(workers[v], h) && AboutToSubmit(workers[w], h))
  }

  ghost predicate Inv(s: Sys) {
    && HedgesOk(s.hedges)
    && WorkersOk(s.workers, s.hedges)
    && FeeWorkersOk(s.feeWorkers, s.hedges)
    && SoleSubmitter(s.workers)
    && Conserved(s)
  }

  /** Every hedge only moves forward. */
  predicate HedgesAdvance(hedges: seq<Hedge>, hedges': seq<Hedge>) {
    |hedges| <= |hedges'| && forall h :: 0 <= h < |hedges| ==> Advances(hedges[h], hedges'[h])
  }

  /** A step keeps the invariant and moves every hedge forward. */
  ghost predicate Preserves(s: Sys, s': Sys) { Inv(s') && HedgesAdvance(s.hedges, s'.hedges) }

  lemma SameAdvance(g: Hedge)
    ensures Advances(g, g)
  {
  }

  lemma OneAdvances(hedges: seq<Hedge>, h: nat, g': Hedge)
    requires h < |hedges| && Advances(hedges[h], g')
    ensures HedgesAdvance(hedges, hedges[h := g'])
  {
    hide Advances;
    forall k | 0 <= k < |hedges| ensures Advances(hedges[k], hedges[h := g'][k]) {
      if k != h { SameAdvance(hedges[k]); }
    }
  }

  lemma NoneAdvances(hedges: seq<Hedge>)
    ensures HedgesAdvance(hedges, hedges)
  {
    hide Advances;
    forall k | 0 <= k < |hedges| ensures Advances(hedges[k], hedges[k]) { SameAdvance(hedges[k]); }
  }

  // ---------------------------------------------------------------- changing one hedge

  /** Replacing one hedge keeps every view: each worker's new view is proved, or it stands still undisturbed. */
  lemma WorkersStay(workers: seq<Worker>, workers': seq<Worker>, hedges: seq<Hedge>, h: nat, g': Hedge)
    requires WorkersOk(workers, hedges)
    requires h < |hedges| && |workers'| == |workers|
    requires forall w :: 0 <= w < |workers| ==>
               || WorkerBound(w, workers'[w], hedges[h := g'])
               || (workers'[w] == workers[w] && Undisturbed(w, hedges[h], g')
                   && (AboutToSubmit(workers[w], h) ==> g'.calls == hedges[h].calls))
    ensures WorkersOk(workers', hedges[h := g'])
  {
    hide WorkerOk, Undisturbed;
    forall w | 0 <= w < |workers| ensures WorkerBound(w, workers'[w], hedges[h := g']) {
      assert WorkerBound(w, workers[w], hedges);
      if workers'[w] == workers[w] && !workers[w].Idle? && workers[w].job.hedge == h {
        if !WorkerBound(w, workers'[w], hedges[h := g']) {
          WorkerOkStable(w, workers[w], hedges[h], g');
        }
      }
    }
  }

  lemma FeeWorkersStay(workers: seq<FeeWorker>, hedges: seq<Hedge>, h: nat, g': Hedge)
    requires FeeWorkersOk(workers, hedges)
    requires h < |hedges| && g'.row.intent == hedges[h].row.intent
    ensures FeeWorkersOk(workers, hedges[h := g'])
  {
    forall f | 0 <= f < |workers| ensures FeeBound(workers[f], hedges[h := g']) {
      assert FeeBound(workers[f], hedges);
    }
  }

  lemma HedgesStay(hedges: seq<Hedge>, h: nat, g': Hedge)
    requires HedgesOk(hedges) && h < |hedges| && HedgeInv(h, g')
    ensures HedgesOk(hedges[h := g'])
  {
    hide HedgeInv;
  }

  /** Replacing a hedge whose recorded fill grew by delta, and moving that much inventory. */
  lemma ConservedStays(s: Sys, s': Sys, h: nat, g': Hedge, delta: int)
    requires Conserved(s) && h < |s.hedges|
    requires g'.row.intent == s.hedges[h].row.intent
    requires delta == Signed(g'.row.intent.side, Or0(g'.row.filled) - Or0(s.hedges[h].row.filled))
    requires s'.hedges == s.hedges[h := g'] && s'.moved == s.moved
    requires s'.balances == Add(s.balances, g'.row.intent.token, delta)
    ensures Conserved(s')
  {
    forall t: nat ensures Balance(s'.balances, t) == Balance(s'.moved, t) + HedgeSum(s'.hedges, t) {
      HedgeSumUpdate(s.hedges, h, g', t);
      assert Balance(s.balances, t) == Balance(s.moved, t) + HedgeSum(s.hedges, t);
    }
  }

  lemma SoleStays(workers: seq<Worker>, w: nat, worker: Worker)
    requires SoleSubmitter(workers) && w < |workers|
    requires worker.Running? && worker.pc.Submitting? ==>
               forall v :: 0 <= v < |workers| && v != w ==> !AboutToSubmit(workers[v], worker.job.hedge)
    ensures SoleSubmitter(workers[w := worker])
  {
  }

  lemma OnlyOneSubmits(workers: seq<Worker>, w: nat, v: nat, h: nat)
    requires SoleSubmitter(workers) && w < |workers| && v < |workers| && v != w
    requires AboutToSubmit(workers[w], h)
    ensures !AboutToSubmit(workers[v], h)
  {
  }

  // ---------------------------------------------------------------- steps of the job workers

  /** A step that only moves one worker's program counter. */
  lemma WorkerMoves(s: Sys, w: nat, worker: Worker)
    requires Inv(s) && w < |s.workers|
    requires WorkerBound(w, worker, s.hedges)
    requires !(worker.Running? && worker.pc.Submitting?)
    ensures Preserves(s, SetWorker(s, w, worker))
  {
    hide WorkerBound, HedgesOk, FeeWorkersOk;
    SoleStays(s.workers, w, worker);
    NoneAdvances(s.hedges);
    assert SetWorker(s, w, worker).hedges == s.hedges;
    assert forall t: nat :: Balance(s.balances, t) == Balance(s.moved, t) + HedgeSum(s.hedges, t);
  }

  /** The worker keeps its hedge, and stands before the submit call only after a successful authorisation. */
  lemma AfterStatementShape(w: nat, worker: Worker, r: Row, now: nat, retryDelayMs: nat, due: bool, fault: Fault)
    requires AwaitsStore(worker)
    ensures var out := Statement(w, worker, r, now, retryDelayMs);
            var after := AfterStatement(worker, due, Seen(out, fault));
            && (after.Idle? || after.job.hedge == worker.job.hedge)
            && (after.Running? && after.pc.Submitting? ==>
                  worker.Running? && worker.pc.Authorizing? && fault.NoFault? && out.Ok? && Owns(r, w))
  {
    hide CompleteTerminal, RecordProgress, RetryDelay, ReplyError;
  }

  /** An authorised worker is alone before the submit call: any other would have left a submission attempt. */
  lemma AuthorizerAlone(s: Sys, w: nat)
    requires Inv(s) && w < |s.workers| && s.workers[w].Running? && s.workers[w].pc.Authorizing?
    requires s.workers[w].job.hedge < |s.hedges| && Owns(s.hedges[s.workers[w].job.hedge].row, w)
    ensures forall v :: 0 <= v < |s.workers| ==> !AboutToSubmit(s.workers[v], s.workers[w].job.hedge)
  {
    assert WorkerBound(w, s.workers[w], s.hedges);
    forall v | 0 <= v < |s.workers| ensures !AboutToSubmit(s.workers[v], s.workers[w].job.hedge) {
      assert WorkerBound(v, s.workers[v], s.hedges);
    }
  }

  lemma OtherUndisturbed(v: nat, w: nat, h: nat, g: Hedge, change: Change)
    requires v != w && Keeps(w, h, g, change)
    ensures Undisturbed(v, g, WithRow(g, change.row))
  {
    hide Advances, RouteInv, CallInv, VenueInv, EvidenceInv, TerminalInv, FeeInv, PnlInv, PlanHedge;
  }

  /** A committed change to one hedge by one worker, with the worker's next program counter. */
  lemma CommitInv(s: Sys, s': Sys, w: nat, h: nat, change: Change)
    requires Inv(s) && h < |s.hedges| && w < |s.workers| && |s'.workers| == |s.workers|
    requires Keeps(w, h, s.hedges[h], change)
    requires s'.hedges == s.hedges[h := WithRow(s.hedges[h], change.row)]
    requires s'.workers == s.workers[w := s'.workers[w]]
    requires WorkerBound(w, s'.workers[w], s'.hedges) && SoleSubmitter(s'.workers)
    requires s'.feeWorkers == s.feeWorkers && s'.moved == s.moved
    requires s'.balances == Add(s.balances, s.hedges[h].row.intent.token, change.delta)
    ensures Preserves(s, s')
  {
    hide HedgeInv, Undisturbed, WorkerBound;
    var g := s.hedges[h];
    var g' := WithRow(g, change.row);
    forall v | 0 <= v < |s.workers| && v != w ensures Undisturbed(v, g, g') { OtherUndisturbed(v, w, h, g, change); }
    HedgesStay(s.hedges, h, g');
    WorkersStay(s.workers, s'.workers, s.hedges, h, g');
    FeeWorkersStay(s.feeWorkers, s.hedges, h, g');
    ConservedStays(s, s', h, g', change.delta);
    OneAdvances(s.hedges, h, g');
  }

  lemma StatementInv(s: Sys, w: nat, fault: Fault)
    requires Inv(s) && Enabled(s, RunStatement(w, fault))
    ensures Preserves(s, NextStatement(s, w, fault))
  {
    hide HedgeInv, WorkerOk, Statement, AfterStatement, CancelDue, Add, SoleSubmitter, Conserved;
    var worker := s.workers[w];
    var h := worker.job.hedge;
    var g := s.hedges[h];
    var due := CancelDue(g.row, w, s.now);
    var out := Statement(w, worker, g.row, s.now, s.retryDelayMs);
    var after := AfterStatement(worker, due, Seen(out, fault));
    assert WorkerBound(w, worker, s.hedges);
    AfterStatementShape(w, worker, g.row, s.now, s.retryDelayMs, due, fault);
    if after.Running? && after.pc.Submitting? { AuthorizerAlone(s, w); }
    SoleStays(s.workers, w, after);
    if !Committed(out, fault) {
      SameAdvance(g);
      StatementFails(w, worker, h, g, s.now, s.retryDelayMs, g, Seen(out, fault).error);
      WorkerMoves(s, w, after);
    } else {
      StatementKeeps(w, worker, h, g, s.now, s.retryDelayMs);
      if fault.NoFault? {
        StatementReturns(w, worker, h, g, s.now, s.retryDelayMs);
      } else {
        StatementFails(w, worker, h, g, s.now, s.retryDelayMs, WithRow(g, out.value.row), ConnectionLost);
      }
      CommitInv(s, NextStatement(s, w, fault), w, h, out.value);
    }
  }

  lemma ClaimInv(s: Sys, w: nat, h: nat, leaseMs: nat, config: Option<Route>, maxOrderAgeMs: nat, fault: Fault)
    requires Inv(s) && Enabled(s, Claim(w, h, leaseMs, config, maxOrderAgeMs, fault))
    ensures Preserves(s, NextClaim(s, w, h, leaseMs, config, maxOrderAgeMs, fault))
  {
    hide HedgeInv, WorkerOk, AfterClaim, SoleSubmitter, Conserved;
    if fault.LostBefore? {
      NoneAdvances(s.hedges);
      return;
    }
    var g := s.hedges[h];
    var row := ClaimRow(g.row, w, s.now, leaseMs);
    var g' := WithRow(g, row);
    var s' := NextClaim(s, w, h, leaseMs, config, maxOrderAgeMs, fault);
    ClaimKeeps(h, g, w, s.now, leaseMs);
    ClaimStarts(w, h, g', config, maxOrderAgeMs);
    AfterClaimShape(JobOf(h, row), config, maxOrderAgeMs);
    SoleStays(s.workers, w, s'.workers[w]);
    assert s.workers[w := s.workers[w]] == s.workers;
    HedgesStay(s.hedges, h, g');
    assert WorkerBound(w, s'.workers[w], s'.hedges);
    WorkersStay(s.workers, s'.workers, s.hedges, h, g');
    FeeWorkersStay(s.feeWorkers, s.hedges, h, g');
    ConservedStays(s, s', h, g', 0);
    OneAdvances(s.hedges, h, g');
  }

  lemma AfterClaimShape(job: Job, config: Option<Route>, maxOrderAgeMs: nat)
    ensures var after := AfterClaim(job, config, maxOrderAgeMs);
            !after.Idle? && after.job == job && !(after.Running? && after.pc.Submitting?)
  {
  }

  /** A submit or cancel call reaches the exchange. */
  lemma CallInvariant(s: Sys, w: nat, call: Call, pc: Pc)
    requires Inv(s) && IsRunning(s, w)
    requires var worker := s.workers[w];
             || (worker.pc.Submitting? && pc.AwaitingSubmit?
                 && call == SubmitCall(worker.plan.jobRoute, worker.job.intent.side, worker.plan.target))
             || (worker.pc.Canceling? && pc.AwaitingCancel? && call == CancelCall)
    ensures Preserves(s, NextCall(s, w, call, pc))
  {
    hide HedgeInv, PlanFor, Conserved, Advances;
    var worker := s.workers[w];
    var h := worker.job.hedge;
    var g := s.hedges[h];
    var s' := NextCall(s, w, call, pc);
    var g' := s'.hedges[h];
    assert WorkerBound(w, worker, s.hedges);
    if call.SubmitCall? { PlanNames(worker.job, h, worker.plan); SubmitKeeps(h, g, worker.job, worker.plan); }
    else { CancelCallKeeps(h, g); }
    SoleStays(s.workers, w, s'.workers[w]);
    HedgesStay(s.hedges, h, g');
    OneAdvances(s.hedges, h, g');
    forall v | 0 <= v < |s.workers| && v != w
      ensures Undisturbed(v, g, g')
      ensures AboutToSubmit(s.workers[v], h) ==> g'.calls == g.calls
    {
      if call.SubmitCall? { OnlyOneSubmits(s.workers, w, v, h); } else { assert WorkerBound(v, s.workers[v], s.hedges); }
    }
    assert WorkerBound(w, s'.workers[w], s'.hedges);
    WorkersStay(s.workers, s'.workers, s.hedges, h, g');
    FeeWorkersStay(s.feeWorkers, s.hedges, h, g');
    ConservedStays(s, s', h, g', 0);
  }

  lemma PlanNames(job: Job, h: nat, plan: Plan)
    requires job.hedge == h && PlanFor(job, plan)
    ensures plan.jobRoute.clientOrderId == h
  {
  }

  // ---------------------------------------------------------------- steps that leave the job columns alone

  /** A change to one hedge that no job worker can notice. */
  lemma QuietInv(s: Sys, s': Sys, h: nat, g': Hedge)
    requires Inv(s) && h < |s.hedges|
    requires FeeKeeps(h, s.hedges[h], g')
    requires s'.hedges == s.hedges[h := g'] && s'.workers == s.workers
    requires s'.balances == s.balances && s'.moved == s.moved
    requires FeeWorkersOk(s'.feeWorkers, s'.hedges)
    ensures Preserves(s, s')
  {
    hide HedgeInv, WorkerOk, Conserved, FeeWorkersOk, SoleSubmitter;
    HedgesStay(s.hedges, h, g');
    WorkersStay(s.workers, s.workers, s.hedges, h, g');
    ConservedStays(s, s', h, g', 0);
    OneAdvances(s.hedges, h, g');
  }

  lemma FeeStatementInv(s: Sys, f: nat, fault: Fault)
    requires Inv(s) && Enabled(s, FeeStatement(f, fault))
    ensures Preserves(s, NextFeeStatement(s, f, fault))
  {
    hide HedgeInv, WorkerOk, Conserved, SoleSubmitter, FeeEffect, WorkersOk, HedgesOk;
    var worker := s.feeWorkers[f];
    var h := worker.job.hedge;
    var g := s.hedges[h];
    var out := FeeEffect(f, worker, g, s.now, s.retryDelayMs);
    var s' := NextFeeStatement(s, f, fault);
    assert FeeBound(worker, s.hedges);
    if Committed(out, fault) {
      HedgeAt(s.hedges, h);
      FeeEffectKeeps(f, worker, h, g, s.now, s.retryDelayMs);
      FeeWorkersStay(s.feeWorkers, s.hedges, h, out.value);
      QuietInv(s, s', h, out.value);
    } else {
      FeeMoves(s, f, s'.feeWorkers[f]);
    }
  }

  lemma HedgeAt(hedges: seq<Hedge>, h: nat)
    requires HedgesOk(hedges) && h < |hedges|
    ensures HedgeInv(h, hedges[h])
  {
  }

  lemma FeeMoves(s: Sys, f: nat, worker: FeeWorker)
    requires Inv(s) && f < |s.feeWorkers| && FeeBound(worker, s.hedges)
    ensures Preserves(s, SetFeeWorker(s, f, worker))
  {
    hide WorkersOk, HedgesOk, SoleSubmitter, FeeBound;
    NoneAdvances(s.hedges);
    assert forall t: nat :: Balance(s.balances, t) == Balance(s.moved, t) + HedgeSum(s.hedges, t);
  }

  lemma FeeClaimInv(s: Sys, f: nat, h: nat, leaseMs: nat, config: Option<Route>, fault: Fault)
    requires Inv(s) && Enabled(s, FeeClaim(f, h, leaseMs, config, fault))
    ensures Preserves(s, NextFeeClaim(s, f, h, leaseMs, config, fault))
  {
    hide HedgeInv, WorkerOk, Conserved, SoleSubmitter, WorkersOk, HedgesOk;
    if fault.LostBefore? {
      NoneAdvances(s.hedges);
      return;
    }
    var g := s.hedges[h];
    var g' := WithRow(g, FeeClaimRow(g.row, f, s.now, leaseMs));
    var s' := NextFeeClaim(s, f, h, leaseMs, config, fault);
    HedgeAt(s.hedges, h);
    FeeClaimKeeps(h, g, f, s.now, leaseMs);
    FeeWorkersStay(s.feeWorkers, s.hedges, h, g');
    QuietInv(s, s', h, g');
  }

  /** Trades, acceptance, rejection and closing at the exchange. */
  lemma VenueStepInv(s: Sys, h: nat, venue: VenueOrder)
    requires Inv(s) && h < |s.hedges|
    requires VenueInv(s.hedges[h].(venue := venue)) && TradesInv(venue, s.hedges[h].row.intent)
    requires VenueAdvances(s.hedges[h].venue, venue)
    requires !s.hedges[h].venue.NoOrder? && !venue.NoOrder?
    ensures Preserves(s, SetHedge(s, h, s.hedges[h].(venue := venue)))
  {
    hide HedgeInv, WorkerOk, Conserved, SoleSubmitter, WorkersOk, HedgesOk, VenueInv, TradesInv, VenueAdvances;
    var g' := s.hedges[h].(venue := venue);
    HedgeAt(s.hedges, h);
    VenueKeeps(h, s.hedges[h], venue);
    FeeWorkersStay(s.feeWorkers, s.hedges, h, g');
    QuietInv(s, SetHedge(s, h, g'), h, g');
  }

  lemma CreateInv(s: Sys, settlement: Settlement)
    requires Inv(s) && PlanHedge(settlement).Some?
    ensures Preserves(s, NextCreate(s, settlement))
  {
    hide HedgeInv, Advances, WorkerOk, SoleSubmitter, FeeWorkerOk, FreshHedge, HedgeSum, Settle, PlanHedge;
    var s' := NextCreate(s, settlement);
    FreshKeeps(|s.hedges|, settlement, s.now);
    GrownWorkers(s.workers, s.feeWorkers, s.hedges, FreshHedge(settlement, s.now));
    forall k | 0 <= k < |s.hedges| ensures Advances(s.hedges[k], s'.hedges[k]) { SameAdvance(s.hedges[k]); }
    CreateConserved(s, settlement);
  }

  lemma GrownWorkers(workers: seq<Worker>, feeWorkers: seq<FeeWorker>, hedges: seq<Hedge>, g: Hedge)
    requires WorkersOk(workers, hedges) && FeeWorkersOk(feeWorkers, hedges)
    ensures WorkersOk(workers, hedges + [g]) && FeeWorkersOk(feeWorkers, hedges + [g])
  {
    hide WorkerOk, FeeWorkerOk;
    forall w | 0 <= w < |workers| ensures WorkerBound(w, workers[w], hedges + [g]) {
      assert WorkerBound(w, workers[w], hedges);
    }
    forall f | 0 <= f < |feeWorkers| ensures FeeBound(feeWorkers[f], hedges + [g]) {
      assert FeeBound(feeWorkers[f], hedges);
    }
  }

  lemma CreateConserved(s: Sys, settlement: Settlement)
    requires Conserved(s) && PlanHedge(settlement).Some?
    ensures Conserved(NextCreate(s, settlement))
  {
    var s' := NextCreate(s, settlement);
    assert s'.hedges[..|s.hedges|] == s.hedges;
    forall t: nat ensures Balance(s'.balances, t) == Balance(s'.moved, t) + HedgeSum(s'.hedges, t) {
      assert Balance(s.balances, t) == Balance(s.moved, t) + HedgeSum(s.hedges, t);
      assert Moved(s'.hedges[|s.hedges|], t) == 0;
      SettleMoves(s.balances, settlement, t);
      SettleMoves(s.moved, settlement, t);
    }
  }

  lemma SettleMoves(m: map<nat, int>, settlement: Settlement, t: nat)
    ensures Balance(Settle(m, settlement), t) == Balance(m, t) + SettlementDelta(settlement, t)
  {
  }

  lemma MoveInv(s: Sys, token: nat, delta: int)
    requires Inv(s)
    ensures Preserves(s, Next(s, Step.Move(token, delta)))
  {
    var s' := Next(s, Step.Move(token, delta));
    NoneAdvances(s.hedges);
    forall t: nat ensures Balance(s'.balances, t) == Balance(s'.moved, t) + HedgeSum(s'.hedges, t) {
      assert Balance(s.balances, t) == Balance(s.moved, t) + HedgeSum(s.hedges, t);
    }
  }

  // ---------------------------------------------------------------- every step, every run

  /** Steps of the job workers. */
  predicate IsJobStep(step: Step) {
    step.Claim? || step.RunStatement? || step.ValidateReply? || step.QueryReply? || step.Submit? || step.SubmitReply?
    || step.Cancel? || step.CancelReply? || step.Crash?
  }

  /** Steps of the fee workers. */
  predicate IsFeeStep(step: Step) {
    step.FeeClaim? || step.FeeQueryReply? || step.FeeTradesReply? || step.FeeStatement? || step.FeeCrash?
  }

  lemma JobStepInv(s: Sys, step: Step)
    requires Inv(s) && Enabled(s, step) && IsJobStep(step)
    ensures Preserves(s, Next(s, step))
  {
    hide HedgeInv, Conserved, SoleSubmitter, HedgesOk, FeeWorkersOk;
    match step
    case Claim(w, h, leaseMs, config, maxOrderAgeMs, fault) => ClaimInv(s, w, h, leaseMs, config, maxOrderAgeMs, fault);
    case RunStatement(w, fault) => StatementInv(s, w, fault);
    case ValidateReply(w, validated) =>
      assert WorkerBound(w, s.workers[w], s.hedges);
      ValidateReturns(w, s.workers[w], s.hedges[s.workers[w].job.hedge], validated);
      WorkerMoves(s, w, AfterValidate(s.workers[w], validated));
    case QueryReply(w, found) =>
      assert WorkerBound(w, s.workers[w], s.hedges);
      HedgeAt(s.hedges, s.workers[w].job.hedge);
      QueryReturns(w, s.workers[w], s.workers[w].job.hedge, s.hedges[s.workers[w].job.hedge], found);
      WorkerMoves(s, w, AfterQuery(s.workers[w], found));
    case Submit(w) => CallInvariant(s, w, SubmitCall(s.workers[w].plan.jobRoute, s.workers[w].job.intent.side,
                                                     s.workers[w].plan.target), AwaitingSubmit);
    case SubmitReply(w, submitted) => ReplyInv(s, w, submitted, OrderPendingCode);
    case Cancel(w) => CallInvariant(s, w, CancelCall, AwaitingCancel);
    case CancelReply(w, canceled) => ReplyInv(s, w, canceled, CancelPendingCode);
    case Crash(w) => WorkerMoves(s, w, Idle);
  }

  lemma FeeStepInv(s: Sys, step: Step)
    requires Inv(s) && Enabled(s, step) && IsFeeStep(step)
    ensures Preserves(s, Next(s, step))
  {
    hide HedgeInv, Conserved, SoleSubmitter, HedgesOk, WorkersOk;
    match step
    case FeeClaim(f, h, leaseMs, config, fault) => FeeClaimInv(s, f, h, leaseMs, config, fault);
    case FeeQueryReply(f, found) =>
      assert FeeBound(s.feeWorkers[f], s.hedges);
      FeeQueryReturns(s.feeWorkers[f], s.hedges[s.feeWorkers[f].job.hedge], found);
      FeeMoves(s, f, AfterFeeQuery(s.feeWorkers[f].job, s.feeWorkers[f].pc.route, found));
    case FeeTradesReply(f, trades) =>
      assert FeeBound(s.feeWorkers[f], s.hedges);
      FeeTradesReturn(s.feeWorkers[f], s.hedges[s.feeWorkers[f].job.hedge], trades);
      FeeMoves(s, f, AfterTrades(s.feeWorkers[f].job, s.feeWorkers[f].pc.order, trades));
    case FeeStatement(f, fault) => FeeStatementInv(s, f, fault);
    case FeeCrash(f) => FeeMoves(s, f, FeeIdle);
  }

  lemma CanonicalInv(s: Sys, h: nat, canonical: bool)
    requires Inv(s) && h < |s.hedges|
    ensures Preserves(s, Next(s, SetCanonical(h, canonical)))
  {
    hide HedgeInv, Conserved, SoleSubmitter, HedgesOk, WorkersOk;
    var s' := Next(s, SetCanonical(h, canonical));
    HedgeAt(s.hedges, h);
    CanonicalKeeps(h, s.hedges[h], canonical);
    FeeWorkersStay(s.feeWorkers, s.hedges, h, s'.hedges[h]);
    QuietInv(s, s', h, s'.hedges[h]);
  }

  lemma InvNext(s: Sys, step: Step)
    requires Inv(s) && Enabled(s, step)
    ensures Preserves(s, Next(s, step))
  {
    hide Inv;
    if IsJobStep(step) {
      JobStepInv(s, step);
    } else if IsFeeStep(step) {
      FeeStepInv(s, step);
    } else {
      match step
      case Tick(to) => TickInv(s, to);
      case Move(token, delta) => MoveInv(s, token, delta);
      case CreateHedge(settlement) => CreateInv(s, settlement);
      case SetCanonical(h, canonical) => CanonicalInv(s, h, canonical);
      case Accept(h, id) => AcceptInv(s, h, FreshOrder(id));
      case Reject(h) => AcceptInv(s, h, Rejected);
      case Trade(h, quantity, fill) => TradeInv(s, h, quantity, fill);
      case Close(h, code) => CloseInv(s, h, code);
    }
  }

  lemma TickInv(s: Sys, to: nat)
    requires Inv(s)
    ensures Preserves(s, s.(now := to))
  {
    hide HedgesOk, WorkersOk, FeeWorkersOk;
    NoneAdvances(s.hedges);
    assert forall t: nat :: Balance(s.balances, t) == Balance(s.moved, t) + HedgeSum(s.hedges, t);
  }

  lemma ReplyInv(s: Sys, w: nat, reply: Reply<OrderReply>, code: ErrorCode)
    requires Inv(s) && IsRunning(s, w) && (s.workers[w].pc.AwaitingSubmit? || s.workers[w].pc.AwaitingCancel?)
    requires reply.Answer? ==> Honest(s.hedges[s.workers[w].job.hedge].venue, reply.value)
    requires s.workers[w].pc.AwaitingSubmit? && reply.Refusal? && !reply.error.retryable ==>
               s.hedges[s.workers[w].job.hedge].venue.Rejected?
    ensures Preserves(s, SetWorker(s, w, AfterOrder(s.workers[w], reply, code)))
  {
    hide HedgesOk, FeeWorkersOk, SoleSubmitter, Conserved, WorkerOk, Honest;
    assert WorkerBound(w, s.workers[w], s.hedges);
    SubmitReturns(w, s.workers[w], s.hedges[s.workers[w].job.hedge], reply, code);
    WorkerMoves(s, w, AfterOrder(s.workers[w], reply, code));
  }

  lemma AcceptInv(s: Sys, h: nat, venue: VenueOrder)
    requires Inv(s) && h < |s.hedges| && s.hedges[h].venue.InFlight?
    requires venue.Rejected? || (venue.Order? && venue == FreshOrder(venue.id))
    ensures Preserves(s, SetHedge(s, h, s.hedges[h].(venue := venue)))
  {
    HedgeAt(s.hedges, h);
    FreshOrderOk(s.hedges[h], h, venue);
    hide HedgeInv, Inv;
    VenueStepInv(s, h, venue);
  }

  lemma FreshOrderOk(g: Hedge, h: nat, venue: VenueOrder)
    requires HedgeInv(h, g) && g.venue.InFlight?
    requires venue.Rejected? || (venue.Order? && venue == FreshOrder(venue.id))
    ensures VenueInv(g.(venue := venue)) && TradesInv(venue, g.row.intent) && VenueAdvances(g.venue, venue)
  {
    hide LimitPrice;
  }

  lemma TradeInv(s: Sys, h: nat, quantity: nat, fill: FillFields)
    requires Inv(s) && h < |s.hedges| && TradeAllowed(s.hedges[h], quantity, fill)
    ensures var g := s.hedges[h];
            Preserves(s, SetHedge(s, h, g.(venue := Traded(g.venue, quantity, fill, g.calls[0].quantity))))
  {
    var g := s.hedges[h];
    HedgeAt(s.hedges, h);
    hide HedgeInv, Inv, VenueInv, TradesInv;
    TradeShown(h, g, quantity, fill);
    VenueStepInv(s, h, Traded(g.venue, quantity, fill, g.calls[0].quantity));
  }

  lemma TradeShown(h: nat, g: Hedge, quantity: nat, fill: FillFields)
    requires HedgeInv(h, g) && TradeAllowed(g, quantity, fill)
    ensures var venue := Traded(g.venue, quantity, fill, g.calls[0].quantity);
            VenueInv(g.(venue := venue)) && TradesInv(venue, g.row.intent) && VenueAdvances(g.venue, venue)
  {
    TradeKeepsVenue(g, quantity, fill);
    TradeKeepsTrades(h, g, quantity, fill);
    hide HedgeInv, VenueInv, TradesInv, AtOrBetter;
  }

  lemma CloseInv(s: Sys, h: nat, code: ErrorCode)
    requires Inv(s) && h < |s.hedges| && s.hedges[h].venue.Order? && s.hedges[h].venue.phase.Open?
    ensures var g := s.hedges[h];
            Preserves(s, SetHedge(s, h, g.(venue := g.venue.(phase := Closed(code)))))
  {
    HedgeAt(s.hedges, h);
    hide HedgeInv, Inv, VenueInv, TradesInv;
    CloseShown(h, s.hedges[h], code);
    VenueStepInv(s, h, s.hedges[h].venue.(phase := Closed(code)));
  }

  lemma CloseShown(h: nat, g: Hedge, code: ErrorCode)
    requires HedgeInv(h, g) && g.venue.Order? && g.venue.phase.Open?
    ensures var venue := g.venue.(phase := Closed(code));
            VenueInv(g.(venue := venue)) && TradesInv(venue, g.row.intent) && VenueAdvances(g.venue, venue)
  {
    hide AtOrBetter, LimitPrice, Quantize;
  }

  lemma InitialInv(s: Sys)
    requires Initial(s)
    ensures Inv(s)
  {
  }

  /** The invariant holds after every run, whatever the interleaving, faults and replies. */
  lemma {:induction false} RunInv(s: Sys, run: seq<Step>)
    requires Inv(s) && Legal(s, run)
    ensures Inv(After(s, run))
    decreases |run|
  {
    if run != [] {
      InvNext(s, run[0]);
      RunInv(Next(s, run[0]), run[1..]);
    }
  }

  lemma {:induction false} RunAdvances(s: Sys, run: seq<Step>)
    requires Inv(s) && Legal(s, run)
    ensures HedgesAdvance(s.hedges, After(s, run).hedges)
    decreases |run|
  {
    if run == [] {
      NoneAdvances(s.hedges);
    } else {
      InvNext(s, run[0]);
      RunAdvances(Next(s, run[0]), run[1..]);
      AdvanceChains(s.hedges, Next(s, run[0]).hedges, After(s, run).hedges);
    }
  }

  lemma AdvanceChains(a: seq<Hedge>, b: seq<Hedge>, c: seq<Hedge>)
    requires HedgesAdvance(a, b) && HedgesAdvance(b, c)
    ensures HedgesAdvance(a, c)
  {
    hide Advances;
    forall h | 0 <= h < |a| ensures Advances(a[h], c[h]) { AdvancesTransitive(a[h], b[h], c[h]); }
  }
}
