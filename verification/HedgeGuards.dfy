/** What the guards of the job store mean over runs: a submission was authorised on a canonical settlement, an
    order that outlives its age is cancelled, and a lease keeps every other claim away until it expires. */
module HedgeGuards {
  import opened HedgeRoute
  import opened HedgeRows
  import opened HedgeWorker
  import opened HedgePlanner
  import opened HedgeMachine
  import opened HedgeSafety
  import opened HedgeStuck

  // ---------------------------------------------------------------- a new hedge

  /** A settlement creates a hedge of its plan that is queued, due at once, free and unattempted, with nothing at
      the exchange, and moves both of its tokens. */
  lemma NewHedge(s: Sys, settlement: Settlement, token: nat)
    requires PlanHedge(settlement).Some?
    ensures Enabled(s, CreateHedge(settlement))
    ensures var s' := Next(s, CreateHedge(settlement));
            && |s'.hedges| == |s.hedges| + 1 && s'.hedges[..|s.hedges|] == s.hedges
            && var g := s'.hedges[|s.hedges|];
               && g.settlement == settlement && g.venue.NoOrder? && g.calls == [] && g.fills == []
               && Some(g.row.intent) == PlanHedge(settlement)
               && g.row.canonical && g.row.status.Queued? && g.row.lease.None? && g.row.nextAttemptAt <= s.now
               && g.row.attemptCount == 0 && g.row.route.None? && g.row.submissionAttemptedAt.None?
               && g.row.cancelRequestedAt.None? && g.row.externalOrderId.None? && g.row.venueOrderId.None?
               && g.row.filled.None? && g.row.quote.None? && g.row.lastError.None?
               && g.row.fee.NoFee? && g.row.feeLease.None? && g.row.feeAttemptCount == 0 && g.row.pnl.NoPnl?
    ensures Balance(Next(s, CreateHedge(settlement)).balances, token) == Balance(s.balances, token)
              + if token == settlement.tokenIn then settlement.amountIn as int
                else if token == settlement.tokenOut then -(settlement.amountOut as int) else 0
  {
    SettleMoves(s.balances, settlement, token);
    hide Settle;
  }

  // ---------------------------------------------------------------- submissions are authorised

  /** The columns under which worker w may be authorised to submit. */
  predicate MaySubmit(r: Row, w: nat) {
    && r.canonical
    && r.status.Queued? && r.lease.Some? && r.lease.value.owner == w
    && r.route.Some? && r.cancelRequestedAt.None?
  }

  /** The step that brings worker w before the submit call is its own committed statement, in a state in which
      the settlement is canonical and the row is queued, routed, not cancelled and leased by w. */
  lemma SubmitterMaySubmit(s: Sys, step: Step, w: nat, h: nat)
    requires Enabled(s, step) && w < |Next(s, step).workers| && AboutToSubmit(Next(s, step).workers[w], h)
    ensures w < |s.workers|
    ensures !AboutToSubmit(s.workers[w], h) ==>
              step == RunStatement(w, NoFault) && h < |s.hedges| && MaySubmit(s.hedges[h].row, w)
  {
    SubmitterOrigin(s, step, w, h);
    hide Next;
  }

  /** Step k of the run is such an authorisation. */
  ghost predicate AuthorisedAt(s: Sys, run: seq<Step>, k: nat, w: nat, h: nat)
    requires k < |run|
  {
    && Legal(s, run[..k])
    && run[k] == RunStatement(w, NoFault)
    && h < |After(s, run[..k]).hedges|
    && MaySubmit(After(s, run[..k]).hedges[h].row, w)
  }

  lemma {:induction false} SubmitterFrom(s: Sys, run: seq<Step>, w: nat, h: nat)
    requires Legal(s, run) && w < |After(s, run).workers| && AboutToSubmit(After(s, run).workers[w], h)
    ensures || (w < |s.workers| && AboutToSubmit(s.workers[w], h))
            || exists k :: 0 <= k < |run| && AuthorisedAt(s, run, k, w, h)
    decreases |run|
  {
    if run != [] {
      var t, rest := Next(s, run[0]), run[1..];
      SubmitterFrom(t, rest, w, h);
      hide Next, Enabled, MaySubmit;
      if w < |t.workers| && AboutToSubmit(t.workers[w], h) {
        SubmitterMaySubmit(s, run[0], w, h);
        if !AboutToSubmit(s.workers[w], h) { assert AuthorisedAt(s, run, 0, w, h); }
      } else {
        var k :| 0 <= k < |rest| && AuthorisedAt(t, rest, k, w, h);
        assert run[..k + 1][1..] == rest[..k];
        assert AuthorisedAt(s, run, k + 1, w, h);
      }
    }
  }

  /** Every submission of every run was authorised before, at a moment when the settlement was canonical. */
  lemma EverySubmitWasCanonical(s: Sys, run: seq<Step>, w: nat)
    requires Initial(s) && Legal(s, run) && Enabled(After(s, run), Submit(w))
    ensures exists k :: 0 <= k < |run| && AuthorisedAt(s, run, k, w, After(s, run).workers[w].job.hedge)
  {
    SubmitterFrom(s, run, w, After(s, run).workers[w].job.hedge);
  }

  // ---------------------------------------------------------------- orders over age are cancelled

  /** The columns under which worker w is to cancel: an order over the age fixed with its route, or one that a
      cancel was requested for before. */
  predicate MustCancel(r: Row, w: nat, now: nat) {
    && r.status.Queued? && r.lease.Some? && r.lease.value.owner == w
    && r.submissionAttemptedAt.Some? && r.route.Some?
    && (r.cancelRequestedAt.Some? || r.submissionAttemptedAt.value + r.route.value.maxOrderAgeMs <= now)
  }

  /** A worker that checks for cancellation goes on to cancel exactly when it must; then the request is on
      record, and otherwise the row stays as it is. */
  lemma CancelsExactlyWhenDue(s: Sys, w: nat)
    requires Enabled(s, RunStatement(w, NoFault)) && s.workers[w].Running? && s.workers[w].pc.CheckingCancel?
    ensures var h := s.workers[w].job.hedge;
            var r, s' := s.hedges[h].row, Next(s, RunStatement(w, NoFault));
            && w < |s'.workers| && s'.workers[w].Running? && s'.workers[w].job == s.workers[w].job && s'.now == s.now
            && (MustCancel(r, w, s.now) ==>
                  && s'.workers[w].pc.Canceling?
                  && Enabled(s', Cancel(w))
                  && s'.hedges == s.hedges[h := s.hedges[h].(row := r.(cancelRequestedAt :=
                                             if r.cancelRequestedAt.Some? then r.cancelRequestedAt else Some(s.now)))])
            && (!MustCancel(r, w, s.now) ==>
                  && s'.workers[w].pc == Applying(s.workers[w].pc.order, OrderPendingCode)
                  && s'.hedges == s.hedges)
  {
    hide Add;
    var h := s.workers[w].job.hedge;
    assert s.hedges[h := s.hedges[h]] == s.hedges;
  }

  /** A holder that finds an order over age still open at the exchange cancels it, whatever the report: query
      answer, observation, cancel check and cancel call, each enabled after the other. */
  lemma OverAgeIsCanceled(s: Sys, w: nat, order: OrderReply)
    requires IsRunning(s, w) && s.workers[w].pc.Querying? && order.state.OrderPending?
    requires var h := s.workers[w].job.hedge;
             && Honest(s.hedges[h].venue, order)
             && MustCancel(s.hedges[h].row, w, s.now)
    ensures var h := s.workers[w].job.hedge;
            var run := [QueryReply(w, Answer(Some(order))), RunStatement(w, NoFault), RunStatement(w, NoFault), Cancel(w)];
            && Legal(s, run)
            && h < |After(s, run).hedges|
            && After(s, run).hedges[h].calls == s.hedges[h].calls + [CancelCall]
            && After(s, run).hedges[h].row.cancelRequestedAt.Some?
            && After(s, run).now == s.now
  {
    var a := Next(s, QueryReply(w, Answer(Some(order))));
    Queried(s, w, order);
    hide Next, Enabled, Honest;
    var b := Next(a, RunStatement(w, NoFault));
    Observed(a, w);
    CancelsExactlyWhenDue(b, w);
    var c := Next(b, RunStatement(w, NoFault));
    Canceled(c, w);
    RunOfFour(s, QueryReply(w, Answer(Some(order))), RunStatement(w, NoFault), RunStatement(w, NoFault), Cancel(w));
  }

  lemma Queried(s: Sys, w: nat, order: OrderReply)
    requires IsRunning(s, w) && s.workers[w].pc.Querying?
    requires Honest(s.hedges[s.workers[w].job.hedge].venue, order)
    ensures Enabled(s, QueryReply(w, Answer(Some(order))))
    ensures var s' := Next(s, QueryReply(w, Answer(Some(order))));
            s'.workers == s.workers[w := s.workers[w].(pc := Observing(order))] && s'.hedges == s.hedges && s'.now == s.now
  {
  }

  lemma Observed(s: Sys, w: nat)
    requires IsRunning(s, w) && s.workers[w].pc.Observing? && s.workers[w].pc.order.state.OrderPending?
    requires MustCancel(s.hedges[s.workers[w].job.hedge].row, w, s.now)
    ensures Enabled(s, RunStatement(w, NoFault))
    ensures var s' := Next(s, RunStatement(w, NoFault));
            && s'.workers == s.workers[w := s.workers[w].(pc := CheckingCancel(s.workers[w].pc.order))]
            && s'.hedges == s.hedges && s'.now == s.now
  {
    hide Add;
    var h := s.workers[w].job.hedge;
    assert s.hedges[h := s.hedges[h]] == s.hedges;
  }

  lemma Canceled(s: Sys, w: nat)
    requires Enabled(s, Cancel(w))
    ensures var h, s' := s.workers[w].job.hedge, Next(s, Cancel(w));
            && h < |s'.hedges| && s'.now == s.now
            && s'.hedges[h] == s.hedges[h].(calls := s.hedges[h].calls + [CancelCall])
  {
  }

  lemma OneMore(s: Sys, a: Step, run: seq<Step>)
    requires Enabled(s, a) && Legal(Next(s, a), run)
    ensures Legal(s, [a] + run) && After(s, [a] + run) == After(Next(s, a), run)
  {
    hide Next, Enabled;
    assert ([a] + run)[1..] == run;
  }

  lemma RunOfFour(s: Sys, a: Step, b: Step, c: Step, d: Step)
    requires Enabled(s, a) && Enabled(Next(s, a), b) && Enabled(Next(Next(s, a), b), c)
    requires Enabled(Next(Next(Next(s, a), b), c), d)
    ensures Legal(s, [a, b, c, d]) && After(s, [a, b, c, d]) == Next(Next(Next(Next(s, a), b), c), d)
  {
    hide Next, Enabled;
    OneMore(Next(Next(Next(s, a), b), c), d, []);
    OneMore(Next(Next(s, a), b), c, [d] + []);
    OneMore(Next(s, a), b, [c] + ([d] + []));
    OneMore(s, a, [b] + ([c] + ([d] + [])));
    assert [a] + ([b] + ([c] + ([d] + []))) == [a, b, c, d];
  }
}
