/** The in-memory hedge service (backend/src/modules/hedge/hedge.service.ts): two indexes over the intents and
    a sliding window of failures.  Clock readings are parameters that never decrease. */
module HedgeService {
  import opened HedgeRoute

  datatype Key = Key(chainId: nat, token: nat)  // the token in lower case

  datatype Intent = Intent(settlement: nat, quoteId: nat, key: Key, side: Side, amount: nat, reason: nat)

  datatype Status = Queued | Filled | Failed

  datatype Record = Record(intent: Intent, status: Status, externalOrderId: Option<nat>)

  datatype Config = Config(failurePenaltyBps: nat, maxFailurePenaltyBps: nat, failureLookbackMs: nat)

  datatype ServiceError = IntentConflict | InvalidTransition | ExternalOrderConflict

  datatype Result<+T> = Ok(value: T) | Err(error: ServiceError)

  datatype Created = Created(hedgeOrderId: nat, record: Record)

  datatype Updated = Updated(record: Option<Record>, updated: bool)

  // ---------------------------------------------------------------- the failure history and its meaning

  /** A failure report reads the clock twice: for the cutoff and for the failure time. */
  datatype Event =
    | Failure(key: Key, settlement: nat, cutoffAt: nat, failedAt: nat)
    | Cleared(settlement: nat)

  predicate InWindow(t: nat, now: nat, lookback: nat) { t + lookback >= now }

  /** One event's effect on the failure time that counts for a settlement. */
  function CountStep(before: Option<nat>, event: Event, key: Key, settlement: nat, lookback: nat): Option<nat> {
    match event
    case Cleared(s) => if s == settlement then None else before
    case Failure(k, s, cutoffAt, failedAt) =>
      if k != key || s != settlement then before
      else if before.Some? && InWindow(before.value, cutoffAt, lookback) then before
      else Some(failedAt)
  }

  /** The failure time that counts for a settlement: the first report, renewed only after it has left the
      window or was cleared. */
  function Counted(history: seq<Event>, key: Key, settlement: nat, lookback: nat): Option<nat> {
    if history == [] then None
    else CountStep(Counted(history[..|history| - 1], key, settlement, lookback), history[|history| - 1],
                   key, settlement, lookback)
  }

  lemma CountedSnoc(history: seq<Event>, event: Event, key: Key, settlement: nat, lookback: nat)
    ensures Counted(history + [event], key, settlement, lookback) ==
            CountStep(Counted(history, key, settlement, lookback), event, key, settlement, lookback)
  {
    assert (history + [event])[..|history|] == history;
  }

  /** The time of the latest report since the last removal. */
  function Latest(history: seq<Event>, key: Key, settlement: nat): Option<nat> {
    if history == [] then None
    else
      var before := Latest(history[..|history| - 1], key, settlement);
      match history[|history| - 1]
      case Cleared(s) => if s == settlement then None else before
      case Failure(k, s, _, failedAt) => if k == key && s == settlement then Some(failedAt) else before
  }

  function Reported(history: seq<Event>): set<nat> {
    set i | 0 <= i < |history| && history[i].Failure? :: history[i].settlement
  }

  /** The settlements whose counted failure is in the window, from the full history. */
  function RecentFailures(history: seq<Event>, key: Key, now: nat, lookback: nat): set<nat> {
    set s | s in Reported(history)
            && Counted(history, key, s, lookback).Some?
            && InWindow(Counted(history, key, s, lookback).value, now, lookback)
  }

  /** The settlements with any report in the window since the last removal. */
  function AnyRecentFailures(history: seq<Event>, key: Key, now: nat, lookback: nat): set<nat> {
    set s | s in Reported(history) && Latest(history, key, s).Some? && InWindow(Latest(history, key, s).value, now, lookback)
  }

  function Penalty(failures: nat, config: Config): nat {
    var scaled := failures * config.failurePenaltyBps;
    if scaled < config.maxFailurePenaltyBps then scaled else config.maxFailurePenaltyBps
  }

  /** So many basis points for each failed settlement, up to the maximum. */
  lemma PenaltyIsCapped(failures: nat, config: Config)
    ensures var owed := failures * config.failurePenaltyBps;
            && Penalty(failures, config) <= owed && Penalty(failures, config) <= config.maxFailurePenaltyBps
            && (Penalty(failures, config) == owed || Penalty(failures, config) == config.maxFailurePenaltyBps)
    ensures Penalty(failures, config) <= Penalty(failures + 1, config)
  {
    assert (failures + 1) * config.failurePenaltyBps == failures * config.failurePenaltyBps + config.failurePenaltyBps;
  }

  lemma {:induction false} CountedIsReported(history: seq<Event>, key: Key, settlement: nat, lookback: nat)
    ensures Counted(history, key, settlement, lookback).Some? ==> settlement in Reported(history)
    ensures Latest(history, key, settlement).Some? <==> Counted(history, key, settlement, lookback).Some?
  {
    if history != [] {
      var n := |history| - 1;
      CountedIsReported(history[..n], key, settlement, lookback);
      assert forall s :: s in Reported(history[..n]) ==> s in Reported(history) by {
        forall s | s in Reported(history[..n]) ensures s in Reported(history) {
          var i :| 0 <= i < n && history[..n][i].Failure? && history[..n][i].settlement == s;
          assert history[i].Failure? && history[i].settlement == s;
        }
      }
      if history[n].Failure? { assert history[n].settlement in Reported(history); }
    }
  }

  /** Reports in clock order: each event's readings are no earlier than those before it. */
  predicate Ordered(history: seq<Event>, last: nat) {
    && (forall i :: 0 <= i < |history| && history[i].Failure? ==>
          history[i].cutoffAt <= history[i].failedAt <= last)
    && (forall i, j :: 0 <= i < j < |history| && history[i].Failure? && history[j].Failure? ==>
          history[i].failedAt <= history[j].cutoffAt)
  }

  lemma {:induction false} CountedBeforeLatest(history: seq<Event>, key: Key, settlement: nat, lookback: nat, last: nat)
    requires Ordered(history, last)
    ensures Counted(history, key, settlement, lookback).Some? ==>
              && Latest(history, key, settlement).Some?
              && Counted(history, key, settlement, lookback).value <= Latest(history, key, settlement).value <= last
  {
    if history != [] {
      var n := |history| - 1;
      var bound := if history[n].Failure? then history[n].cutoffAt else last;
      forall i | 0 <= i < n && history[..n][i].Failure?
        ensures history[..n][i].cutoffAt <= history[..n][i].failedAt <= bound
      {
        assert history[i].Failure?;
      }
      CountedBeforeLatest(history[..n], key, settlement, lookback, bound);
    }
  }

  lemma RecentAreAny(history: seq<Event>, key: Key, now: nat, lookback: nat, last: nat)
    requires Ordered(history, last)
    ensures RecentFailures(history, key, now, lookback) <= AnyRecentFailures(history, key, now, lookback)
  {
    forall s | s in RecentFailures(history, key, now, lookback)
      ensures s in AnyRecentFailures(history, key, now, lookback)
    {
      CountedBeforeLatest(history, key, s, lookback, last);
    }
  }

  /** From time last on, the penalty window agrees with counting every settlement that has failed within the
      lookback. */
  ghost predicate Agrees(history: seq<Event>, key: Key, lookback: nat, last: nat) {
    forall now: nat :: now >= last ==>
      RecentFailures(history, key, now, lookback) == AnyRecentFailures(history, key, now, lookback)
  }

  lemma AgreesWhenLatestCounts(history: seq<Event>, key: Key, lookback: nat, last: nat)
    requires Ordered(history, last)
    ensures Agrees(history, key, lookback, last)
            <==> (forall s :: s in AnyRecentFailures(history, key, last, lookback) ==>
                    Counted(history, key, s, lookback) == Latest(history, key, s))
  {
    if forall s :: s in AnyRecentFailures(history, key, last, lookback) ==>
         Counted(history, key, s, lookback) == Latest(history, key, s)
    {
      forall now: nat | now >= last
        ensures RecentFailures(history, key, now, lookback) == AnyRecentFailures(history, key, now, lookback)
      {
        RecentAreAny(history, key, now, lookback, last);
        forall s | s in AnyRecentFailures(history, key, now, lookback)
          ensures s in RecentFailures(history, key, now, lookback)
        {
          assert s in AnyRecentFailures(history, key, last, lookback);
        }
      }
    } else {
      var s :| s in AnyRecentFailures(history, key, last, lookback)
               && Counted(history, key, s, lookback) != Latest(history, key, s);
      CountedIsReported(history, key, s, lookback);
      CountedBeforeLatest(history, key, s, lookback, last);
      var expiry := Counted(history, key, s, lookback).value + lookback + 1;
      var now: nat := if expiry < last then last else expiry;
      assert s in AnyRecentFailures(history, key, now, lookback);
      assert s !in RecentFailures(history, key, now, lookback);
    }
  }

  /** The index of the latest report since the last removal. */
  function LatestReport(history: seq<Event>, key: Key, settlement: nat): (index: Option<nat>)
    ensures index.Some? ==>
              && index.value < |history| && history[index.value].Failure?
              && history[index.value].key == key && history[index.value].settlement == settlement
              && Latest(history, key, settlement) == Some(history[index.value].failedAt)
    ensures index.None? ==> Latest(history, key, settlement).None?
  {
    if history == [] then None
    else
      var before := LatestReport(history[..|history| - 1], key, settlement);
      match history[|history| - 1]
      case Cleared(s) => if s == settlement then None else before
      case Failure(k, s, _, _) => if k == key && s == settlement then Some(|history| - 1) else before
  }

  /** The report at index j changed nothing: the settlement was still among the recent failures, with another
      failure time. */
  predicate WasIgnored(history: seq<Event>, j: nat, lookback: nat)
    requires j < |history| && history[j].Failure?
  {
    var e := history[j];
    && e.settlement in RecentFailures(history[..j], e.key, e.cutoffAt, lookback)
    && Counted(history[..j], e.key, e.settlement, lookback) != Some(e.failedAt)
  }

  lemma {:induction false} LatestCountsUnlessIgnored(history: seq<Event>, key: Key, settlement: nat, lookback: nat)
    requires LatestReport(history, key, settlement).Some?
    ensures Counted(history, key, settlement, lookback) == Latest(history, key, settlement)
            <==> !WasIgnored(history, LatestReport(history, key, settlement).value, lookback)
  {
    var n := |history| - 1;
    var j := LatestReport(history, key, settlement).value;
    if j == n {
      CountedIsReported(history[..n], key, settlement, lookback);
    } else {
      LatestCountsUnlessIgnored(history[..n], key, settlement, lookback);
      assert history[..n][..j] == history[..j];
    }
  }

  lemma RecentIsReported(history: seq<Event>, key: Key, settlement: nat, now: nat, lookback: nat)
    requires settlement in AnyRecentFailures(history, key, now, lookback)
    ensures LatestReport(history, key, settlement).Some?
  {
  }

  /** The penalty window agrees from time last on with counting every settlement that has failed within the
      lookback exactly when none of those settlements' latest reports was ignored, that is, arrived while an
      earlier report of the settlement was still in the window. */
  lemma WindowIsAnyFailure(history: seq<Event>, key: Key, lookback: nat, last: nat)
    requires Ordered(history, last)
    ensures Agrees(history, key, lookback, last)
            <==> (forall s :: s in AnyRecentFailures(history, key, last, lookback) ==>
                    LatestReport(history, key, s).Some?
                    && !WasIgnored(history, LatestReport(history, key, s).value, lookback))
  {
    hide Agrees, AnyRecentFailures, Latest, Counted, WasIgnored, LatestReport;
    AgreesWhenLatestCounts(history, key, lookback, last);
    forall s | s in AnyRecentFailures(history, key, last, lookback)
      ensures LatestReport(history, key, s).Some?
      ensures Counted(history, key, s, lookback) == Latest(history, key, s)
              <==> !WasIgnored(history, LatestReport(history, key, s).value, lookback)
    {
      RecentIsReported(history, key, s, last, lookback);
      LatestCountsUnlessIgnored(history, key, s, lookback);
    }
  }

  lemma LatestSnoc(history: seq<Event>, event: Event, key: Key, settlement: nat)
    ensures Latest(history + [event], key, settlement) ==
            match event
            case Cleared(s) => if s == settlement then None else Latest(history, key, settlement)
            case Failure(k, s, _, failedAt) =>
              if k == key && s == settlement then Some(failedAt) else Latest(history, key, settlement)
  {
    assert (history + [event])[..|history|] == history;
  }

  lemma ReportedGrows(history: seq<Event>, event: Event, settlement: nat)
    ensures settlement in Reported(history + [event])
            <==> settlement in Reported(history) || (event.Failure? && event.settlement == settlement)
  {
    var more := history + [event];
    if settlement in Reported(history) {
      var i :| 0 <= i < |history| && history[i].Failure? && history[i].settlement == settlement;
      assert more[i].Failure? && more[i].settlement == settlement;
    }
    if event.Failure? && event.settlement == settlement { assert more[|history|] == event; }
  }

  /** One more report keeps the agreement exactly when the settlement was not among the recent failures at its
      cutoff, or it failed at the very time that counts. */
  lemma ReportKeepsAgreement(history: seq<Event>, key: Key, settlement: nat, now: nat, later: nat, lookback: nat,
                             last: nat)
    requires Ordered(history, last) && last <= now <= later && Agrees(history, key, lookback, last)
    ensures Agrees(history + [Failure(key, settlement, now, later)], key, lookback, later)
            <==> settlement !in RecentFailures(history, key, now, lookback)
                 || Counted(history, key, settlement, lookback) == Some(later)
  {
    var event := Failure(key, settlement, now, later);
    var more := history + [event];
    OrderedSnoc(history, event, last, later);
    AgreesWhenLatestCounts(more, key, lookback, later);
    AgreesWhenLatestCounts(history, key, lookback, last);
    CountedIsReported(history, key, settlement, lookback);
    CountedSnoc(history, event, key, settlement, lookback);
    LatestSnoc(history, event, key, settlement);
    ReportedGrows(history, event, settlement);
    assert settlement in AnyRecentFailures(more, key, later, lookback);
    forall s | s != settlement && s in AnyRecentFailures(more, key, later, lookback)
      ensures Counted(more, key, s, lookback) == Latest(more, key, s)
    {
      CountedSnoc(history, event, key, s, lookback);
      LatestSnoc(history, event, key, s);
      ReportedGrows(history, event, s);
      assert s in AnyRecentFailures(history, key, last, lookback);
    }
  }

  /** A removal keeps the agreement. */
  lemma RemovalKeepsAgreement(history: seq<Event>, key: Key, settlement: nat, lookback: nat, last: nat)
    requires Ordered(history, last) && Agrees(history, key, lookback, last)
    ensures Agrees(history + [Cleared(settlement)], key, lookback, last)
  {
    var event := Cleared(settlement);
    var more := history + [event];
    OrderedSnoc(history, event, last, last);
    AgreesWhenLatestCounts(more, key, lookback, last);
    AgreesWhenLatestCounts(history, key, lookback, last);
    forall s | s in AnyRecentFailures(more, key, last, lookback)
      ensures Counted(more, key, s, lookback) == Latest(more, key, s)
    {
      CountedSnoc(history, event, key, s, lookback);
      LatestSnoc(history, event, key, s);
      ReportedGrows(history, event, s);
      assert s in AnyRecentFailures(history, key, last, lookback);
    }
  }

  /** A failure reported again just before the first report expires is forgotten one tick later, although it
      happened within the lookback. */
  lemma RepeatedReportForgotten(key: Key, settlement: nat, lookback: nat)
    requires lookback > 0
    ensures var history := [Failure(key, settlement, 0, 0), Failure(key, settlement, lookback, lookback)];
            && Ordered(history, lookback)
            && settlement in AnyRecentFailures(history, key, lookback + 1, lookback)
            && settlement !in RecentFailures(history, key, lookback + 1, lookback)
  {
    var history := [Failure(key, settlement, 0, 0), Failure(key, settlement, lookback, lookback)];
    assert history[..1] == [Failure(key, settlement, 0, 0)];
    assert history[..1][..0] == [];
    assert Counted(history[..1], key, settlement, lookback) == Some(0);
    assert Counted(history, key, settlement, lookback) == Some(0);
    assert history[1].Failure? && settlement in Reported(history);
  }

  // ---------------------------------------------------------------- the pruned maps against the history

  type FailureMaps = map<Key, map<nat, nat>>

  /** Every stored failure time is the one that counts, and only failures out of the window are missing. */
  ghost predicate Stored(events: FailureMaps, history: seq<Event>, clock: nat, lookback: nat) {
    && (forall k, s :: k in events && s in events[k] ==> Counted(history, k, s, lookback) == Some(events[k][s]))
    && (forall k, s :: CountsAt(history, k, s, clock, lookback) ==> k in events && s in events[k])
  }

  predicate CountsAt(history: seq<Event>, key: Key, settlement: nat, now: nat, lookback: nat) {
    var t := Counted(history, key, settlement, lookback);
    t.Some? && InWindow(t.value, now, lookback)
  }

  function StoredFor(events: FailureMaps, key: Key): map<nat, nat> { if key in events then events[key] else map[] }

  function WithFailures(events: FailureMaps, key: Key, failures: map<nat, nat>): FailureMaps {
    if failures == map[] then events - {key} else events[key := failures]
  }

  lemma PruneKeeps(events: FailureMaps, history: seq<Event>, clock: nat, now: nat, lookback: nat, key: Key,
                   failures: map<nat, nat>)
    requires Stored(events, history, clock, lookback) && clock <= now
    requires failures.Keys <= StoredFor(events, key).Keys
    requires forall s :: s in failures ==> failures[s] == StoredFor(events, key)[s]
    requires forall s :: s in StoredFor(events, key) ==>
               (s in failures <==> InWindow(StoredFor(events, key)[s], now, lookback))
    ensures Stored(WithFailures(events, key, failures), history, now, lookback)
    ensures failures.Keys == RecentFailures(history, key, now, lookback)
    ensures forall s :: s in failures ==> Counted(history, key, s, lookback) == Some(failures[s])
  {
    hide Counted;
    var events' := WithFailures(events, key, failures);
    forall k, s | CountsAt(history, k, s, now, lookback) ensures k in events' && s in events'[k] {
      assert CountsAt(history, k, s, clock, lookback);
      if k == key { assert s in failures; }
    }
    forall s ensures s in failures <==> s in RecentFailures(history, key, now, lookback) {
      CountedIsReported(history, key, s, lookback);
      if s in RecentFailures(history, key, now, lookback) { assert CountsAt(history, key, s, clock, lookback); }
    }
  }

  lemma RecordKeeps(events: FailureMaps, history: seq<Event>, now: nat, later: nat, lookback: nat, key: Key,
                    settlement: nat, failures: map<nat, nat>)
    requires Stored(events, history, now, lookback) && now <= later
    requires failures.Keys == RecentFailures(history, key, now, lookback)
    requires forall s :: s in failures ==> Counted(history, key, s, lookback) == Some(failures[s])
    ensures var failures' := if settlement in failures then failures else failures[settlement := later];
            Stored(events[key := failures'], history + [Failure(key, settlement, now, later)], later, lookback)
  {
    hide Counted;
    var event := Failure(key, settlement, now, later);
    var failures' := if settlement in failures then failures else failures[settlement := later];
    var events' := events[key := failures'];
    forall k, s | k in events' && s in events'[k]
      ensures Counted(history + [event], k, s, lookback) == Some(events'[k][s])
    {
      CountedSnoc(history, event, k, s, lookback);
      if k == key && s == settlement && s !in failures { CountedIsReported(history, key, s, lookback); }
    }
    forall k, s | CountsAt(history + [event], k, s, later, lookback) ensures k in events' && s in events'[k] {
      CountedSnoc(history, event, k, s, lookback);
      if k != key {
        assert CountsAt(history, k, s, now, lookback);
      } else if s != settlement {
        CountedIsReported(history, key, s, lookback);
        assert s in RecentFailures(history, key, now, lookback);
      }
    }
  }

  lemma ClearKeeps(events: FailureMaps, events': FailureMaps, history: seq<Event>, clock: nat, lookback: nat,
                   settlement: nat)
    requires Stored(events, history, clock, lookback)
    requires forall k :: k in events' <==> k in events && events[k] - {settlement} != map[]
    requires forall k :: k in events' ==> events'[k] == events[k] - {settlement}
    ensures Stored(events', history + [Cleared(settlement)], clock, lookback)
  {
    hide Counted;
    var event := Cleared(settlement);
    forall k, s | k in events' && s in events'[k]
      ensures Counted(history + [event], k, s, lookback) == Some(events'[k][s])
    {
      CountedSnoc(history, event, k, s, lookback);
    }
    forall k, s | CountsAt(history + [event], k, s, clock, lookback) ensures k in events' && s in events'[k] {
      CountedSnoc(history, event, k, s, lookback);
      assert CountsAt(history, k, s, clock, lookback);
      assert s in events[k] - {settlement};
    }
  }

  lemma OrderedSnoc(history: seq<Event>, event: Event, clock: nat, now: nat)
    requires Ordered(history, clock) && clock <= now
    requires event.Failure? ==> clock <= event.cutoffAt <= event.failedAt <= now
    ensures Ordered(history + [event], now)
  {
  }

  lemma StillOrdered(history: seq<Event>, clock: nat, now: nat)
    requires Ordered(history, clock) && clock <= now
    ensures Ordered(history, now)
  {
  }

  method WithoutExpired(stored: map<nat, nat>, now: nat, lookback: nat) returns (failures: map<nat, nat>)
    ensures failures.Keys <= stored.Keys
    ensures forall s :: s in failures ==> failures[s] == stored[s]
    ensures forall s :: s in stored ==> (s in failures <==> InWindow(stored[s], now, lookback))
    ensures forall s :: s in stored ==> (s in failures <==> now - stored[s] <= lookback)
  {
    failures := stored;
    var rest := stored.Keys;
    while rest != {}
      invariant rest <= failures.Keys <= stored.Keys
      invariant forall s :: s in failures ==> failures[s] == stored[s]
      invariant forall s :: s in stored && s !in rest ==> (s in failures <==> InWindow(stored[s], now, lookback))
      decreases |rest|
    {
      var s :| s in rest;
      if failures[s] + lookback < now { failures := failures - {s}; }
      rest := rest - {s};
    }
  }

  // ---------------------------------------------------------------- the service

  class HedgeService {
    const config: Config
    var intents: map<nat, Record>
    var hedgeOrderIdsBySettlement: map<nat, nat>
    var failureEvents: map<Key, map<nat, nat>>
    var sequence: nat
    ghost var history: seq<Event>
    ghost var clock: nat

    /** The two indexes are mutual inverses, so a settlement has at most one intent. */
    ghost predicate IndexesInverse()
      reads this
    {
      && (forall s :: s in hedgeOrderIdsBySettlement ==>
            hedgeOrderIdsBySettlement[s] in intents && intents[hedgeOrderIdsBySettlement[s]].intent.settlement == s)
      && (forall id :: id in intents ==>
            && 0 < id <= sequence
            && intents[id].intent.settlement in hedgeOrderIdsBySettlement
            && hedgeOrderIdsBySettlement[intents[id].intent.settlement] == id)
    }

    ghost predicate Valid()
      reads this
    {
      IndexesInverse() && Stored(failureEvents, history, clock, config.failureLookbackMs) && Ordered(history, clock)
    }

    constructor (config: Config)
      ensures Valid() && this.config == config
      ensures intents == map[] && hedgeOrderIdsBySettlement == map[] && history == [] && clock == 0
    {
      this.config := config;
      intents, hedgeOrderIdsBySettlement, failureEvents, sequence := map[], map[], map[], 0;
      history, clock := [], 0;
    }

    /** Repeating a request returns the stored intent; a different request for the settlement is a conflict. */
    method CreateHedgeIntent(intent: Intent) returns (result: Result<Created>)
      requires Valid()
      modifies `intents, `hedgeOrderIdsBySettlement, `sequence
      ensures Valid()
      ensures intent.settlement in old(hedgeOrderIdsBySettlement) ==>
                && intents == old(intents) && hedgeOrderIdsBySettlement == old(hedgeOrderIdsBySettlement)
                && sequence == old(sequence)
                && var id := hedgeOrderIdsBySettlement[intent.settlement];
                   result == if intents[id].intent == intent then Ok(Created(id, intents[id])) else Err(IntentConflict)
      ensures intent.settlement !in old(hedgeOrderIdsBySettlement) ==>
                && result.Ok? && result.value.hedgeOrderId !in old(intents)
                && result.value.record == Record(intent, Queued, None)
                && intents == old(intents)[result.value.hedgeOrderId := result.value.record]
                && hedgeOrderIdsBySettlement ==
                   old(hedgeOrderIdsBySettlement)[intent.settlement := result.value.hedgeOrderId]
    {
      if intent.settlement in hedgeOrderIdsBySettlement {
        var existingId := hedgeOrderIdsBySettlement[intent.settlement];
        if existingId !in intents { assert false; }
        var existing := intents[existingId];
        if existing.intent != intent { return Err(IntentConflict); }
        return Ok(Created(existingId, existing));
      }
      sequence := sequence + 1;
      var record := Record(intent, Queued, None);
      intents := intents[sequence := record];
      hedgeOrderIdsBySettlement := hedgeOrderIdsBySettlement[intent.settlement := sequence];
      result := Ok(Created(sequence, record));
    }

    method GetHedgeIntentBySettlementEvent(settlement: nat) returns (record: Option<Record>)
      requires Valid()
      ensures record.Some? <==> exists id :: id in intents && intents[id].intent.settlement == settlement
      ensures forall id :: id in intents && intents[id].intent.settlement == settlement ==> record == Some(intents[id])
    {
      if settlement !in hedgeOrderIdsBySettlement { return None; }
      var id := hedgeOrderIdsBySettlement[settlement];
      record := if id in intents then Some(intents[id]) else None;
    }

    /** Only a queued intent without an external order goes; its failures are forgotten in any case. */
    method RemoveHedgeIntentBySettlementEvent(settlement: nat) returns (record: Option<Record>, removed: bool)
      requires Valid()
      modifies this
      ensures Valid() && clock == old(clock) && history == old(history) + [Cleared(settlement)]
      ensures record.Some? <==> settlement in old(hedgeOrderIdsBySettlement)
      ensures record.Some? ==> record.value == old(intents)[old(hedgeOrderIdsBySettlement)[settlement]]
      ensures removed <==> record.Some? && record.value.status.Queued? && record.value.externalOrderId.None?
      ensures hedgeOrderIdsBySettlement == old(hedgeOrderIdsBySettlement) - if removed then {settlement} else {}
      ensures intents == old(intents) - if removed then {old(hedgeOrderIdsBySettlement)[settlement]} else {}
    {
      ClearFailureEvent(settlement);
      if settlement !in hedgeOrderIdsBySettlement { return None, false; }
      var id := hedgeOrderIdsBySettlement[settlement];
      if id !in intents { assert false; }
      var intent := intents[id];
      record := Some(intent);
      removed := intent.status.Queued? && intent.externalOrderId.None?;
      if removed {
        intents := intents - {id};
        hedgeOrderIdsBySettlement := hedgeOrderIdsBySettlement - {settlement};
      }
    }

    method ClearFailureEvent(settlement: nat)
      requires Valid()
      modifies `failureEvents, `history
      ensures Valid() && history == old(history) + [Cleared(settlement)]
    {
      hide Counted, CountsAt, RecentFailures;
      ghost var before := failureEvents;
      var keys := failureEvents.Keys;
      while keys != {}
        invariant history == old(history) && keys <= before.Keys
        invariant forall k :: k in failureEvents <==> k in before && (k in keys || before[k] - {settlement} != map[])
        invariant forall k :: k in failureEvents ==>
                    failureEvents[k] == if k in keys then before[k] else before[k] - {settlement}
        decreases |keys|
      {
        var k :| k in keys;
        var failures := failureEvents[k] - {settlement};
        if failures == map[] {
          failureEvents := failureEvents - {k};
        } else {
          failureEvents := failureEvents[k := failures];
        }
        keys := keys - {k};
      }
      ClearKeeps(before, failureEvents, history, clock, config.failureLookbackMs, settlement);
      OrderedSnoc(history, Cleared(settlement), clock, clock);
      history := history + [Cleared(settlement)];
    }

    method MarkHedgeIntentFilled(id: nat, externalOrderId: nat) returns (result: Result<Updated>)
      requires Valid()
      modifies `intents
      ensures Valid()
      ensures if id in old(intents) && old(intents)[id].status.Queued?
              then
                && intents == old(intents)[id := Record(old(intents)[id].intent, Filled, Some(externalOrderId))]
                && result == Ok(Updated(Some(intents[id]), true))
              else
                && intents == old(intents)
                && result == if id !in intents then Ok(Updated(None, false))
                             else if intents[id].status.Failed? then Err(InvalidTransition)
                             else if intents[id].externalOrderId != Some(externalOrderId) then Err(ExternalOrderConflict)
                             else Ok(Updated(Some(intents[id]), false))
    {
      if id !in intents { return Ok(Updated(None, false)); }
      var intent := intents[id];
      if intent.status.Failed? { return Err(InvalidTransition); }
      if intent.status.Filled? {
        if intent.externalOrderId != Some(externalOrderId) { return Err(ExternalOrderConflict); }
        return Ok(Updated(Some(intent), false));
      }
      intents := intents[id := intent.(status := Filled, externalOrderId := Some(externalOrderId))];
      result := Ok(Updated(Some(intents[id]), true));
    }

    method MarkHedgeIntentFailed(id: nat, now: nat, later: nat) returns (result: Result<Updated>)
      requires Valid() && clock <= now <= later
      modifies this
      ensures Valid() && hedgeOrderIdsBySettlement == old(hedgeOrderIdsBySettlement)
      ensures if id in old(intents) && old(intents)[id].status.Queued?
              then
                && intents == old(intents)[id := Record(old(intents)[id].intent, Failed, None)]
                && result == Ok(Updated(Some(intents[id]), true))
                && history == old(history) + [Failure(intents[id].intent.key, intents[id].intent.settlement, now, later)]
              else
                && intents == old(intents) && history == old(history)
                && result == if id !in intents then Ok(Updated(None, false))
                             else if intents[id].status.Filled? then Err(InvalidTransition)
                             else Ok(Updated(Some(intents[id]), false))
    {
      if id !in intents { return Ok(Updated(None, false)); }
      var intent := intents[id];
      if intent.status.Filled? { return Err(InvalidTransition); }
      if intent.status.Failed? { return Ok(Updated(Some(intent), false)); }
      intents := intents[id := intent.(status := Failed, externalOrderId := None)];
      RecordFailureEvent(intent.intent.key, intent.intent.settlement, now, later);
      result := Ok(Updated(Some(intents[id]), true));
    }

    method RecordFailureEvent(key: Key, settlement: nat, now: nat, later: nat)
      requires Valid() && clock <= now <= later
      modifies `failureEvents, `history, `clock
      ensures Valid() && clock == later
      ensures history == old(history) + [Failure(key, settlement, now, later)]
      ensures old(Agrees(history, key, config.failureLookbackMs, clock)) ==>
                (Agrees(history, key, config.failureLookbackMs, clock)
                 <==> settlement !in RecentFailures(old(history), key, now, config.failureLookbackMs)
                      || Counted(old(history), key, settlement, config.failureLookbackMs) == Some(later))
    {
      if Agrees(history, key, config.failureLookbackMs, clock) {
        ReportKeepsAgreement(history, key, settlement, now, later, config.failureLookbackMs, clock);
      }
      hide Counted, CountsAt, RecentFailures, Agrees;
      var failures := RecentFailureEvents(key, now);
      RecordKeeps(failureEvents, history, now, later, config.failureLookbackMs, key, settlement, failures);
      OrderedSnoc(history, Failure(key, settlement, now, later), now, later);
      if settlement !in failures { failures := failures[settlement := later]; }
      failureEvents := failureEvents[key := failures];
      history := history + [Failure(key, settlement, now, later)];
      clock := later;
    }

    /** Drops what has left the window and returns the rest. */
    method RecentFailureEvents(key: Key, now: nat) returns (failures: map<nat, nat>)
      requires Valid() && clock <= now
      modifies `failureEvents, `clock
      ensures Valid() && clock == now
      ensures failures.Keys == RecentFailures(history, key, now, config.failureLookbackMs)
      ensures forall s :: s in failures ==> Counted(history, key, s, config.failureLookbackMs) == Some(failures[s])
      ensures failureEvents == WithFailures(old(failureEvents), key, failures)
      ensures forall s :: s in failures <==>
                key in old(failureEvents) && s in old(failureEvents)[key]
                && now - old(failureEvents)[key][s] <= config.failureLookbackMs
    {
      failures := WithoutExpired(if key in failureEvents then failureEvents[key] else map[], now,
                                 config.failureLookbackMs);
      PruneKeeps(failureEvents, history, clock, now, config.failureLookbackMs, key, failures);
      hide Stored, Ordered, Counted, RecentFailures, InWindow;
      clock := now;
      failureEvents := if failures == map[] then failureEvents - {key} else failureEvents[key := failures];
      StillOrdered(history, old(clock), now);
    }

    method RecordHedgeFailure(intent: Intent, now: nat, later: nat)
      requires Valid() && clock <= now <= later
      modifies `failureEvents, `history, `clock
      ensures Valid() && clock == later
      ensures history == old(history) + [Failure(intent.key, intent.settlement, now, later)]
    {
      RecordFailureEvent(intent.key, intent.settlement, now, later);
    }

    /** The pruned maps give the penalty that the full history defines: so many basis points for each settlement
        among the recent failures, up to the maximum. */
    method QuoteRiskPenaltyBps(key: Key, now: nat) returns (bps: nat)
      requires Valid() && clock <= now
      modifies `failureEvents, `clock
      ensures Valid() && clock == now
      ensures bps == Penalty(|RecentFailures(history, key, now, config.failureLookbackMs)|, config)
      ensures old(Agrees(history, key, config.failureLookbackMs, clock)) ==>
                bps == Penalty(|AnyRecentFailures(history, key, now, config.failureLookbackMs)|, config)
    {
      var failures := RecentFailureEvents(key, now);
      assert |failures| == |failures.Keys|;
      var scaled := |failures| * config.failurePenaltyBps;
      bps := if scaled < config.maxFailurePenaltyBps then scaled else config.maxFailurePenaltyBps;
    }
  }
}
