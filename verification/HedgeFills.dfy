/** The fill table of one hedge under completeReconciliation's batched upserts
    (backend/src/modules/hedge/postgres-hedge-fee.store.ts:176-200, 354-391, 430-442). */
module HedgeFills {
  import opened HedgeRoute
  import opened HedgeNetPnl
  import opened HedgeRows

  lemma {:induction false} UpsertFillsSplit(table: seq<Fill>, a: seq<Fill>, b: seq<Fill>)
    ensures UpsertFills(table, a + b) ==
            match UpsertFills(table, a) case None => None case Some(t) => UpsertFills(t, b)
  {
    if b == [] {
      assert a + b == a;
    } else {
      var b' := b[..|b| - 1];
      assert (a + b)[..|a + b| - 1] == a + b';
      UpsertFillsSplit(table, a, b');
    }
  }

  /** A successful upsert keeps the table distinct and earlier rows in place, and stores every given fill. */
  lemma {:induction false} UpsertFillsStores(table: seq<Fill>, fills: seq<Fill>)
    requires DistinctTrades(table)
    requires UpsertFills(table, fills).Some?
    ensures var t := UpsertFills(table, fills).value;
            && DistinctTrades(t)
            && table <= t
            && (forall f :: f in fills ==> f in t)
            && (forall f :: f in t ==> f in table || f in fills)
  {
    if fills != [] {
      var last, before := fills[|fills| - 1], fills[..|fills| - 1];
      UpsertFillsStores(table, before);
      var t := UpsertFills(table, before).value;
      var k := IndexOfTrade(t, last.tradeId);
      assert forall f :: f in fills <==> f in before || f == last;
      if k == |t| { assert forall f :: f in t + [last] <==> f in t || f == last; }
    }
  }

  lemma {:induction false} UpsertFillsRepeats(table: seq<Fill>, fills: seq<Fill>)
    requires DistinctTrades(table)
    requires forall f :: f in fills ==> f in table
    ensures UpsertFills(table, fills) == Some(table)
  {
    if fills != [] {
      var last, before := fills[|fills| - 1], fills[..|fills| - 1];
      assert forall f :: f in before ==> f in fills;
      UpsertFillsRepeats(table, before);
      assert last in table;
      var j :| 0 <= j < |table| && table[j] == last;
      var k := IndexOfTrade(table, last.tradeId);
      assert k == j;
    }
  }

  function TradeIds(s: seq<Fill>): set<nat> { set k | 0 <= k < |s| :: s[k].tradeId }

  lemma {:induction false} TradeIdsCount(s: seq<Fill>)
    requires DistinctTrades(s)
    ensures |TradeIds(s)| == |s|
  {
    if s != [] {
      var before, last := s[..|s| - 1], s[|s| - 1];
      TradeIdsCount(before);
      assert TradeIds(s) == TradeIds(before) + {last.tradeId};
    }
  }

  lemma SubsetOfSameSize(a: set<nat>, b: set<nat>)
    requires a <= b && |a| == |b|
    ensures a == b
  {
    assert b == a + (b - a);
    assert |b - a| == 0;
  }

  /** What a commit has checked of the fills that it stores. */
  lemma CommitStores(r: Row, table: seq<Fill>, w: WorkerId, expected: nat, venueOrder: nat, quote: nat,
                     fills: seq<Fill>)
    requires CompleteReconciliation(r, table, w, expected, venueOrder, quote, fills).Ok?
    ensures UpsertFills(table, fills)
            == Some(CompleteReconciliation(r, table, w, expected, venueOrder, quote, fills).value.table)
    ensures |CompleteReconciliation(r, table, w, expected, venueOrder, quote, fills).value.table| == |fills|
    ensures DistinctTrades(fills)
  {
    hide SumQuantity, SumQuote, SettledPnl, UpsertFills, DistinctTrades;
  }

  /** A committed reconciliation leaves exactly the given fills in the table, whatever was stored before,
      and running its upserts again changes nothing. */
  lemma ExactFillSet(r: Row, table: seq<Fill>, w: WorkerId, expected: nat, venueOrder: nat, quote: nat,
                     fills: seq<Fill>)
    requires DistinctTrades(table)
    requires CompleteReconciliation(r, table, w, expected, venueOrder, quote, fills).Ok?
    ensures var stored := CompleteReconciliation(r, table, w, expected, venueOrder, quote, fills).value.table;
            && |stored| == |fills|
            && DistinctTrades(stored)
            && (forall f :: f in stored <==> f in fills)
            && UpsertFills(stored, fills) == Some(stored)
  {
    CommitStores(r, table, w, expected, venueOrder, quote, fills);
    hide CompleteReconciliation, UpsertFills;
    var stored := UpsertFills(table, fills).value;
    UpsertFillsStores(table, fills);
    UpsertFillsRepeats(stored, fills);
    NothingElse(stored, fills);
  }

  /** Distinct trades that include as many distinct ones hold nothing else. */
  lemma NothingElse(stored: seq<Fill>, fills: seq<Fill>)
    requires DistinctTrades(stored) && DistinctTrades(fills) && |stored| == |fills|
    requires forall f :: f in fills ==> f in stored
    ensures forall f :: f in stored ==> f in fills
  {
    TradeIdsCount(stored);
    TradeIdsCount(fills);
    forall id | id in TradeIds(fills) ensures id in TradeIds(stored) {
      var k :| 0 <= k < |fills| && fills[k].tradeId == id;
      assert fills[k] in stored;
    }
    SubsetOfSameSize(TradeIds(fills), TradeIds(stored));
    forall f | f in stored ensures f in fills {
      var j :| 0 <= j < |stored| && stored[j] == f;
      assert f.tradeId in TradeIds(stored);
      var k :| 0 <= k < |fills| && fills[k].tradeId == f.tradeId;
      assert fills[k] in stored;
    }
  }

  /** On an empty table the stored fills are the given ones, in order. */
  lemma {:induction false} UpsertIntoEmpty(fills: seq<Fill>)
    requires DistinctTrades(fills)
    ensures UpsertFills([], fills) == Some(fills)
  {
    if fills != [] {
      var before, last := fills[..|fills| - 1], fills[|fills| - 1];
      UpsertIntoEmpty(before);
      assert before + [last] == fills;
    }
  }

  /** A fill that disagrees with a stored one of the same trade is refused: nothing is overwritten. */
  lemma ConflictingFillRefused(table: seq<Fill>, fills: seq<Fill>, f: Fill, g: Fill)
    requires DistinctTrades(table)
    requires f in table && g in fills && f.tradeId == g.tradeId && f != g
    ensures UpsertFills(table, fills).None?
  {
    if UpsertFills(table, fills).Some? {
      UpsertFillsStores(table, fills);
    }
  }
}
