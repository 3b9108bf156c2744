/** The SDK's check of PnL totals against the page of trades it came with (assertPnlSummary of
    sdk/src/client-accounting-responses.ts:40-104). */
module PnlSummary {
  import opened GroupedTotals

  datatype Trade = Trade(pnlId: nat, quoteId: nat, chainId: nat, tokenOut: nat, gross: int)

  function EntryOf(t: Trade): Entry { Entry(Key(t.chainId, t.tokenOut, 0), t.gross) }

  function Entries(trades: seq<Trade>): (entries: seq<Entry>)
    ensures |entries| == |trades| && forall i :: 0 <= i < |trades| ==> entries[i] == EntryOf(trades[i])
  {
    seq(|trades|, i requires 0 <= i < |trades| => EntryOf(trades[i]))
  }

  predicate DistinctIds(trades: seq<Trade>) {
    forall i, j :: 0 <= i < j < |trades| ==> trades[i].pnlId != trades[j].pnlId && trades[i].quoteId != trades[j].quoteId
  }

  // ---------------------------------------------------------------- the validator

  method CollectExpected(trades: seq<Trade>) returns (ok: bool, expected: map<Key, Expected>)
    ensures ok <==> DistinctIds(trades)
    ensures ok ==> Collected(Entries(trades), expected)
  {
    hide DistinctIds, Collected;
    expected := map[];
    var seenPnlIds: set<nat> := {};
    var seenQuoteIds: set<nat> := {};
    DistinctPrefix(trades, 0);
    NothingCollected();
    for n := 0 to |trades|
      invariant DistinctIds(trades[..n])
      invariant seenPnlIds == PnlIds(trades[..n]) && seenQuoteIds == QuoteIds(trades[..n])
      invariant Collected(Entries(trades)[..n], expected)
    {
      var trade := trades[n];
      DistinctSnoc(trades, n);
      if trade.pnlId in seenPnlIds || trade.quoteId in seenQuoteIds {
        DistinctPrefix(trades, n + 1);
        return false, expected;
      }
      seenPnlIds, seenQuoteIds := seenPnlIds + {trade.pnlId}, seenQuoteIds + {trade.quoteId};
      var key := Key(trade.chainId, trade.tokenOut, 0);
      var current := if key in expected then expected[key] else Expected(0, 0);
      CollectedSnoc(Entries(trades), n, expected);
      expected := expected[key := Expected(current.totalTrades + 1, current.amount + trade.gross)];
    }
    assert trades[..|trades|] == trades && Entries(trades)[..|trades|] == Entries(trades);
    ok := true;
  }

  function PnlIds(trades: seq<Trade>): set<nat> { set t | t in trades :: t.pnlId }

  function QuoteIds(trades: seq<Trade>): set<nat> { set t | t in trades :: t.quoteId }

  lemma DistinctPrefix(trades: seq<Trade>, n: nat)
    requires n <= |trades|
    ensures DistinctIds(trades) ==> DistinctIds(trades[..n])
    ensures n == 0 ==> DistinctIds(trades[..n])
  {
  }

  lemma DistinctSnoc(trades: seq<Trade>, n: nat)
    requires n < |trades| && DistinctIds(trades[..n])
    ensures DistinctIds(trades[..n + 1]) <==>
            trades[n].pnlId !in PnlIds(trades[..n]) && trades[n].quoteId !in QuoteIds(trades[..n])
    ensures PnlIds(trades[..n + 1]) == PnlIds(trades[..n]) + {trades[n].pnlId}
    ensures QuoteIds(trades[..n + 1]) == QuoteIds(trades[..n]) + {trades[n].quoteId}
  {
    var before, after := trades[..n], trades[..n + 1];
    assert after == before + [trades[n]];
    forall t ensures t in after <==> t in before || t == trades[n] {}
    if DistinctIds(after) {
      forall t | t in before ensures t.pnlId != trades[n].pnlId && t.quoteId != trades[n].quoteId {
        var i :| 0 <= i < n && before[i] == t;
        assert after[i] == t && after[n] == trades[n];
      }
    } else {
      var i, j :| 0 <= i < j < n + 1 && (after[i].pnlId == after[j].pnlId || after[i].quoteId == after[j].quoteId);
      assert before[i] in before;
    }
  }

  /** assertPnlSummary's checks of totals.  A partial page is accepted exactly when the totals dominate it; a
      full page exactly when, besides, they are its group-by. */
  method AssertTotals(totalTrades: nat, trades: seq<Trade>, totals: seq<Total>) returns (ok: bool)
    requires totalTrades <= MAX_SAFE
    ensures ok <==> Accepts(totalTrades, trades, totals)
  {
    if totalTrades < |trades| { return false; }
    var distinct, expected := CollectExpected(trades);
    if !distinct { return false; }
    ok := CheckAgainst(totalTrades, Entries(trades), totals, expected, totalTrades == |trades|);
  }

  /** Distinct trades within the global count whose totals dominate them; on a full page they are the group-by. */
  predicate Accepts(totalTrades: nat, trades: seq<Trade>, totals: seq<Total>) {
    && |trades| <= totalTrades
    && DistinctIds(trades)
    && Dominates(totalTrades, Entries(trades), totals)
    && (|trades| == totalTrades ==> IsGroupBy(Entries(trades), totals))
  }

  // ---------------------------------------------------------------- what acceptance means

  /** On a page that holds every trade, acceptance is being the sorted group-by of distinct trades: the
      separate check that the counts add up to the global count follows from it. */
  lemma FullPageExact(trades: seq<Trade>, totals: seq<Total>)
    ensures Accepts(|trades|, trades, totals) <==> DistinctIds(trades) && IsGroupBy(Entries(trades), totals)
  {
    if IsGroupBy(Entries(trades), totals) { GroupByDominates(Entries(trades), totals); }
  }

  // ---------------------------------------------------------------- in terms of the trades

  /** Gross PnL of the trades on a chain that paid out a token. */
  function GrossOf(trades: seq<Trade>, chainId: nat, token: nat): int {
    if trades == [] then 0
    else
      var last := trades[|trades| - 1];
      GrossOf(trades[..|trades| - 1], chainId, token)
      + if last.chainId == chainId && last.tokenOut == token then last.gross else 0
  }

  function NumberOf(trades: seq<Trade>, chainId: nat, token: nat): nat {
    if trades == [] then 0
    else
      var last := trades[|trades| - 1];
      NumberOf(trades[..|trades| - 1], chainId, token)
      + if last.chainId == chainId && last.tokenOut == token then 1 else 0
  }

  lemma {:induction false} EntriesOfTrades(trades: seq<Trade>, chainId: nat, token: nat)
    ensures AmountFor(Entries(trades), Key(chainId, token, 0)) == GrossOf(trades, chainId, token)
    ensures CountFor(Entries(trades), Key(chainId, token, 0)) == NumberOf(trades, chainId, token)
  {
    if trades != [] {
      var n := |trades| - 1;
      assert Entries(trades)[..n] == Entries(trades[..n]);
      EntriesOfTrades(trades[..n], chainId, token);
    }
  }

  /** A full page is accepted only with one row for each chain and token of its trades, sorted by chain and
      token, with the number of those trades and the sum of their gross PnL. */
  lemma FullPageInTrades(trades: seq<Trade>, totals: seq<Total>)
    requires Accepts(|trades|, trades, totals)
    ensures forall i :: 0 <= i < |totals| ==>
              && totals[i].key.asset == 0
              && totals[i].totalTrades == NumberOf(trades, totals[i].key.chainId, totals[i].key.token)
              && totals[i].amount == GrossOf(trades, totals[i].key.chainId, totals[i].key.token)
    ensures forall t :: t in trades ==>
              exists i :: 0 <= i < |totals| && totals[i].key.chainId == t.chainId && totals[i].key.token == t.tokenOut
    ensures forall i, j :: 0 <= i < j < |totals| ==>
              var a, b := totals[i].key, totals[j].key;
              a.chainId < b.chainId || (a.chainId == b.chainId && a.token < b.token)
  {
    var entries := Entries(trades);
    forall i | 0 <= i < |totals|
      ensures totals[i].key.asset == 0
      ensures totals[i].totalTrades == NumberOf(trades, totals[i].key.chainId, totals[i].key.token)
      ensures totals[i].amount == GrossOf(trades, totals[i].key.chainId, totals[i].key.token)
    {
      assert totals[i].key in TotalKeys(totals);
      var e :| e in entries && e.key == totals[i].key;
      EntriesOfTrades(trades, totals[i].key.chainId, totals[i].key.token);
    }
    forall t | t in trades
      ensures exists i :: 0 <= i < |totals| && totals[i].key.chainId == t.chainId && totals[i].key.token == t.tokenOut
    {
      var j :| 0 <= j < |trades| && trades[j] == t;
      assert entries[j] in entries && entries[j].key in KeysOf(entries);
      var row :| row in totals && row.key == entries[j].key;
      var i :| 0 <= i < |totals| && totals[i] == row;
    }
    forall i, j | 0 <= i < j < |totals|
      ensures var a, b := totals[i].key, totals[j].key;
              a.chainId < b.chainId || (a.chainId == b.chainId && a.token < b.token)
    {
      assert Before(totals[i].key, totals[j].key);
    }
  }

  /** On any accepted page the totals of the page's keys are at least the page's own counts and at most the
      global total. */
  lemma PageWithinTotals(totalTrades: nat, trades: seq<Trade>, totals: seq<Total>, key: Key)
    requires Accepts(totalTrades, trades, totals) && key in KeysOf(Entries(trades))
    ensures exists i :: 0 <= i < |totals| && totals[i].key == key
                        && CountFor(Entries(trades), key) <= totals[i].totalTrades <= totalTrades
  {
    GroupWithinTotals(totalTrades, Entries(trades), totals, key);
  }
}
