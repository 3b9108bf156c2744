/** The SDK's check of the hedge net PnL summary against the page of trades (assertHedgeNetPnlSummary of
    sdk/src/client-accounting-responses.ts:105-179). */
module HedgeNetSummary {
  import opened GroupedTotals
  import opened PnlSummary

  datatype RecordStatus =
    | Complete(valuationToken: nat, valuationAsset: nat, net: int)  // net in units of 10^-18
    | Pending
    | Unavailable

  datatype Record = Record(quoteId: nat, chainId: nat, status: RecordStatus)

  datatype Summary = Summary(
    totalTrades: nat,
    completeTrades: nat,
    pendingTrades: nat,
    unavailableTrades: nat,
    totals: seq<Total>,
    records: seq<Record>)

  /** What isNonNegativeSafeInteger checks of the counts. */
  predicate SafeCounts(s: Summary) {
    && s.totalTrades <= MAX_SAFE && s.completeTrades <= MAX_SAFE
    && s.pendingTrades <= MAX_SAFE && s.unavailableTrades <= MAX_SAFE
  }

  // ---------------------------------------------------------------- meaning

  /** Record by record, the records are those of the page's trades, and no quote appears twice. */
  predicate Aligned(trades: seq<Trade>, records: seq<Record>) {
    && |records| == |trades|
    && (forall i :: 0 <= i < |records| ==>
          records[i].quoteId == trades[i].quoteId && records[i].chainId == trades[i].chainId)
    && (forall i, j :: 0 <= i < j < |records| ==> records[i].quoteId != records[j].quoteId)
  }

  function CountComplete(records: seq<Record>): nat {
    if records == [] then 0
    else CountComplete(records[..|records| - 1]) + if records[|records| - 1].status.Complete? then 1 else 0
  }

  function CountPending(records: seq<Record>): nat {
    if records == [] then 0
    else CountPending(records[..|records| - 1]) + if records[|records| - 1].status.Pending? then 1 else 0
  }

  function CountUnavailable(records: seq<Record>): nat {
    if records == [] then 0
    else CountUnavailable(records[..|records| - 1]) + if records[|records| - 1].status.Unavailable? then 1 else 0
  }

  function EntryOfRecord(r: Record): Entry
    requires r.status.Complete?
  {
    Entry(Key(r.chainId, r.status.valuationToken, r.status.valuationAsset), r.status.net)
  }

  /** The complete records only. */
  function CompleteEntries(records: seq<Record>): seq<Entry> {
    if records == [] then []
    else
      var last := records[|records| - 1];
      CompleteEntries(records[..|records| - 1]) + if last.status.Complete? then [EntryOfRecord(last)] else []
  }

  lemma {:induction false} StatusesPartition(records: seq<Record>)
    ensures CountComplete(records) + CountPending(records) + CountUnavailable(records) == |records|
    ensures |CompleteEntries(records)| == CountComplete(records)
  {
    if records != [] { StatusesPartition(records[..|records| - 1]); }
  }

  /** What acceptance of a page means: aligned records, status counts that dominate the page's and add up to
      the global count, totals that dominate the complete records and add up to their count; on a full page the
      counts are the page's and the totals its group-by. */
  predicate Accepts(totalTrades: nat, trades: seq<Trade>, s: Summary) {
    && s.totalTrades == totalTrades
    && Aligned(trades, s.records)
    && CountComplete(s.records) <= s.completeTrades
    && CountPending(s.records) <= s.pendingTrades
    && CountUnavailable(s.records) <= s.unavailableTrades
    && s.completeTrades + s.pendingTrades + s.unavailableTrades == totalTrades
    && Dominates(s.completeTrades, CompleteEntries(s.records), s.totals)
    && (|trades| == totalTrades ==>
          && s.completeTrades == CountComplete(s.records)
          && s.pendingTrades == CountPending(s.records)
          && s.unavailableTrades == CountUnavailable(s.records)
          && IsGroupBy(CompleteEntries(s.records), s.totals))
  }

  // ---------------------------------------------------------------- the validator

  datatype Counts = Counts(complete: nat, pending: nat, unavailable: nat)

  function CountsOf(records: seq<Record>): Counts {
    Counts(CountComplete(records), CountPending(records), CountUnavailable(records))
  }

  /** The last trade with each quote id, as the Map constructor keeps it. */
  function TradeByQuote(trades: seq<Trade>): map<nat, Trade> {
    if trades == [] then map[] else TradeByQuote(trades[..|trades| - 1])[trades[|trades| - 1].quoteId := trades[|trades| - 1]]
  }

  lemma {:induction false} FoundByQuote(trades: seq<Trade>, i: nat)
    requires i < |trades|
    ensures trades[i].quoteId in TradeByQuote(trades)
    ensures (forall j :: i < j < |trades| ==> trades[j].quoteId != trades[i].quoteId) ==>
              TradeByQuote(trades)[trades[i].quoteId] == trades[i]
  {
    if i < |trades| - 1 { FoundByQuote(trades[..|trades| - 1], i); }
  }

  /** The loop over the records. */
  method CollectRecords(trades: seq<Trade>, records: seq<Record>)
    returns (ok: bool, counts: Counts, expected: map<Key, Expected>)
    requires |records| == |trades| && DistinctIds(trades)
    ensures ok <==> Aligned(trades, records)
    ensures ok ==> counts == CountsOf(records) && Collected(CompleteEntries(records), expected)
  {
    hide Collected, DistinctIds;
    var tradeByQuote := TradeByQuote(trades);
    var seen: set<nat> := {};
    counts, expected := Counts(0, 0, 0), map[];
    NothingCollected();
    for n := 0 to |records|
      invariant AlignedBelow(trades, records, n) && seen == QuoteIds(trades[..n])
      invariant counts == CountsOf(records[..n])
      invariant Collected(CompleteEntries(records[..n]), expected)
    {
      var record := records[n];
      QuoteAt(trades, n);
      if record.quoteId !in tradeByQuote || tradeByQuote[record.quoteId].chainId != record.chainId
         || record.quoteId in seen || record.quoteId != trades[n].quoteId {
        NotAligned(trades, records, n);
        return false, counts, expected;
      }
      AlignedSnoc(trades, records, n);
      seen := seen + {record.quoteId};
      assert records[..n + 1][..n] == records[..n];
      match record.status {
        case Pending =>
          NoEntry(records[..n + 1]);
          counts := counts.(pending := counts.pending + 1);
        case Unavailable =>
          NoEntry(records[..n + 1]);
          counts := counts.(unavailable := counts.unavailable + 1);
        case Complete(token, asset, net) =>
          counts := counts.(complete := counts.complete + 1);
          var key := Key(record.chainId, token, asset);
          var current := if key in expected then expected[key] else Expected(0, 0);
          EntriesSnoc(records[..n + 1], expected);
          expected := expected[key := Expected(current.totalTrades + 1, current.amount + net)];
      }
    }
    assert records[..|records|] == records;
    AllAligned(trades, records);
    ok := true;
  }

  /** The first n records match the first n trades. */
  predicate AlignedBelow(trades: seq<Trade>, records: seq<Record>, n: nat) {
    && n <= |records| == |trades|
    && (forall i :: 0 <= i < n ==> records[i].quoteId == trades[i].quoteId && records[i].chainId == trades[i].chainId)
  }

  lemma QuoteAt(trades: seq<Trade>, n: nat)
    requires DistinctIds(trades) && n < |trades|
    ensures trades[n].quoteId in TradeByQuote(trades) && TradeByQuote(trades)[trades[n].quoteId] == trades[n]
    ensures trades[n].quoteId !in QuoteIds(trades[..n])
    ensures QuoteIds(trades[..n + 1]) == QuoteIds(trades[..n]) + {trades[n].quoteId}
  {
    FoundByQuote(trades, n);
    DistinctPrefix(trades, n);
    DistinctPrefix(trades, n + 1);
    DistinctSnoc(trades, n);
  }

  lemma AlignedSnoc(trades: seq<Trade>, records: seq<Record>, n: nat)
    requires AlignedBelow(trades, records, n) && n < |records|
    requires records[n].quoteId == trades[n].quoteId && records[n].chainId == trades[n].chainId
    ensures AlignedBelow(trades, records, n + 1)
  {
  }

  lemma NotAligned(trades: seq<Trade>, records: seq<Record>, n: nat)
    requires n < |records| == |trades|
    requires !(records[n].quoteId == trades[n].quoteId && records[n].chainId == trades[n].chainId)
    ensures !Aligned(trades, records)
  {
  }

  lemma AllAligned(trades: seq<Trade>, records: seq<Record>)
    requires AlignedBelow(trades, records, |records|) && DistinctIds(trades)
    ensures Aligned(trades, records)
  {
  }

  lemma NoEntry(records: seq<Record>)
    requires records != [] && !records[|records| - 1].status.Complete?
    ensures CompleteEntries(records) == CompleteEntries(records[..|records| - 1])
  {
  }

  lemma {:induction false} EntriesSnoc(records: seq<Record>, expected: map<Key, Expected>)
    requires records != [] && records[|records| - 1].status.Complete?
    requires Collected(CompleteEntries(records[..|records| - 1]), expected)
    ensures var entry := EntryOfRecord(records[|records| - 1]);
            var current := if entry.key in expected then expected[entry.key] else Expected(0, 0);
            Collected(CompleteEntries(records),
                      expected[entry.key := Expected(current.totalTrades + 1, current.amount + entry.amount)])
  {
    var before := CompleteEntries(records[..|records| - 1]);
    var all := CompleteEntries(records);
    assert all == before + [EntryOfRecord(records[|records| - 1])];
    assert all[..|before|] == before && all[..|before| + 1] == all;
    CollectedSnoc(all, |before|, expected);
  }

  /** assertHedgeNetPnlSummary after the shape checks. */
  method AssertHedgeNetPnlSummary(totalTrades: nat, trades: seq<Trade>, s: Summary) returns (ok: bool)
    requires SafeCounts(s) && DistinctIds(trades)
    ensures ok <==> Accepts(totalTrades, trades, s)
  {
    if s.totalTrades != totalTrades || |s.records| != |trades| { return false; }
    var completePage := totalTrades == |trades|;
    var aligned, counts, expected := CollectRecords(trades, s.records);
    if !aligned { return false; }
    if s.completeTrades < counts.complete || s.pendingTrades < counts.pending || s.unavailableTrades < counts.unavailable
       || s.completeTrades + s.pendingTrades + s.unavailableTrades != totalTrades
       || (completePage && (s.completeTrades != counts.complete || s.pendingTrades != counts.pending
                            || s.unavailableTrades != counts.unavailable)) {
      return false;
    }
    ok := CheckAgainst(s.completeTrades, CompleteEntries(s.records), s.totals, expected, completePage);
  }

  // ---------------------------------------------------------------- what acceptance means

  /** On a full page acceptance is: the records of the trades, the exact status counts, and the sorted group-by
      of the complete records.  The sum checks follow. */
  lemma FullPageExact(trades: seq<Trade>, s: Summary)
    ensures Accepts(|trades|, trades, s) <==>
              && s.totalTrades == |trades|
              && Aligned(trades, s.records)
              && CountsOf(s.records) == Counts(s.completeTrades, s.pendingTrades, s.unavailableTrades)
              && IsGroupBy(CompleteEntries(s.records), s.totals)
  {
    StatusesPartition(s.records);
    if IsGroupBy(CompleteEntries(s.records), s.totals) { GroupByDominates(CompleteEntries(s.records), s.totals); }
  }

  /** The code's separate comparison of the status counts on a full page is implied by domination and the sum. */
  lemma FullPageCountsForced(trades: seq<Trade>, s: Summary)
    requires Aligned(trades, s.records)
    requires CountComplete(s.records) <= s.completeTrades && CountPending(s.records) <= s.pendingTrades
    requires CountUnavailable(s.records) <= s.unavailableTrades
    requires s.completeTrades + s.pendingTrades + s.unavailableTrades == |trades|
    ensures CountsOf(s.records) == Counts(s.completeTrades, s.pendingTrades, s.unavailableTrades)
  {
    StatusesPartition(s.records);
  }

  // ---------------------------------------------------------------- in terms of the records

  predicate ValuedIn(r: Record, key: Key) {
    r.status.Complete? && r.chainId == key.chainId && r.status.valuationToken == key.token
    && r.status.valuationAsset == key.asset
  }

  function NetOf(records: seq<Record>, key: Key): int {
    if records == [] then 0
    else
      var last := records[|records| - 1];
      NetOf(records[..|records| - 1], key) + if ValuedIn(last, key) then last.status.net else 0
  }

  function ValuedCount(records: seq<Record>, key: Key): nat {
    if records == [] then 0
    else ValuedCount(records[..|records| - 1], key) + if ValuedIn(records[|records| - 1], key) then 1 else 0
  }

  lemma {:induction false} EntriesOfRecords(records: seq<Record>, key: Key)
    ensures AmountFor(CompleteEntries(records), key) == NetOf(records, key)
    ensures CountFor(CompleteEntries(records), key) == ValuedCount(records, key)
  {
    if records != [] {
      var n := |records| - 1;
      EntriesOfRecords(records[..n], key);
      var before := CompleteEntries(records[..n]);
      if records[n].status.Complete? {
        assert CompleteEntries(records) == before + [EntryOfRecord(records[n])];
        assert CompleteEntries(records)[..|before|] == before;
      } else {
        NoEntry(records);
      }
    }
  }

  /** A full page is accepted only with one row for each chain, valuation token and asset, whose number and sum
      of net PnL are those of the page's complete records. */
  lemma FullPageInRecords(trades: seq<Trade>, s: Summary)
    requires Accepts(|trades|, trades, s)
    ensures forall i :: 0 <= i < |s.totals| ==>
              && s.totals[i].totalTrades == ValuedCount(s.records, s.totals[i].key)
              && s.totals[i].amount == NetOf(s.records, s.totals[i].key)
    ensures forall i, j :: 0 <= i < j < |s.totals| ==> s.totals[i].key != s.totals[j].key
    ensures forall key :: ValuedCount(s.records, key) > 0 ==> exists i :: 0 <= i < |s.totals| && s.totals[i].key == key
  {
    forall i | 0 <= i < |s.totals|
      ensures s.totals[i].totalTrades == ValuedCount(s.records, s.totals[i].key)
      ensures s.totals[i].amount == NetOf(s.records, s.totals[i].key)
    {
      EntriesOfRecords(s.records, s.totals[i].key);
    }
    forall i, j | 0 <= i < j < |s.totals| ensures s.totals[i].key != s.totals[j].key {
      assert Before(s.totals[i].key, s.totals[j].key);
    }
    forall key | ValuedCount(s.records, key) > 0 ensures exists i :: 0 <= i < |s.totals| && s.totals[i].key == key {
      EntriesOfRecords(s.records, key);
      if key !in KeysOf(CompleteEntries(s.records)) { AbsentKey(CompleteEntries(s.records), key); }
      var row :| row in s.totals && row.key == key;
      var i :| 0 <= i < |s.totals| && s.totals[i] == row;
    }
  }

  lemma {:induction false} CompleteNumber(records: seq<Record>)
    ensures CountComplete(records) == |set i | 0 <= i < |records| && records[i].status.Complete?|
  {
    if records != [] {
      var n := |records| - 1;
      CompleteNumber(records[..n]);
      var before := set i | 0 <= i < n && records[..n][i].status.Complete?;
      assert (set i | 0 <= i < |records| && records[i].status.Complete?)
             == before + if records[n].status.Complete? then {n} else {};
    }
  }

  lemma {:induction false} PendingNumber(records: seq<Record>)
    ensures CountPending(records) == |set i | 0 <= i < |records| && records[i].status.Pending?|
  {
    if records != [] {
      var n := |records| - 1;
      PendingNumber(records[..n]);
      var before := set i | 0 <= i < n && records[..n][i].status.Pending?;
      assert (set i | 0 <= i < |records| && records[i].status.Pending?)
             == before + if records[n].status.Pending? then {n} else {};
    }
  }

  lemma {:induction false} UnavailableNumber(records: seq<Record>)
    ensures CountUnavailable(records) == |set i | 0 <= i < |records| && records[i].status.Unavailable?|
  {
    if records != [] {
      var n := |records| - 1;
      UnavailableNumber(records[..n]);
      var before := set i | 0 <= i < n && records[..n][i].status.Unavailable?;
      assert (set i | 0 <= i < |records| && records[i].status.Unavailable?)
             == before + if records[n].status.Unavailable? then {n} else {};
    }
  }

  /** The status counts are the numbers of records in each status. */
  lemma CountsAreNumbers(records: seq<Record>)
    ensures CountsOf(records) == Counts(|set i | 0 <= i < |records| && records[i].status.Complete?|,
                                        |set i | 0 <= i < |records| && records[i].status.Pending?|,
                                        |set i | 0 <= i < |records| && records[i].status.Unavailable?|)
  {
    CompleteNumber(records);
    PendingNumber(records);
    UnavailableNumber(records);
  }

  /** On any accepted page each valued group has a total between the page's count and the global number of
      complete trades, which leaves room for the page's pending and unavailable ones. */
  lemma PageWithinTotals(totalTrades: nat, trades: seq<Trade>, s: Summary, key: Key)
    requires Accepts(totalTrades, trades, s) && key in KeysOf(CompleteEntries(s.records))
    ensures exists i :: 0 <= i < |s.totals| && s.totals[i].key == key
                        && CountFor(CompleteEntries(s.records), key) <= s.totals[i].totalTrades <= s.completeTrades
    ensures s.completeTrades + CountPending(s.records) + CountUnavailable(s.records) <= totalTrades
  {
    GroupWithinTotals(s.completeTrades, CompleteEntries(s.records), s.totals, key);
  }
}
