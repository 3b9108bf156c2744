/** Paginated trade history of one order (queryOrderTrades and parseTradeResponse of
    backend/src/modules/hedge/binance-spot.adapter.ts).  The exchange is a function of the page number and the
    fromId that was asked for, so that its answers may change from one request to the next. */
module BinanceTrades {
  import opened HedgeRoute
  import opened HedgeNetPnl

  const TRADE_PAGE_SIZE: nat := 1_000
  const MAX_TRADE_PAGES: nat := 100
  const TEN_TO_96: nat :=
    1000000000000000000000000000000000000000000000000000000000000000000000000000000000000000000000000

  /** NotTrades is JSON that is not a list of entries of the right types and symbol. */
  datatype PageReply = Page(trades: seq<FillFields>) | NotTrades | HttpError(code: nat)

  datatype TradesResult =
    | Trades(trades: seq<FillFields>)
    | ResponseInvalid
    | PageLimitExceeded
    | VenueFailure(code: nat)

  type Exchange = (nat, Option<int>) -> PageReply

  /** What parseTradeResponse checks of one entry: safe ids, positive amounts of at most 60 integer digits, an
      asset name and a time that prints. */
  predicate Parses(f: FillFields, order: nat) {
    && SafeId(f.tradeId) && SafeId(f.orderId) && f.orderId == order
    && 0 < f.price < TEN_TO_78 && 0 < f.quantity < TEN_TO_96 && 0 < f.quoteQuantity < TEN_TO_78
    && f.commission < TEN_TO_96
    && AssetName(f.commissionAsset)
    && 0 < f.executedAt <= MAX_TIME_MS
  }

  predicate Increasing(trades: seq<FillFields>) {
    forall i, j :: 0 <= i < j < |trades| ==> trades[i].tradeId < trades[j].tradeId
  }

  /** Entries that parse, under strictly increasing ids. */
  predicate ValidTrades(trades: seq<FillFields>, order: nat) {
    (forall i :: 0 <= i < |trades| ==> Parses(trades[i], order)) && Increasing(trades)
  }

  method ParseTradeResponse(trades: seq<FillFields>, order: nat) returns (ok: bool)
    ensures ok <==> ValidTrades(trades, order)
  {
    var previous := 0;
    for k := 0 to |trades|
      invariant ValidTrades(trades[..k], order)
      invariant previous == if k == 0 then 0 else trades[k - 1].tradeId
    {
      var t := trades[k];
      if !Parses(t, order) || t.tradeId <= previous { return false; }
      previous := t.tradeId;
    }
    assert trades[..|trades|] == trades;
    ok := true;
  }

  lemma {:induction false} AdjacentIncrease(trades: seq<FillFields>)
    requires forall i :: 0 < i < |trades| ==> trades[i - 1].tradeId < trades[i].tradeId
    ensures Increasing(trades)
  {
    if |trades| > 1 {
      var n := |trades| - 1;
      AdjacentIncrease(trades[..n]);
      forall i | 0 <= i < n ensures trades[i].tradeId < trades[n].tradeId {
        assert i < n - 1 ==> trades[..n][i].tradeId < trades[..n][n - 1].tradeId;
        assert trades[n - 1].tradeId < trades[n].tradeId;
      }
      forall i, j | 0 <= i < j < |trades| ensures trades[i].tradeId < trades[j].tradeId {
        if j < n { assert trades[..n][i].tradeId < trades[..n][j].tradeId; }
      }
    }
  }

  /** What the entries must be, in numbers: ids of the order and safe integers that increase from each to the next,
      prices and quote amounts of at most 60 and 18 digits, base amounts and commissions of at most 60 and 36. */
  lemma ValidTradesExactly(trades: seq<FillFields>, order: nat)
    ensures ValidTrades(trades, order) <==>
              && (forall i :: 0 <= i < |trades| ==>
                    var f := trades[i];
                    && f.orderId == order && 0 < f.orderId < 0x20_0000_0000_0000 && 0 < f.tradeId < 0x20_0000_0000_0000
                    && 0 < f.price < TEN_TO_78 && 0 < f.quoteQuantity < TEN_TO_78
                    && 0 < f.quantity < TEN_TO_96 && f.commission < TEN_TO_96
                    && AssetName(f.commissionAsset)
                    && 0 < f.executedAt <= MAX_TIME_MS)
              && (forall i :: 0 < i < |trades| ==> trades[i - 1].tradeId < trades[i].tradeId)
  {
    if forall i :: 0 < i < |trades| ==> trades[i - 1].tradeId < trades[i].tradeId { AdjacentIncrease(trades); }
  }

  /** A fill is what a parsed trade becomes, once its base amount and commission fit the 78 digits of their
      columns as well. */
  lemma ParsedIsFill(f: FillFields)
    ensures ValidFill(f) <==> Parses(f, f.orderId) && f.quantity < TEN_TO_78 && f.commission < TEN_TO_78
  {
    assert TEN_TO_78 < TEN_TO_96;
  }

  // ---------------------------------------------------------------- an exchange that keeps its promise

  /** The trades at or after an id, in order. */
  function FromId(all: seq<FillFields>, fromId: Option<int>): seq<FillFields> {
    if all == [] || fromId.None? || all[0].tradeId >= fromId.value then all else FromId(all[1..], fromId)
  }

  function FirstPage(trades: seq<FillFields>): seq<FillFields> {
    if |trades| < TRADE_PAGE_SIZE then trades else trades[..TRADE_PAGE_SIZE]
  }

  /** Each request is answered with the first page of the order's trades at or after fromId. */
  ghost predicate Answers(exchange: Exchange, all: seq<FillFields>) {
    forall page, fromId :: exchange(page, fromId) == Page(FirstPage(FromId(all, fromId)))
  }

  lemma {:induction false} FromNextId(all: seq<FillFields>, k: nat)
    requires Increasing(all) && 0 < k <= |all|
    ensures FromId(all, Some(all[k - 1].tradeId + 1)) == all[k..]
  {
    if k == 1 {
      assert FromId(all[1..], Some(all[0].tradeId + 1)) == all[1..];
    } else {
      FromNextId(all[1..], k - 1);
      assert all[1..][k - 1..] == all[k..];
    }
  }

  /** The last id that a full final page would have to be continued from. */
  predicate NeedsUnsafeId(all: seq<FillFields>) {
    |all| > 0 && |all| % TRADE_PAGE_SIZE == 0 && all[|all| - 1].tradeId >= MAX_SAFE_INTEGER
  }

  /** The loop can fetch these trades: each parses, there are fewer than 100000, and the last is not both the
      end of a full page and the greatest safe id. */
  predicate Listable(all: seq<FillFields>, order: nat) {
    ValidTrades(all, order) && |all| < TRADE_PAGE_SIZE * MAX_TRADE_PAGES && !NeedsUnsafeId(all)
  }

  /** In numbers: fewer than a hundred thousand trades, and no full last page of a thousand that ends in 2^53 - 1. */
  lemma ListableExactly(all: seq<FillFields>, order: nat)
    ensures Listable(all, order) <==>
              && ValidTrades(all, order) && |all| < 100_000
              && (all != [] && |all| % 1_000 == 0 ==> all[|all| - 1].tradeId + 1 < 0x20_0000_0000_0000)
  {
  }

  /** What queryOrderTrades returns of an order's trades, once sumCexTradeQuantity has checked each fill. */
  function Listed(all: seq<FillFields>, order: nat): Option<seq<Fill>> {
    if Listable(all, order) && (forall i :: 0 <= i < |all| ==> ValidFill(all[i])) then Some(all) else None
  }

  // ---------------------------------------------------------------- the loop

  /** Whatever the exchange answers, a success carries valid trades with strictly increasing ids.  When it
      answers each page with the first 1000 trades at or after fromId, the result is all trades of the order
      once each and in order, exactly when they are listable; for entries that parse the error otherwise is
      determined too. */
  method QueryOrderTrades(exchange: Exchange, order: nat, ghost all: seq<FillFields>) returns (result: TradesResult)
    ensures result.Trades? ==> ValidTrades(result.trades, order)
    ensures Answers(exchange, all) && Increasing(all) ==>
              && (result.Trades? <==> Listable(all, order))
              && (result.Trades? ==> result.trades == all)
              && (ValidTrades(all, order) && !Listable(all, order) ==>
                    result == if |all| <= TRADE_PAGE_SIZE * MAX_TRADE_PAGES && NeedsUnsafeId(all) then ResponseInvalid
                              else PageLimitExceeded)
  {
    hide ValidTrades, Answers, NeedsUnsafeId, Increasing;
    var fills: seq<FillFields> := [];
    var fromId: Option<int> := None;
    ghost var honest := Answers(exchange, all) && Increasing(all);
    NothingValid(order);
    for pageNumber := 0 to MAX_TRADE_PAGES
      invariant ValidTrades(fills, order)
      invariant fills == [] <==> fromId.None?
      invariant fromId.Some? ==> fromId.value == fills[|fills| - 1].tradeId + 1 <= MAX_SAFE_INTEGER
      invariant honest ==> |fills| == pageNumber * TRADE_PAGE_SIZE <= |all| && fills == all[..|fills|]
    {
      var reply := exchange(pageNumber, fromId);
      if honest { HonestPage(exchange, all, pageNumber, fills, fromId); }
      if reply.HttpError? { return VenueFailure(reply.code); }
      if reply.NotTrades? { return ResponseInvalid; }
      var page := reply.trades;
      var ok := ParseTradeResponse(page, order);
      if !ok {
        if honest && ValidTrades(all, order) { ValidSlice(all, order, |fills|, |fills| + |page|); }
        return ResponseInvalid;
      }
      if fills != [] && page != [] && page[0].tradeId <= fills[|fills| - 1].tradeId { return ResponseInvalid; }
      JoinPages(fills, page, order);
      if |page| < TRADE_PAGE_SIZE {
        if honest { SafeToStop(all, order, fills, pageNumber, page); }
        return Trades(fills + page);
      }
      fills := fills + page;
      var next := page[|page| - 1].tradeId + 1;
      if next > MAX_SAFE_INTEGER {
        if honest && ValidTrades(all, order) { EndsAtLimit(all, order, |fills|, pageNumber + 1); }
        return ResponseInvalid;
      }
      fromId := Some(next);
    }
    if honest { BeyondPages(all, order, fills); }
    result := PageLimitExceeded;
  }

  /** A thousand trades that end in the greatest safe id. */
  function TradesToMaxId(order: nat): seq<FillFields> {
    seq(TRADE_PAGE_SIZE,
        k requires 0 <= k < TRADE_PAGE_SIZE =>
          FillFields(MAX_SAFE_INTEGER - TRADE_PAGE_SIZE + 1 + k, order, 1, 1, 1, 0, "BNB", 1, true, true))
  }

  lemma TradesToMaxIdParse(order: nat)
    requires SafeId(order)
    ensures ValidTrades(TradesToMaxId(order), order) && NeedsUnsafeId(TradesToMaxId(order))
  {
    assert AssetName("BNB");
  }

  /** The loop refuses them, although each parses and the exchange answers truthfully. */
  method UnsafeIdRefused(order: nat) returns (result: TradesResult)
    requires SafeId(order)
    ensures ValidTrades(TradesToMaxId(order), order)
    ensures result == ResponseInvalid
  {
    TradesToMaxIdParse(order);
    var all := TradesToMaxId(order);
    result := QueryOrderTrades((page, fromId) => Page(FirstPage(FromId(all, fromId))), order, all);
  }

  lemma NothingValid(order: nat)
    ensures ValidTrades([], order)
  {
  }

  lemma ValidSlice(all: seq<FillFields>, order: nat, from: nat, to: nat)
    requires ValidTrades(all, order) && from <= to <= |all|
    ensures ValidTrades(all[from..to], order)
  {
    var s := all[from..to];
    forall i, j | 0 <= i < j < |s| ensures s[i].tradeId < s[j].tradeId {
      assert all[from + i].tradeId < all[from + j].tradeId;
    }
  }

  /** What a truthful exchange answers after k trades: the next page, in order, all of them when it is short. */
  lemma HonestPage(exchange: Exchange, all: seq<FillFields>, pageNumber: nat, fills: seq<FillFields>,
                   fromId: Option<int>)
    requires Answers(exchange, all) && Increasing(all)
    requires |fills| <= |all| && fills == all[..|fills|]
    requires if fills == [] then fromId.None? else fromId == Some(fills[|fills| - 1].tradeId + 1)
    ensures exchange(pageNumber, fromId).Page?
    ensures var page := exchange(pageNumber, fromId).trades;
            && |page| <= TRADE_PAGE_SIZE
            && |fills| + |page| <= |all|
            && (|page| < TRADE_PAGE_SIZE ==> |fills| + |page| == |all|)
            && fills + page == all[..|fills| + |page|]
            && page == all[|fills|..|fills| + |page|]
            && (fills != [] && page != [] ==> fills[|fills| - 1].tradeId < page[0].tradeId)
  {
    var k := |fills|;
    var rest := all[k..];
    assert FromId(all, fromId) == rest by {
      if k > 0 { FromNextId(all, k); } else { assert all[0..] == all; }
    }
    var page := exchange(pageNumber, fromId).trades;
    assert exchange(pageNumber, fromId) == Page(FirstPage(FromId(all, fromId)));
    NextPage(all, k, page);
    if k > 0 && page != [] { assert all[k - 1].tradeId < all[k].tradeId; }
  }

  lemma NextPage(all: seq<FillFields>, k: nat, page: seq<FillFields>)
    requires k <= |all| && page == FirstPage(all[k..])
    ensures k + |page| <= |all| && |page| <= TRADE_PAGE_SIZE && (|page| < TRADE_PAGE_SIZE ==> k + |page| == |all|)
    ensures page == all[k..k + |page|] && all[..k] + page == all[..k + |page|]
  {
    var rest := all[k..];
    assert page == rest[..|page|];
    assert rest[..|page|] == all[k..k + |page|];
  }

  lemma JoinPages(fills: seq<FillFields>, page: seq<FillFields>, order: nat)
    requires ValidTrades(fills, order) && ValidTrades(page, order)
    requires fills != [] && page != [] ==> fills[|fills| - 1].tradeId < page[0].tradeId
    ensures ValidTrades(fills + page, order)
  {
    var both := fills + page;
    forall i, j | 0 <= i < j < |both| ensures both[i].tradeId < both[j].tradeId {
      if i < |fills| <= j {
        assert fills[i].tradeId <= fills[|fills| - 1].tradeId < page[0].tradeId <= page[j - |fills|].tradeId;
      }
    }
  }

  lemma SafeToStop(all: seq<FillFields>, order: nat, fills: seq<FillFields>, pages: nat, page: seq<FillFields>)
    requires |fills| == pages * TRADE_PAGE_SIZE && |page| < TRADE_PAGE_SIZE && pages < MAX_TRADE_PAGES
    requires all == fills + page && ValidTrades(all, order)
    requires fills != [] ==> fills[|fills| - 1].tradeId < MAX_SAFE_INTEGER
    ensures Listable(all, order)
  {
    assert |all| % TRADE_PAGE_SIZE == |page|;
  }

  lemma BeyondPages(all: seq<FillFields>, order: nat, fills: seq<FillFields>)
    requires fills != [] && |fills| <= |all| && fills == all[..|fills|]
    requires fills[|fills| - 1].tradeId < MAX_SAFE_INTEGER
    requires |fills| == TRADE_PAGE_SIZE * MAX_TRADE_PAGES
    ensures !Listable(all, order) && (|all| <= |fills| ==> !NeedsUnsafeId(all))
  {
  }

  /** No safe id lies beyond the greatest one, so the trade that carries it is the last. */
  lemma EndsAtLimit(all: seq<FillFields>, order: nat, k: nat, pages: nat)
    requires ValidTrades(all, order) && 0 < k <= |all| && k == pages * TRADE_PAGE_SIZE
    requires all[k - 1].tradeId >= MAX_SAFE_INTEGER
    ensures k == |all| && NeedsUnsafeId(all)
  {
    if k < |all| { BelowLimit(all, order, k); }
  }

  lemma BelowLimit(all: seq<FillFields>, order: nat, k: nat)
    requires ValidTrades(all, order) && 0 < k < |all|
    ensures all[k - 1].tradeId < MAX_SAFE_INTEGER
  {
    assert all[k - 1].tradeId < all[k].tradeId;
  }
}
