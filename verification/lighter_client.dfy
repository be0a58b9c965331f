/** The order-history accounting and the normalisations of the Lighter venue
    client (src/connectors/lighter-client.ts). The SDK calls (signer, order
    books, account and history queries) are replaced by the values they
    return; `parseFloat` of the API's decimal strings is taken as already done. */
module LighterConnector {
  import opened Types

  /** How JavaScript sees an order's `reduce_only` field: the boolean `true`,
      some other truthy value, or a falsy one (false, absent, 0, ""). */
  datatype JsFlag = JsTrue | JsOtherTruthy | JsFalsy

  /** One entry of the account's inactive-order history (newest first). */
  datatype LighterOrder = LighterOrder(
    side: string,
    isAsk: bool,
    reduceOnly: JsFlag,
    filledQuoteAmount: real,
    filledBaseAmount: real)

  // ---------------------------------------------------------------------------
  // groupOrdersBySide

  /** Length of the leading run of orders whose reduce_only is exactly `true`. */
  function CloseRunLength(orders: seq<LighterOrder>): (n: nat)
    ensures n <= |orders|
    ensures forall i :: 0 <= i < n ==> orders[i].reduceOnly == JsTrue
    ensures n < |orders| ==> orders[n].reduceOnly != JsTrue
  {
    if orders == [] || orders[0].reduceOnly != JsTrue then 0
    else 1 + CloseRunLength(orders[1..])
  }

  /** Length of the leading run of orders whose reduce_only is falsy. */
  function FalsyRunLength(orders: seq<LighterOrder>): (n: nat)
    ensures n <= |orders|
    ensures forall i :: 0 <= i < n ==> orders[i].reduceOnly == JsFalsy
    ensures n < |orders| ==> orders[n].reduceOnly != JsFalsy
  {
    if orders == [] || orders[0].reduceOnly != JsFalsy then 0
    else 1 + FalsyRunLength(orders[1..])
  }

  /** The close group: the maximal leading run of reduce_only === true orders. */
  function CloseGroup(orders: seq<LighterOrder>): seq<LighterOrder>
  {
    orders[..CloseRunLength(orders)]
  }

  /** Length of the open group: the first order after the close run (whatever
      its flag, since the first phase tests `=== true`) plus the falsy run
      after it (the second phase tests truthiness). */
  function OpenGroupLength(orders: seq<LighterOrder>): (n: nat)
    ensures CloseRunLength(orders) + n <= |orders|
  {
    var c := CloseRunLength(orders);
    if c == |orders| then 0 else 1 + FalsyRunLength(orders[c + 1..])
  }

  function OpenGroup(orders: seq<LighterOrder>): seq<LighterOrder>
  {
    var c := CloseRunLength(orders);
    orders[c..c + OpenGroupLength(orders)]
  }

  /** groupOrdersBySide: the scan with the `foundNonReduceOnly` flag. The close
      group is the maximal leading run of `reduce_only === true` orders; the open
      group starts at the first other order and takes the falsy run after it,
      stopping at the next truthy one. */
  method GroupOrdersBySide(orders: seq<LighterOrder>) returns (openOrders: seq<LighterOrder>, closeOrders: seq<LighterOrder>)
    ensures closeOrders == CloseGroup(orders)
    ensures openOrders == OpenGroup(orders)
  {
    hide CloseRunLength, FalsyRunLength;
    closeOrders := [];
    openOrders := [];
    var foundNonReduceOnly := false;
    ghost var c := CloseRunLength(orders);
    ghost var n := OpenGroupLength(orders);
    var i := 0;
    while i < |orders|
      invariant 0 <= i <= |orders|
      invariant !foundNonReduceOnly ==> i <= c && closeOrders == orders[..i] && openOrders == []
      invariant foundNonReduceOnly ==> c < i <= c + n && closeOrders == orders[..c] && openOrders == orders[c..i]
    {
      var order := orders[i];
      if !foundNonReduceOnly {
        if order.reduceOnly == JsTrue {
          closeOrders := closeOrders + [order];
        } else {
          foundNonReduceOnly := true;
          openOrders := openOrders + [order];
        }
      } else {
        assert orders[c + 1..][i - c - 1] == order;
        if order.reduceOnly == JsFalsy {
          openOrders := openOrders + [order];
        } else {
          break;
        }
      }
      i := i + 1;
    }
  }

  /** The two groups, close then open, are the start of the history in its own
      order; the open group, when present, begins with an order that is not
      `reduce_only === true` and continues with falsy ones only. */
  lemma GroupsFormPrefix(orders: seq<LighterOrder>)
    ensures CloseGroup(orders) + OpenGroup(orders) == orders[..|CloseGroup(orders)| + |OpenGroup(orders)|]
    ensures forall o :: o in CloseGroup(orders) ==> o.reduceOnly == JsTrue
    ensures |OpenGroup(orders)| == 0 <==> forall o :: o in orders ==> o.reduceOnly == JsTrue
    ensures |OpenGroup(orders)| > 0 ==> OpenGroup(orders)[0].reduceOnly != JsTrue
    ensures forall i :: 0 < i < |OpenGroup(orders)| ==> OpenGroup(orders)[i].reduceOnly == JsFalsy
  {
    var c := CloseRunLength(orders);
    var n := OpenGroupLength(orders);
    if c < |orders| {
      assert orders[c] in orders;
      forall i | 0 < i < n
        ensures OpenGroup(orders)[i].reduceOnly == JsFalsy
      {
        assert OpenGroup(orders)[i] == orders[c + 1..][i - 1];
      }
    } else {
      forall o | o in orders ensures o.reduceOnly == JsTrue {
        var k :| 0 <= k < |orders| && orders[k] == o;
      }
    }
  }

  /** The open group is maximal: when the scan stops before the end of the
      history, the order it stops at is truthy, i.e. the close of an older round. */
  lemma OpenGroupMaximal(orders: seq<LighterOrder>)
    requires |OpenGroup(orders)| > 0
    requires CloseRunLength(orders) + OpenGroupLength(orders) < |orders|
    ensures orders[CloseRunLength(orders) + OpenGroupLength(orders)].reduceOnly != JsFalsy
  {
    hide CloseRunLength, FalsyRunLength;
    var c := CloseRunLength(orders);
    var f := FalsyRunLength(orders[c + 1..]);
    assert orders[c + 1 + f] == orders[c + 1..][f];
  }

  lemma {:induction false} CloseRunIgnoresOlder(orders: seq<LighterOrder>, older: seq<LighterOrder>)
    requires CloseRunLength(orders) < |orders|
    ensures CloseRunLength(orders + older) == CloseRunLength(orders)
  {
    if orders[0].reduceOnly == JsTrue {
      assert (orders + older)[1..] == orders[1..] + older;
      CloseRunIgnoresOlder(orders[1..], older);
    }
  }

  lemma {:induction false} FalsyRunIgnoresOlder(orders: seq<LighterOrder>, older: seq<LighterOrder>)
    requires FalsyRunLength(orders) < |orders|
    ensures FalsyRunLength(orders + older) == FalsyRunLength(orders)
  {
    if orders[0].reduceOnly == JsFalsy {
      assert (orders + older)[1..] == orders[1..] + older;
      FalsyRunIgnoresOlder(orders[1..], older);
    }
  }

  lemma RunLengthsIgnoreOlder(orders: seq<LighterOrder>, older: seq<LighterOrder>)
    requires CloseRunLength(orders) + OpenGroupLength(orders) < |orders|
    ensures CloseRunLength(orders + older) == CloseRunLength(orders)
    ensures OpenGroupLength(orders + older) == OpenGroupLength(orders)
  {
    hide CloseRunLength, FalsyRunLength;
    var c := CloseRunLength(orders);
    CloseRunIgnoresOlder(orders, older);
    assert (orders + older)[c + 1..] == orders[c + 1..] + older;
    FalsyRunIgnoresOlder(orders[c + 1..], older);
  }

  /** Only the most recent pair counts: once the scan has stopped inside the
      history, any older orders behind it leave both groups unchanged. */
  lemma GroupsIgnoreOlderHistory(orders: seq<LighterOrder>, older: seq<LighterOrder>)
    requires CloseRunLength(orders) + OpenGroupLength(orders) < |orders|
    ensures CloseGroup(orders + older) == CloseGroup(orders)
    ensures OpenGroup(orders + older) == OpenGroup(orders)
  {
    hide *;
    RunLengthsIgnoreOlder(orders, older);
    GroupBounds(orders);
    GroupBounds(orders + older);
    var c, n := CloseRunLength(orders), OpenGroupLength(orders);
    SliceOfAppend(orders, older, 0, c);
    SliceOfAppend(orders, older, c, c + n);
  }

  /** The two groups as slices of the history. */
  lemma GroupBounds(orders: seq<LighterOrder>)
    ensures CloseRunLength(orders) + OpenGroupLength(orders) <= |orders|
    ensures CloseGroup(orders) == orders[..CloseRunLength(orders)]
    ensures OpenGroup(orders) == orders[CloseRunLength(orders)..CloseRunLength(orders) + OpenGroupLength(orders)]
  {
    hide CloseRunLength, FalsyRunLength;
  }

  lemma SliceOfAppend<T>(a: seq<T>, b: seq<T>, i: nat, j: nat)
    requires i <= j <= |a|
    ensures (a + b)[i..j] == a[i..j]
  {
  }

  // ---------------------------------------------------------------------------
  // calculatePrice

  function SumQuote(orders: seq<LighterOrder>): real
  {
    if orders == [] then 0.0 else SumQuote(orders[..|orders| - 1]) + orders[|orders| - 1].filledQuoteAmount
  }

  function SumBase(orders: seq<LighterOrder>): real
  {
    if orders == [] then 0.0 else SumBase(orders[..|orders| - 1]) + orders[|orders| - 1].filledBaseAmount
  }

  /** The figure calculatePrice reports for a group: the total filled quote
      amount (a notional, not an average price), and 0 unless some base
      amount was filled. */
  function GroupValue(orders: seq<LighterOrder>): real
  {
    if SumBase(orders) > 0.0 then SumQuote(orders) else 0.0
  }

  /** calculatePrice: accumulates both totals over the group in order. */
  method CalculatePrice(orders: seq<LighterOrder>) returns (r: real)
    ensures r == GroupValue(orders)
    ensures SumBase(orders) <= 0.0 ==> r == 0.0
  {
    var totalValue := 0.0;
    var totalSize := 0.0;
    var i := 0;
    while i < |orders|
      invariant 0 <= i <= |orders|
      invariant totalValue == SumQuote(orders[..i])
      invariant totalSize == SumBase(orders[..i])
    {
      assert orders[..i + 1][..i] == orders[..i];
      totalValue := totalValue + orders[i].filledQuoteAmount;
      totalSize := totalSize + orders[i].filledBaseAmount;
      i := i + 1;
    }
    assert orders[..i] == orders;
    r := if totalSize > 0.0 then totalValue else 0.0;
  }

  /** The quote total of a group split in two is the sum of the parts' totals. */
  lemma {:induction false} SumQuoteAppend(a: seq<LighterOrder>, b: seq<LighterOrder>)
    ensures SumQuote(a + b) == SumQuote(a) + SumQuote(b)
    decreases |b|
  {
    if b != [] {
      assert (a + b)[..|a + b| - 1] == a + b[..|b| - 1];
      SumQuoteAppend(a, b[..|b| - 1]);
    } else {
      assert a + b == a;
    }
  }

  // ---------------------------------------------------------------------------
  // getLastRoundPnL

  /** The open side is a buy when `side === 'buy'` or `is_ask` is false. */
  predicate IsOpenBuy(o: LighterOrder)
  {
    o.side == "buy" || !o.isAsk
  }

  /** The PnL of one open group against its close group: 0 when either group
      is empty, otherwise the sign rule on the two group values. */
  function PairPnL(openOrders: seq<LighterOrder>, closeOrders: seq<LighterOrder>): real
  {
    if |openOrders| == 0 || |closeOrders| == 0 then 0.0
    else
      var openTotal, closeTotal := GroupValue(openOrders), GroupValue(closeOrders);
      if IsOpenBuy(openOrders[0]) then closeTotal - openTotal else openTotal - closeTotal
  }

  /** The PnL of the most recent round in a newest-first history. */
  function LastRoundPnL(orders: seq<LighterOrder>): (pnl: real)
    ensures |orders| < 2 ==> pnl == 0.0
    ensures |OpenGroup(orders)| == 0 || |CloseGroup(orders)| == 0 ==> pnl == 0.0
  {
    if |orders| < 2 then 0.0 else PairPnL(OpenGroup(orders), CloseGroup(orders))
  }

  /** The sign rule: a bought-then-sold round earns close minus open, a
      sold-then-bought round earns open minus close; flipping the open
      direction flips the sign of the PnL. */
  lemma LastRoundPnLSign(orders: seq<LighterOrder>)
    requires |orders| >= 2 && |OpenGroup(orders)| > 0 && |CloseGroup(orders)| > 0
    ensures IsOpenBuy(OpenGroup(orders)[0]) ==>
              LastRoundPnL(orders) == GroupValue(CloseGroup(orders)) - GroupValue(OpenGroup(orders))
    ensures !IsOpenBuy(OpenGroup(orders)[0]) ==>
              LastRoundPnL(orders) == GroupValue(OpenGroup(orders)) - GroupValue(CloseGroup(orders))
  {
  }

  /** The round's PnL depends only on the most recent round: orders older than
      the point where the scan stops do not change it. */
  lemma LastRoundPnLIgnoresOlderHistory(orders: seq<LighterOrder>, older: seq<LighterOrder>)
    requires CloseRunLength(orders) + OpenGroupLength(orders) < |orders|
    ensures LastRoundPnL(orders + older) == LastRoundPnL(orders)
  {
    GroupsIgnoreOlderHistory(orders, older);
    assert |orders| >= 2;
  }

  /** A worked example: a reduce-only sell that filled 0.1 for 105 followed by
      the opening buy that filled 0.1 for 100 earns +5. */
  lemma OpenBuyExample()
    ensures LastRoundPnL([LighterOrder("", true, JsTrue, 105.0, 0.1),
                          LighterOrder("", false, JsFalsy, 100.0, 0.1)]) == 5.0
  {
    var orders := [LighterOrder("", true, JsTrue, 105.0, 0.1),
                   LighterOrder("", false, JsFalsy, 100.0, 0.1)];
    assert CloseRunLength(orders[1..]) == 0;
    assert CloseRunLength(orders) == 1;
    assert FalsyRunLength(orders[2..]) == 0;
    assert CloseGroup(orders) == orders[..1];
    assert OpenGroup(orders) == orders[1..2];
  }

  /** getLastRoundPnL: `fetched` is the history query's answer; a failed query
      (None) yields an empty history, as getAccountOrders returns []. */
  method GetLastRoundPnL(fetched: Option<seq<LighterOrder>>) returns (pnl: real)
    ensures fetched.None? ==> pnl == 0.0
    ensures fetched.Some? ==> pnl == LastRoundPnL(fetched.value)
  {
    var orders := if fetched.Some? then fetched.value else [];
    if |orders| < 2 {
      return 0.0;
    }
    var openOrders, closeOrders := GroupOrdersBySide(orders);
    if |openOrders| == 0 || |closeOrders| == 0 {
      return 0.0;
    }
    var openTotalPrice := CalculatePrice(openOrders);
    var closeTotalPrice := CalculatePrice(closeOrders);
    var isOpenBuy := openOrders[0].side == "buy" || !openOrders[0].isAsk;
    pnl := if isOpenBuy then closeTotalPrice - openTotalPrice else openTotalPrice - closeTotalPrice;
  }

  // ---------------------------------------------------------------------------
  // getPosition

  /** One entry of account.positions: `position` is the unsigned size and
      `sign` the direction field (1 long, -1 short; 0 stands for absent). */
  datatype PositionRecord = PositionRecord(marketId: int, position: real, sign: int)

  /** The answer of the account query. */
  datatype AccountQuery = QueryFailed | NoAccount | Account(positions: seq<PositionRecord>)

  /** `positions.find(p => p.market_id === marketIndex)`. */
  function FindPosition(positions: seq<PositionRecord>, marketIndex: Option<int>): (r: Option<nat>)
    ensures r.Some? ==> r.value < |positions| && marketIndex == Some(positions[r.value].marketId)
    ensures r.Some? ==> forall j :: 0 <= j < r.value ==> marketIndex != Some(positions[j].marketId)
    ensures r.None? ==> forall j :: 0 <= j < |positions| ==> marketIndex != Some(positions[j].marketId)
  {
    if positions == [] then None
    else if marketIndex == Some(positions[0].marketId) then Some(0)
    else match FindPosition(positions[1..], marketIndex)
      case None => None
      case Some(k) => Some(k + 1)
  }

  /** getPosition: `size * (sign || 1)` of the first record of the client's
      market, and 0 when the query failed, there is no account or no record. */
  function GetPosition(query: AccountQuery, marketIndex: Option<int>): (r: real)
    ensures query.QueryFailed? || query.NoAccount? ==> r == 0.0
    ensures query.Account? && FindPosition(query.positions, marketIndex).None? ==> r == 0.0
    ensures query.Account? && FindPosition(query.positions, marketIndex).Some? ==>
              var p := query.positions[FindPosition(query.positions, marketIndex).value];
              (p.sign == 1 || p.sign == 0 ==> r == p.position) && (p.sign == -1 ==> r == -p.position)
  {
    match query
    case QueryFailed => 0.0
    case NoAccount => 0.0
    case Account(positions) =>
      match FindPosition(positions, marketIndex)
      case None => 0.0
      case Some(k) =>
        var sign := if positions[k].sign == 0 then 1 else positions[k].sign;
        positions[k].position * sign as real
  }

  /** With a non-negative size, the sign field alone decides the direction of
      the reported position: a short (sign -1) is never reported as long. */
  lemma PositionDirection(positions: seq<PositionRecord>, marketIndex: Option<int>)
    requires FindPosition(positions, marketIndex).Some?
    requires positions[FindPosition(positions, marketIndex).value].position >= 0.0
    ensures positions[FindPosition(positions, marketIndex).value].sign == -1 ==> GetPosition(Account(positions), marketIndex) <= 0.0
    ensures positions[FindPosition(positions, marketIndex).value].sign >= 0 ==> GetPosition(Account(positions), marketIndex) >= 0.0
  {
  }

  // ---------------------------------------------------------------------------
  // getCurrentPrice

  /** The top of the order book; a missing field reads as 0. */
  datatype BookTop = BookTop(ask: real, bid: real, lastTradePrice: real)

  datatype OrderError =
    | MarketInfoMissing
    | SizeTooSmall(baseAmount: int)
    | NoPrice
    | SignerRejected

  /** getCurrentPrice: a buy takes the ask and a sell the bid, each falling back
      to the last trade price when not positive; a price that is still not
      positive is an error. */
  function SelectPrice(isBuy: bool, book: BookTop): (r: Result<real, OrderError>)
    ensures r.Success? ==> r.value > 0.0
    ensures r.Failure? ==> r.error == NoPrice
    ensures isBuy && book.ask > 0.0 ==> r == Success(book.ask)
    ensures !isBuy && book.bid > 0.0 ==> r == Success(book.bid)
    ensures (if isBuy then book.ask else book.bid) <= 0.0 ==>
              (r.Success? <==> book.lastTradePrice > 0.0) && (r.Success? ==> r.value == book.lastTradePrice)
  {
    var price := if isBuy then (if book.ask > 0.0 then book.ask else book.lastTradePrice)
                 else (if book.bid > 0.0 then book.bid else book.lastTradePrice);
    if price > 0.0 then Success(price) else Failure(NoPrice)
  }

  // ---------------------------------------------------------------------------
  // createMarketOrder

  /** The decimals and minimum size of the client's market. */
  datatype MarketInfo = MarketInfo(sizeDecimals: nat, priceDecimals: nat, minBaseAmount: string)

  /** The request handed to the signer for a market order. */
  datatype MarketOrderRequest = MarketOrderRequest(
    marketIndex: Option<int>,
    baseAmount: int,
    maxSlippage: real,
    isAsk: bool,
    reduceOnly: bool,
    idealPrice: real)

  const MaxSlippage: real := 0.05

  function Pow10(d: nat): (p: real)
    ensures p >= 1.0
  {
    if d == 0 then 1.0 else 10.0 * Pow10(d - 1)
  }

  /** `Math.round`: the nearest integer, halves rounded up. */
  function RoundHalfUp(x: real): (n: int)
    ensures n as real <= x + 0.5 < n as real + 1.0
  {
    (x + 0.5).Floor
  }

  /** The size in the market's smallest units. */
  function BaseAmount(size: real, sizeDecimals: nat): int
  {
    RoundHalfUp(size * Pow10(sizeDecimals))
  }

  /** The size guard passes exactly when the scaled size is at least half a unit. */
  lemma SizeGuard(size: real, sizeDecimals: nat)
    ensures BaseAmount(size, sizeDecimals) >= 1 <==> size * Pow10(sizeDecimals) >= 0.5
  {
  }

  /** createMarketOrder: missing market info and a size that rounds below one
      unit are rejected before the price is read; the request carries the
      rounded size, the book price times 10000 and a 5% slippage bound. */
  function CreateMarketOrder(marketIndex: Option<int>, info: Option<MarketInfo>, isAsk: bool, size: real,
                             reduceOnly: bool, book: BookTop, signerAccepted: bool): (r: Result<MarketOrderRequest, OrderError>)
    ensures info.None? ==> r == Failure(MarketInfoMissing)
    ensures info.Some? && size * Pow10(info.value.sizeDecimals) < 0.5 ==>
              r == Failure(SizeTooSmall(BaseAmount(size, info.value.sizeDecimals)))
    ensures r.Success? <==>
              info.Some? && size * Pow10(info.value.sizeDecimals) >= 0.5 && SelectPrice(!isAsk, book).Success? && signerAccepted
    ensures r.Success? ==>
              && r.value.baseAmount == BaseAmount(size, info.value.sizeDecimals) >= 1
              && r.value.idealPrice == SelectPrice(!isAsk, book).value * 10000.0
              && r.value.maxSlippage == MaxSlippage
              && r.value.isAsk == isAsk && r.value.reduceOnly == reduceOnly
              && r.value.marketIndex == marketIndex
  {
    if info.None? then Failure(MarketInfoMissing)
    else
      var baseAmount := BaseAmount(size, info.value.sizeDecimals);
      SizeGuard(size, info.value.sizeDecimals);
      if baseAmount < 1 then Failure(SizeTooSmall(baseAmount))
      else
        match SelectPrice(!isAsk, book)
        case Failure(e) => Failure(e)
        case Success(price) =>
          if !signerAccepted then Failure(SignerRejected)
          else Success(MarketOrderRequest(marketIndex, baseAmount, MaxSlippage, isAsk, reduceOnly, price * 10000.0))
  }

  // ---------------------------------------------------------------------------
  // findMarketIndex

  /** One entry of the order-book listing. Absent numeric fields read as 0,
      an absent symbol or minimum as "". */
  datatype OrderBookEntry = OrderBookEntry(
    symbol: string,
    marketId: Option<int>,
    sizeDecimals: nat,
    priceDecimals: nat,
    minBaseAmount: string)

  datatype MarketError = MarketNotFound | MissingMarketId

  function UpperChar(ch: char): (u: char)
    ensures 'a' <= ch <= 'z' ==> u as int == ch as int - 32
    ensures !('a' <= ch <= 'z') ==> u == ch
    ensures !('a' <= u <= 'z')
  {
    if 'a' <= ch <= 'z' then (ch as int - 32) as char else ch
  }

  /** `toUpperCase`, on the ASCII letters. */
  function Upper(s: string): (u: string)
    ensures |u| == |s|
    ensures forall i :: 0 <= i < |s| ==> u[i] == UpperChar(s[i])
  {
    seq(|s|, i requires 0 <= i < |s| => UpperChar(s[i]))
  }

  /** Upper-casing twice is upper-casing once. */
  lemma UpperIdempotent(s: string)
    ensures Upper(Upper(s)) == Upper(s)
  {
    assert forall i :: 0 <= i < |s| ==> UpperChar(Upper(s)[i]) == Upper(s)[i];
  }

  /** `orderBooks.find(...)`: the first entry whose upper-cased symbol equals
      the upper-cased base symbol. */
  function FindMarket(books: seq<OrderBookEntry>, baseSymbol: string): (r: Option<nat>)
    ensures r.Some? ==> r.value < |books| && Upper(books[r.value].symbol) == Upper(baseSymbol)
    ensures r.Some? ==> forall j :: 0 <= j < r.value ==> Upper(books[j].symbol) != Upper(baseSymbol)
    ensures r.None? ==> forall j :: 0 <= j < |books| ==> Upper(books[j].symbol) != Upper(baseSymbol)
  {
    if books == [] then None
    else if Upper(books[0].symbol) == Upper(baseSymbol) then Some(0)
    else match FindMarket(books[1..], baseSymbol)
      case None => None
      case Some(k) => Some(k + 1)
  }

  /** The lookup ignores the case of the configured symbol. */
  lemma {:induction false} FindMarketCaseInsensitive(books: seq<OrderBookEntry>, a: string, b: string)
    requires Upper(a) == Upper(b)
    ensures FindMarket(books, a) == FindMarket(books, b)
  {
    if books != [] {
      FindMarketCaseInsensitive(books[1..], a, b);
    }
  }

  /** The market info saved from an entry: falsy decimals become 4 (size) and 2
      (price), a missing minimum becomes "0.001"; present values are kept. */
  function MarketInfoOf(book: OrderBookEntry): (info: MarketInfo)
    ensures info.sizeDecimals > 0 && info.priceDecimals > 0 && info.minBaseAmount != ""
    ensures book.sizeDecimals > 0 ==> info.sizeDecimals == book.sizeDecimals
    ensures book.sizeDecimals == 0 ==> info.sizeDecimals == 4
    ensures book.priceDecimals > 0 ==> info.priceDecimals == book.priceDecimals
    ensures book.priceDecimals == 0 ==> info.priceDecimals == 2
    ensures book.minBaseAmount != "" ==> info.minBaseAmount == book.minBaseAmount
    ensures book.minBaseAmount == "" ==> info.minBaseAmount == "0.001"
  {
    MarketInfo(
      if book.sizeDecimals != 0 then book.sizeDecimals else 4,
      if book.priceDecimals != 0 then book.priceDecimals else 2,
      if book.minBaseAmount != "" then book.minBaseAmount else "0.001")
  }

  /** The Lighter client's market state. */
  class LighterClient {
    const baseSymbol: string
    var marketIndex: Option<int>
    var marketInfo: Option<MarketInfo>

    constructor(baseSymbol: string)
      ensures this.baseSymbol == baseSymbol
      ensures marketIndex.None? && marketInfo.None?
    {
      this.baseSymbol := baseSymbol;
      marketIndex := None;
      marketInfo := None;
    }

    /** findMarketIndex: looks the base symbol up case-insensitively. A missing
        market throws and changes nothing; the entry's market id is stored
        before it is checked, so a missing id clears `marketIndex` and throws;
        otherwise the id and the defaulted market info are stored. */
    method FindMarketIndex(books: seq<OrderBookEntry>) returns (r: Result<int, MarketError>)
      modifies this
      ensures FindMarket(books, baseSymbol).None? ==>
                r == Failure(MarketNotFound) && marketIndex == old(marketIndex) && marketInfo == old(marketInfo)
      ensures FindMarket(books, baseSymbol).Some? ==>
                var entry := books[FindMarket(books, baseSymbol).value];
                && marketIndex == entry.marketId
                && (entry.marketId.None? ==> r == Failure(MissingMarketId) && marketInfo == old(marketInfo))
                && (entry.marketId.Some? ==> r == Success(entry.marketId.value) && marketInfo == Some(MarketInfoOf(entry)))
    {
      var found := FindMarket(books, baseSymbol);
      if found.None? {
        return Failure(MarketNotFound);
      }
      var market := books[found.value];
      marketIndex := market.marketId;
      if marketIndex.None? {
        return Failure(MissingMarketId);
      }
      marketInfo := Some(MarketInfoOf(market));
      r := Success(marketIndex.value);
    }
  }
}
