/**
 * Turning a selected signal into a futures order: the USDT balance lookup,
 * the 5% margin check, the side code and limit price, the order record and
 * the append to the trade log.
 */
module Trading {
  import opened Wrappers
  import opened Rounding
  import opened SignalEngine
  import opened Selector

  /** One asset row of the perpetual-account response. */
  datatype Asset = Asset(marginCoin: string, available: real)

  /** Top of the order book: the ask and bid prices, best first. */
  datatype Depth = Depth(asks: seq<real>, bids: seq<real>)

  datatype Order = Order(
    market: string,
    price: real,
    amount: real,
    side: int,
    leverage: int,
    positionId: int,
    openType: int,
    externalOid: string)

  datatype LogEntry = LogEntry(symbol: string, side: Side, price: real, confidence: real, timestamp: int)

  /**
   * What the outside world answers during one trade, in call order:
   * `account` is the asset list (None when the request or its parsing raised),
   * `depth` the order book (None likewise), `submitted` whether the order
   * request returned rather than raised, `clock` the decimal text of the
   * second at which the order was built, `logTime` the second written to the
   * log, and `storedLog` the trade log file (None when absent or unreadable).
   */
  datatype TradeInputs = TradeInputs(
    account: Option<seq<Asset>>,
    depth: Option<Depth>,
    submitted: bool,
    clock: string,
    logTime: int,
    storedLog: Option<seq<LogEntry>>)

  /**
   * How a trade ends: refused for too small a margin, cut short by an
   * exception that reaches the cycle's catch-all, or placed and logged.
   */
  datatype TradeOutcome =
    | InsufficientBalance(margin: real)
    | Failed
    | Placed(order: Order, entry: LogEntry)

  const MarginFraction: real := 0.05
  const MinMargin: real := 1.0
  const BuySlippage: real := 1.001
  const SellSlippage: real := 0.999
  const OrderAmount: real := 0.01
  const Leverage: int := 3
  const PositionId: int := 0
  const OpenType: int := 1

  /** The `available` amount of the first USDT asset, 0 when there is none. */
  function UsdtBalance(assets: seq<Asset>): real {
    if |assets| == 0 then 0.0
    else if assets[0].marginCoin == "USDT" then assets[0].available
    else UsdtBalance(assets[1..])
  }

  /** UsdtBalance is a first-match search: it answers from the first USDT row, or 0 when no row is USDT. */
  lemma {:induction false} UsdtBalanceFirstMatch(assets: seq<Asset>, i: int)
    requires 0 <= i <= |assets|
    requires forall j :: 0 <= j < i ==> assets[j].marginCoin != "USDT"
    ensures i < |assets| && assets[i].marginCoin == "USDT" ==> UsdtBalance(assets) == assets[i].available
    ensures i == |assets| ==> UsdtBalance(assets) == 0.0
  {
    if i > 0 {
      UsdtBalanceFirstMatch(assets[1..], i - 1);
    }
  }

  /** get_futures_balance, once the account request has answered with `assets`. */
  method FuturesBalance(assets: seq<Asset>) returns (balance: real)
    ensures balance == UsdtBalance(assets)
  {
    for i := 0 to |assets|
      invariant UsdtBalance(assets[i..]) == UsdtBalance(assets)
    {
      if assets[i].marginCoin == "USDT" {
        return assets[i].available;
      }
      assert assets[i..][1..] == assets[i + 1..];
    }
    return 0.0;
  }

  /** The margin for one trade: 5% of the balance, rounded to cents. */
  function Margin(balance: real): (m: real)
    ensures OnCentGrid(m)
    ensures balance * MarginFraction - 0.005 <= m <= balance * MarginFraction + 0.005
  {
    Round2(balance * MarginFraction)
  }

  /**
   * The balance check passes exactly from a balance of 19.9: 5% of it is
   * 0.995, which rounds up to 1.00 (99 is odd, so the tie goes to 100).
   */
  lemma MarginSufficientIff(balance: real)
    ensures Margin(balance) >= MinMargin <==> balance >= 19.9
  {
    var y := balance * MarginFraction * 100.0;
    assert Margin(balance) * 100.0 == RoundHalfEven(y) as real;
    if balance >= 19.9 {
      assert RoundHalfEven(99.5) == 100;
      RoundHalfEvenMonotone(99.5, y);
    } else {
      assert y < 99.5;
      if y.Floor == 99 {
        assert RoundHalfEven(y) == 99;
      } else {
        assert y.Floor <= 98;
      }
    }
  }

  /** The venue's side code: 3 opens a buy, 4 a sell. */
  function SideCode(side: Side): (code: int)
    ensures code == 3 <==> side == Buy
    ensures code == 4 <==> side == Sell
  {
    match side
    case Buy => 3
    case Sell => 4
  }

  /** The book price a trade crosses: the best ask for a buy, the best bid for a sell (None when that side is empty). */
  function Quote(side: Side, depth: Depth): (q: Option<real>)
    ensures side == Buy ==> (q.Some? <==> |depth.asks| > 0) && (q.Some? ==> q.value == depth.asks[0])
    ensures side == Sell ==> (q.Some? <==> |depth.bids| > 0) && (q.Some? ==> q.value == depth.bids[0])
  {
    match side
    case Buy => if |depth.asks| > 0 then Some(depth.asks[0]) else None
    case Sell => if |depth.bids| > 0 then Some(depth.bids[0]) else None
  }

  /** The quote moved by the slippage allowance, before rounding. */
  function LimitPrice(side: Side, quote: real): (p: real)
    ensures side == Buy ==> p - quote == quote * (BuySlippage - 1.0)
    ensures side == Sell ==> quote - p == quote * (1.0 - SellSlippage)
  {
    if side == Buy then quote * BuySlippage else quote * SellSlippage
  }

  /**
   * For a positive quote the limit price crosses the book: a buy bids at
   * least the ask and a sell offers at most the bid, before rounding, and
   * also after it when the quote is itself in whole cents.
   */
  lemma LimitPriceCrossesBook(side: Side, quote: real)
    requires quote >= 0.0
    ensures side == Buy ==> LimitPrice(side, quote) >= quote
    ensures side == Sell ==> LimitPrice(side, quote) <= quote
    ensures OnCentGrid(quote) && side == Buy ==> Round2(LimitPrice(side, quote)) >= quote
    ensures OnCentGrid(quote) && side == Sell ==> Round2(LimitPrice(side, quote)) <= quote
  {
    if OnCentGrid(quote) {
      Round2OnGrid(quote);
      if side == Buy {
        Round2Monotone(quote, LimitPrice(side, quote));
      } else {
        Round2Monotone(LimitPrice(side, quote), quote);
      }
    }
  }

  /**
   * The order record. Its size, leverage, position id and open type are fixed
   * and do not depend on the margin, which is only checked, never used.
   */
  function BuildOrder(symbol: string, side: Side, quote: real, clock: string): (o: Order)
    ensures o.market == symbol
    ensures o.side == SideCode(side)
    ensures o.price == Round2(LimitPrice(side, quote))
    ensures OnCentGrid(o.price) && LimitPrice(side, quote) - 0.005 <= o.price <= LimitPrice(side, quote) + 0.005
    ensures o.amount == OrderAmount && o.leverage == Leverage && o.positionId == PositionId && o.openType == OpenType
    ensures o.externalOid == "jb-" + clock
  {
    Order(symbol, Round2(LimitPrice(side, quote)), OrderAmount, SideCode(side), Leverage, PositionId, OpenType, "jb-" + clock)
  }

  /** The reference prices: an ask of 50000 gives a buy at 50050, a bid of 50000 a sell at 49950. */
  lemma OrderPriceExamples()
    ensures BuildOrder("BTCUSDT", Buy, 50000.0, "0").price == 50050.0
    ensures BuildOrder("BTCUSDT", Sell, 50000.0, "0").price == 49950.0
  {
    Round2OnGrid(50050.0);
    Round2OnGrid(49950.0);
  }

  /** The trade log as loaded: the stored entries, or none when the file is absent or unreadable. */
  function LoadLog(stored: Option<seq<LogEntry>>): (logs: seq<LogEntry>)
    ensures stored.None? ==> logs == []
    ensures stored.Some? ==> logs == stored.value
  {
    if stored.Some? then stored.value else []
  }

  /** save_trade_log: the loaded log with exactly `entry` appended; earlier entries are kept as they were. */
  method SaveTradeLog(stored: Option<seq<LogEntry>>, entry: LogEntry) returns (logs: seq<LogEntry>)
    ensures |logs| == |LoadLog(stored)| + 1
    ensures logs[..|logs| - 1] == LoadLog(stored)
    ensures logs[|logs| - 1] == entry
  {
    logs := LoadLog(stored);
    logs := logs + [entry];
  }

  /**
   * execute_trade for a selected candidate. The log comes back rewritten
   * only when the order was placed; otherwise the file is not touched.
   */
  method ExecuteTrade(signal: Best, io: TradeInputs) returns (outcome: TradeOutcome, log: Option<seq<LogEntry>>)
    requires signal.Candidate?
    ensures io.account.None? ==> outcome == Failed
    ensures io.account.Some? ==>
      var margin := Margin(UsdtBalance(io.account.value));
      (outcome.InsufficientBalance? <==> margin < MinMargin) &&
      (outcome.InsufficientBalance? ==> outcome.margin == margin)
    ensures outcome.Placed? <==>
      && io.account.Some? && Margin(UsdtBalance(io.account.value)) >= MinMargin
      && io.depth.Some? && Quote(signal.side, io.depth.value).Some?
      && io.submitted
    ensures outcome.Placed? ==>
      && outcome.order == BuildOrder(signal.symbol, signal.side, Quote(signal.side, io.depth.value).value, io.clock)
      && outcome.entry == LogEntry(signal.symbol, signal.side, outcome.order.price, signal.confidence, io.logTime)
      && log == Some(LoadLog(io.storedLog) + [outcome.entry])
    ensures !outcome.Placed? ==> log == io.storedLog
  {
    log := io.storedLog;
    if io.account.None? {
      return Failed, log;
    }
    var balance := FuturesBalance(io.account.value);
    var margin := Margin(balance);
    if margin < MinMargin {
      return InsufficientBalance(margin), log;
    }
    if io.depth.None? || Quote(signal.side, io.depth.value).None? {
      return Failed, log;
    }
    var quote := Quote(signal.side, io.depth.value).value;
    var order := BuildOrder(signal.symbol, signal.side, quote, io.clock);
    if !io.submitted {
      return Failed, log;
    }
    var entry := LogEntry(signal.symbol, signal.side, order.price, signal.confidence, io.logTime);
    var logs := SaveTradeLog(io.storedLog, entry);
    assert logs == LoadLog(io.storedLog) + [entry];
    return Placed(order, entry), Some(logs);
  }
}
