/**
 * One iteration of the bot's main loop: analyse the market, then trade the
 * selected candidate when its confidence reaches the threshold.
 */
module Cycle {
  import opened Wrappers
  import opened SignalEngine
  import opened Selector
  import opened Trading

  /** The confidence a candidate needs before a trade is attempted. */
  const Threshold: real := 0.9

  datatype CycleOutcome = NoSuitableTrade | Attempted(trade: TradeOutcome)

  /**
   * One cycle. `fetches` holds the candle results for the fixed universe,
   * `storedMem` the learning file (None when absent or unreadable) and `io`
   * what the trade's requests answer. Returns the selected signal, the memory
   * written back, what happened and the trade log file afterwards.
   */
  method RunCycle(fetches: seq<Fetch>, storedMem: Option<map<string, real>>, io: TradeInputs)
    returns (signal: Best, mem: map<string, real>, outcome: CycleOutcome, log: Option<seq<LogEntry>>)
    requires |fetches| == |Symbols|
    ensures ScanState(signal, mem) == Scan(Symbols, fetches, LoadMemory(storedMem))
    ensures outcome.Attempted? <==> signal.Confidence() >= Threshold
    ensures outcome.Attempted? ==> signal.Candidate?
    ensures outcome.Attempted? && io.account.None? ==> outcome.trade == Failed
    ensures outcome.Attempted? && io.account.Some? ==>
      var margin := Margin(UsdtBalance(io.account.value));
      (outcome.trade.InsufficientBalance? <==> margin < MinMargin) &&
      (outcome.trade.InsufficientBalance? ==> outcome.trade.margin == margin)
    ensures outcome.Attempted? ==>
      (outcome.trade.Placed? <==>
        && io.account.Some? && Margin(UsdtBalance(io.account.value)) >= MinMargin
        && io.depth.Some? && Quote(signal.side, io.depth.value).Some?
        && io.submitted)
    ensures outcome.Attempted? && outcome.trade.Placed? ==>
      && outcome.trade.order == BuildOrder(signal.symbol, signal.side, Quote(signal.side, io.depth.value).value, io.clock)
      && outcome.trade.entry == LogEntry(signal.symbol, signal.side, outcome.trade.order.price, signal.confidence, io.logTime)
    ensures outcome.Attempted? && outcome.trade.Placed? ==>
      var order, entry := outcome.trade.order, outcome.trade.entry;
      && order.market == entry.symbol == signal.symbol
      && order.side == SideCode(signal.side)
      && entry.side == signal.side
      && entry.price == order.price
      && entry.confidence == signal.confidence >= Threshold
      && log == Some(LoadLog(io.storedLog) + [entry])
    ensures !(outcome.Attempted? && outcome.trade.Placed?) ==> log == io.storedLog
  {
    var mem0 := LoadMemory(storedMem);
    signal, mem := AnalyzeMarket(Symbols, fetches, mem0);
    if signal.Confidence() >= Threshold {
      var trade;
      trade, log := ExecuteTrade(signal, io);
      outcome := Attempted(trade);
    } else {
      outcome, log := NoSuitableTrade, io.storedLog;
    }
  }

  lemma SymbolsAreDistinct()
    ensures Distinct(Symbols)
  {
  }

  /**
   * A quiet market: BTCUSDT closes at 99, 100, 101 (mean 100, last 101, so a
   * raw confidence of 1.0), XAUUSDT fails, both priors are 0.5. BTCUSDT moves
   * to 0.75 and is selected as a buy, XAUUSDT keeps 0.5, and 0.75 is below
   * the threshold.
   */
  lemma QuietMarketScenario()
    ensures
      var mem0 := map["BTCUSDT" := 0.5, "XAUUSDT" := 0.5];
      var st := Scan(Symbols, [Prices([99.0, 100.0, 101.0]), Failure], mem0);
      && st == ScanState(Candidate("BTCUSDT", Buy, 0.75, 101.0), map["BTCUSDT" := 0.75, "XAUUSDT" := 0.5])
      && st.best.Confidence() < Threshold
  {
    var closes := [99.0, 100.0, 101.0];
    assert Mean(closes) == 100.0 by {
      assert closes[..2] == [99.0, 100.0];
      assert [99.0, 100.0][..1] == [99.0];
      assert [99.0][..0] == [];
    }
    Rounding.Round2OnGrid(1.0);
    var fetches := [Prices(closes), Failure];
    assert Symbols[..1] == ["BTCUSDT"] && fetches[..1] == [Prices(closes)];
    assert Symbols[..1][..0] == [] && fetches[..1][..0] == [];
  }

  /**
   * A strong market with a balance of 1000: the margin is 50.00, so the
   * order for a 0.95 buy candidate is placed at the ask moved up by 0.1%
   * and appended to an empty log.
   */
  method StrongSignalScenario() returns (outcome: TradeOutcome, log: Option<seq<LogEntry>>)
    ensures outcome == Placed(
      Order("BTCUSDT", 50050.0, 0.01, 3, 3, 0, 1, "jb-1700000000"),
      LogEntry("BTCUSDT", Buy, 50050.0, 0.95, 1700000000))
    ensures log == Some([outcome.entry])
  {
    var signal := Candidate("BTCUSDT", Buy, 0.95, 101.0);
    var io := TradeInputs(Some([Asset("BTC", 3.0), Asset("USDT", 1000.0)]), Some(Depth([50000.0], [49990.0])),
                          true, "1700000000", 1700000000, None);
    assert UsdtBalance(io.account.value) == 1000.0 by {
      assert io.account.value[1..] == [Asset("USDT", 1000.0)];
    }
    Rounding.Round2OnGrid(50.0);
    assert Margin(1000.0) == 50.0;
    OrderPriceExamples();
    outcome, log := ExecuteTrade(signal, io);
    assert LoadLog(io.storedLog) + [outcome.entry] == [outcome.entry];
  }
}
