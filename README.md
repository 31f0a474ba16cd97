# JB Futures bot: the decision engine

A Dafny model of the decision engine of a small futures-trading bot
(`main.py`). Every minute the bot analyses a fixed universe of two symbols
(`BTCUSDT`, `XAUUSDT`). For each symbol it takes the close prices of the last
candles. The mean, the last close and the relative change give a raw
confidence, `round(0.5 + change * 50, 2)`. That value is averaged with the
confidence remembered for the symbol (0.5 when there is none), and the result
is written back into the learning memory. The best positive candidate of the
pass is kept. When its confidence reaches 0.9, the bot reads its USDT balance
and refuses to trade when 5% of it, rounded to cents, is below 1. Otherwise it
builds a limit order at the best ask × 1.001 (buy) or the best bid × 0.999
(sell), with fixed size, leverage and mode, submits it and appends the trade
to its log.

Modules, one per component:

- `Wrappers` (wrappers.dfy): `Option`.
- `Rounding` (rounding.dfy): `round(x, 2)` on reals, with ties going to the
  even neighbour: the nearest hundredth, and on a tie the one with an even
  last digit.
- `SignalEngine` (signal.dfy): the per-symbol analysis (`Analyze`). A candle
  request is an input, `Failure | Prices(closes)`.
- `Selector` (selector.dfy): the analysis loop `AnalyzeMarket`, a method over
  the memory `map<string, real>`. It is proved equal to the fold `Scan`, and
  the lemmas about `Scan` state the memory frame, the per-symbol update and
  the selection rule.
- `Trading` (trading.dfy): the balance lookup, the margin check, the side
  code, the limit price, the order record, the trade-log append and
  `ExecuteTrade`.
- `Cycle` (cycle.dfy): one iteration of the main loop (`RunCycle`) and two
  worked scenarios.

Three facts about the code that the model keeps as they are:

- The trade log is appended whenever the order request returns without
  raising. The exchange's answer is never inspected (main.py:131-141), so
  `ExecuteTrade` places and logs the order whenever `submitted` holds.
- Because the margin is rounded before the comparison (main.py:111-112),
  balances from 19.9 up pass the check: 5% of 19.9 is 0.995, which rounds to
  1.00 (`Trading.MarginSufficientIff`). In binary floating point, 0.995 lies
  just below the tie, so 19.9 itself would be refused there.
- Nothing clamps the confidence to [0, 1]
  (`SignalEngine.ConfidenceIsNotClamped` exhibits a confidence of 3.0).

## Model

| member | source | states |
|---|---|---|
| Rounding.RoundHalfEven | main.py:89 | the integer within 1/2 of its argument, and on a tie the even one |
| Rounding.RoundHalfEvenUnique | main.py:89 | no other integer meets both properties, so they define the rounding |
| Rounding.RoundHalfEvenMonotone | main.py:89 | rounding to an integer is monotone |
| Rounding.Round2 | main.py:122 | `round(x, 2)` is a whole number of cents within half a cent of x, and exactly halfway between two cents it is the one with an even last digit |
| Rounding.Round2OnGrid | main.py:122 | a value already in whole cents is left unchanged |
| Rounding.Round2Monotone | main.py:122 | `round(x, 2)` is monotone |
| SignalEngine.PositivePricesHavePositiveMean | main.py:86 | positive close prices have a positive mean, so the zero-mean failure cannot happen for them |
| SignalEngine.Prior | main.py:91 | the stored confidence of the symbol, or 0.5 when it has none |
| SignalEngine.RawConfidence | main.py:89 | the raw confidence is in whole cents, within half a cent of 0.5 + 50 × change |
| SignalEngine.Smooth | main.py:92 | the new confidence is the midpoint of prior and raw value: equidistant from both and between them |
| SignalEngine.Analyze | main.py:84-96 | fails exactly for a failed fetch, no candle or a zero mean; otherwise gives the mean, the last close, change × mean = last − mean, the rounded raw value and the smoothed confidence, with side buy exactly when the change is positive (for a positive mean, exactly when the last close is above the mean) |
| SignalEngine.ConfidenceStaysInUnitRange | main.py:89-92 | with a prior in [0, 1] and a relative change within ±1%, the new confidence stays in [0, 1] |
| SignalEngine.ConfidenceIsNotClamped | main.py:86-92 | closes 90, 100, 110 from the default prior give a raw confidence of 5.5 and a confidence of 3.0: nothing clamps it |
| Selector.LoadMemory | main.py:53-58 | the learning memory is the stored map, or empty when the file is absent or unreadable |
| Selector.ScanFrame | main.py:79-101 | after a pass no entry of the memory has been removed, and a key of a symbol outside the pass keeps its entry, present or absent |
| Selector.ScanOwnEntry | main.py:82-99 | for a universe listing every symbol once, each symbol is analysed against its own stored prior; afterwards its entry holds the new confidence, or, if its analysis failed, is exactly as before |
| Selector.ScanSelects | main.py:80-96 | the pass ends with the sentinel exactly when no symbol was analysed with a positive confidence; otherwise with the analysed symbol whose confidence is positive, strictly above every earlier one and at least every later one, carrying that analysis's side, confidence and last close |
| Selector.SelectionIsUnique | main.py:95 | because the comparison is strict, at most one symbol meets the selection rule: ties keep the earlier symbol |
| Selector.AnalyzeMarket | main.py:77-102 | the loop yields exactly the fold `Scan`; the memory keeps every old key, entries of other symbols are unchanged, the result is the sentinel exactly when no analysed confidence is positive, and a candidate has a positive confidence and a symbol from the universe |
| Trading.UsdtBalanceFirstMatch | main.py:47-50 | the balance is the `available` value of the first USDT asset, or 0 when no asset is USDT |
| Trading.FuturesBalance | main.py:45-50 | the early-return loop computes that first-match balance |
| Trading.Margin | main.py:111 | the margin is in whole cents, within half a cent of 5% of the balance |
| Trading.MarginSufficientIff | main.py:111-114 | the margin reaches 1 exactly when the balance is at least 19.9 |
| Trading.SideCode | main.py:108 | side code 3 exactly for a buy, 4 exactly for a sell |
| Trading.Quote | main.py:116-117 | a buy uses the best ask and a sell the best bid, with nothing when that side of the book is empty |
| Trading.LimitPrice | main.py:118 | a buy adds 0.1% of the quote and a sell subtracts 0.1% of it |
| Trading.LimitPriceCrossesBook | main.py:117-122 | for a non-negative quote a buy's limit price is at least the ask and a sell's at most the bid; after rounding too when the quote is in whole cents |
| Trading.BuildOrder | main.py:120-129 | the order carries the symbol, the side code and the rounded limit price, within half a cent of it; amount 0.01, leverage 3, position id 0 and open type 1 whatever the margin; id "jb-" followed by the clock |
| Trading.OrderPriceExamples | main.py:117-122 | an ask of 50000 gives a buy at 50050.00, a bid of 50000 a sell at 49950.00 |
| Trading.LoadLog | main.py:67-71 | the loaded log is the stored list, or empty when the file is absent or unreadable |
| Trading.SaveTradeLog | main.py:66-74 | the new log is the loaded log with exactly one entry appended at the end and every earlier entry unchanged |
| Trading.ExecuteTrade | main.py:105-141 | a failed account query ends the trade; with an answer, the trade is refused with the margin exactly when the margin is below 1; the order is placed exactly when the margin suffices, the book has the needed side and the submission returns; a placed order is the built order; the log entry has its price and the signal's confidence; the log is the loaded log plus that entry, and is untouched otherwise |
| Cycle.RunCycle | main.py:144-152 | the cycle's signal and saved memory are those of the pass over the fixed universe from the loaded memory; a trade is attempted exactly when the confidence is at least 0.9, and only for a candidate; an attempted trade fails on a failed account query, is refused with the margin exactly when the margin is below 1, and is placed exactly when the margin suffices, the book has the needed side and the submission returns; a placed trade is the built order for the signal's symbol, side and quote, its log entry carries the order's price and the signal's confidence, and the log is the loaded log plus that entry; otherwise the log is unchanged |
| Cycle.SymbolsAreDistinct | main.py:78 | the fixed universe lists each symbol once |
| Cycle.QuietMarketScenario | main.py:77-102 | BTCUSDT closing 99, 100, 101 from a prior of 0.5 moves to 0.75 and is selected as a buy at 101; a failing XAUUSDT keeps 0.5; 0.75 is below the threshold |
| Cycle.StrongSignalScenario | main.py:105-141 | with a balance of 1000 (margin 50.00) and an ask of 50000, a 0.95 buy places an order at 50050.00 with the fixed constants and appends the one log entry to an empty log |

## Left out

- Request signing and authenticated HTTP (`create_signature`, `make_request`, main.py:24-42): foreign cryptography and network calls. Their answers are inputs (`TradeInputs`).
- The candle and order-book requests (main.py:83-85, 116-117): modelled by their results. A candle request, its JSON or a number in it that fails is `Failure`. An order book that is missing or unreadable is `None`, and an empty side of the book is an empty sequence.
- The Telegram notifications (main.py:17, 98, 113, 133-140, 151, 154): the model assumes a notification never raises. `bot.send_message` is a blocking call that can raise, and two such raises change the outcome in ways the model cannot represent:
  - at main.py:98, inside the per-symbol handler, a raise leaves `analyze_market`: the remaining symbols are skipped and `save_memory` (main.py:101) never runs;
  - at main.py:140, after the order was submitted (main.py:131), a raise skips `save_trade_log` (main.py:141), so a placed order is never logged.
- Pickle and JSON reading and writing (main.py:53-63, 66-74): only the values read (`Option`, None for absent or unreadable) and written are modelled. An I/O error while writing is not.
- The clock (main.py:128, 141): the order's clock text and the log's timestamp are opaque inputs, read separately as the code does.
- The run-forever loop, its `time.sleep(60)` and the catch-all around each cycle (main.py:144-155): one cycle is modelled. An exception that escapes the trade is the outcome `Failed`, and the memory has already been saved by then. Errors the model has no inputs for (such as a failing memory write) are not modelled.
- Trading.ExecuteTrade: the different exceptions that can escape a trade (account query, order book, submission) are merged into the one outcome `Failed`, which is what the cycle sees apart from the notification text.
- Rounding.Round2: rounds the exact real value, with ties to even. Python rounds the binary double nearest to the value, so results at exact decimal ties can differ. Floating-point behaviour in general (IEEE-754, NaN, infinity) is not modelled; prices, balances and confidences are reals.
- Python's dynamic typing: the learning file may hold any value under a key, and `available` is parsed from text; the model assumes reals. Files of the wrong shape are not represented by `Option<map<string, real>>` or `Option<seq<LogEntry>>`:
  - a learning file that unpickles to something other than a dict makes every symbol fail at `mem.get` (main.py:91); the pass ends with the sentinel and `save_memory` writes the object back;
  - a trade log holding valid JSON that is not a list makes `logs.append` (main.py:72) raise after the order was submitted, and the file is left untouched.
