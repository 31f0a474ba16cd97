/**
 * The per-symbol signal engine of one market-analysis cycle: from the close
 * prices of the recent candles and the symbol's stored confidence, the new
 * smoothed confidence and the direction of the trade it suggests.
 */
module SignalEngine {
  import opened Wrappers
  import opened Rounding

  datatype Side = Buy | Sell

  /** What the candle request for one symbol produced: an error (network, missing field,
      unparsable number), or the close prices, oldest first. */
  datatype Fetch = Failure | Prices(closes: seq<real>)

  /** Everything the engine derives for one symbol that was analysed successfully. */
  datatype Analysis = Analysis(avg: real, last: real, change: real, raw: real, newConf: real, side: Side)

  /** The prior used for a symbol with no stored confidence. */
  const DefaultConfidence: real := 0.5
  /** How strongly the relative change moves the raw confidence away from 0.5. */
  const Sensitivity: real := 50.0

  function Sum(s: seq<real>): real {
    if s == [] then 0.0 else Sum(s[..|s| - 1]) + s[|s| - 1]
  }

  function Mean(s: seq<real>): real
    requires |s| > 0
  {
    Sum(s) / |s| as real
  }

  lemma {:induction false} SumPositive(s: seq<real>)
    requires |s| > 0
    requires forall i :: 0 <= i < |s| ==> s[i] > 0.0
    ensures Sum(s) > 0.0
  {
    if |s| > 1 {
      SumPositive(s[..|s| - 1]);
    }
  }

  /** Real prices are positive, and then the mean is never the degenerate zero. */
  lemma PositivePricesHavePositiveMean(s: seq<real>)
    requires |s| > 0
    requires forall i :: 0 <= i < |s| ==> s[i] > 0.0
    ensures Mean(s) > 0.0
  {
    SumPositive(s);
  }

  /** The stored confidence of a symbol, or the default when it has none (`mem.get(symbol, 0.5)`). */
  function Prior(mem: map<string, real>, symbol: string): (p: real)
    ensures symbol in mem ==> p == mem[symbol]
    ensures symbol !in mem ==> p == DefaultConfidence
  {
    if symbol in mem then mem[symbol] else DefaultConfidence
  }

  /** The fresh observation: 0.5 moved by the amplified relative change, rounded to cents. */
  function RawConfidence(change: real): (r: real)
    ensures OnCentGrid(r)
    ensures 0.5 + change * Sensitivity - 0.005 <= r <= 0.5 + change * Sensitivity + 0.005
  {
    Round2(0.5 + change * Sensitivity)
  }

  /** Equal-weight blend of the stored and the fresh confidence. It is neither rounded nor clamped. */
  function Smooth(prev: real, raw: real): (c: real)
    ensures c - prev == raw - c
    ensures (if prev <= raw then prev else raw) <= c <= (if prev <= raw then raw else prev)
  {
    (prev + raw) / 2.0
  }

  lemma SignOfQuotient(num: real, den: real)
    requires den != 0.0
    ensures (num / den) * den == num
    ensures num / den > 0.0 <==> (num > 0.0 && den > 0.0) || (num < 0.0 && den < 0.0)
  {
  }

  /**
   * Analyses one symbol. It fails exactly when the fetch failed, there is no
   * candle, or the mean close is zero (each of which raises in the loop body,
   * which then skips the symbol).
   */
  function Analyze(fetch: Fetch, prev: real): (r: Option<Analysis>)
    ensures r.None? <==> fetch.Failure? || |fetch.closes| == 0 || Mean(fetch.closes) == 0.0
    ensures r.Some? ==>
      var s, a := fetch.closes, r.value;
      && a.avg == Mean(s)
      && a.last == s[|s| - 1]
      && a.change * a.avg == a.last - a.avg
      && a.raw == RawConfidence(a.change)
      && a.newConf == Smooth(prev, a.raw)
      && (a.side == Buy <==> a.change > 0.0)
      && (a.avg > 0.0 ==> (a.side == Buy <==> a.last > a.avg))
  {
    match fetch
    case Failure => None
    case Prices(s) =>
      if |s| == 0 then None
      else
        var avg := Mean(s);
        if avg == 0.0 then None
        else
          var last := s[|s| - 1];
          var change := (last - avg) / avg;
          SignOfQuotient(last - avg, avg);
          var raw := RawConfidence(change);
          Some(Analysis(avg, last, change, raw, Smooth(prev, raw), if change > 0.0 then Buy else Sell))
  }

  /**
   * While the relative change stays within one percent, a prior in [0, 1]
   * yields a new confidence in [0, 1].
   */
  lemma ConfidenceStaysInUnitRange(prev: real, change: real)
    requires 0.0 <= prev <= 1.0
    requires -0.01 <= change <= 0.01
    ensures 0.0 <= Smooth(prev, RawConfidence(change)) <= 1.0
  {
    var x := 0.5 + change * Sensitivity;
    Round2Monotone(0.0, x);
    Round2Monotone(x, 1.0);
    Round2OnGrid(0.0);
    Round2OnGrid(1.0);
  }

  /**
   * Outside that range nothing bounds the confidence: a close 10% above a mean
   * of 100 gives a raw confidence of 5.5 and, from the default prior, 3.0.
   */
  lemma ConfidenceIsNotClamped()
    ensures Analyze(Prices([90.0, 100.0, 110.0]), DefaultConfidence) ==
            Some(Analysis(100.0, 110.0, 0.1, 5.5, 3.0, Buy))
  {
    assert Mean([90.0, 100.0, 110.0]) == 100.0 by {
      assert [90.0, 100.0, 110.0][..2] == [90.0, 100.0];
      assert [90.0, 100.0][..1] == [90.0];
      assert [90.0][..0] == [];
    }
    Round2OnGrid(5.5);
  }
}
