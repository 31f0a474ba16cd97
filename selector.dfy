/**
 * One pass of the market analysis over the symbol universe: every symbol's
 * confidence is re-estimated and written back into the learning memory, and
 * the best positive candidate of the pass is kept.
 */
module Selector {
  import opened Wrappers
  import opened SignalEngine

  /** The fixed instrument universe, in analysis order. */
  const Symbols: seq<string> := ["BTCUSDT", "XAUUSDT"]

  /** The best candidate of a pass, or the sentinel (no symbol, confidence 0). */
  datatype Best = NoCandidate | Candidate(symbol: string, side: Side, confidence: real, entry: real) {
    function Confidence(): real {
      if NoCandidate? then 0.0 else confidence
    }
  }

  datatype ScanState = ScanState(best: Best, mem: map<string, real>)

  /** The learning memory at the start of a cycle: the stored map, or empty when absent or unreadable. */
  function LoadMemory(stored: Option<map<string, real>>): (mem: map<string, real>)
    ensures stored.None? ==> mem == map[]
    ensures stored.Some? ==> mem == stored.value
  {
    if stored.Some? then stored.value else map[]
  }

  /** The loop body for one symbol: a failed analysis changes nothing. */
  function Step(st: ScanState, symbol: string, fetch: Fetch): ScanState {
    match Analyze(fetch, Prior(st.mem, symbol))
    case None => st
    case Some(a) =>
      ScanState(
        if a.newConf > st.best.Confidence() then Candidate(symbol, a.side, a.newConf, a.last) else st.best,
        st.mem[symbol := a.newConf])
  }

  /** The state after the loop has visited every symbol of `symbols`, each with its own fetch result. */
  function Scan(symbols: seq<string>, fetches: seq<Fetch>, mem0: map<string, real>): ScanState
    requires |symbols| == |fetches|
    decreases |symbols|
  {
    if |symbols| == 0 then ScanState(NoCandidate, mem0)
    else
      var n := |symbols| - 1;
      Step(Scan(symbols[..n], fetches[..n], mem0), symbols[n], fetches[n])
  }

  /** The analysis of the i-th symbol, against the memory as the loop has left it by then. */
  function AnalysisAt(symbols: seq<string>, fetches: seq<Fetch>, mem0: map<string, real>, i: int): Option<Analysis>
    requires |symbols| == |fetches| && 0 <= i < |symbols|
  {
    Analyze(fetches[i], Prior(Scan(symbols[..i], fetches[..i], mem0).mem, symbols[i]))
  }

  ghost predicate Succeeds(symbols: seq<string>, fetches: seq<Fetch>, mem0: map<string, real>, i: int)
    requires |symbols| == |fetches|
  {
    0 <= i < |symbols| && AnalysisAt(symbols, fetches, mem0, i).Some?
  }

  /** The new confidence of the i-th symbol, 0 when its analysis failed. */
  ghost function ConfAt(symbols: seq<string>, fetches: seq<Fetch>, mem0: map<string, real>, i: int): real
    requires |symbols| == |fetches|
  {
    if Succeeds(symbols, fetches, mem0, i) then AnalysisAt(symbols, fetches, mem0, i).value.newConf else 0.0
  }

  /**
   * The j-th symbol is the one the selection rule picks: it was analysed, its
   * confidence is positive, strictly above every earlier symbol's and at least
   * every later symbol's.
   */
  ghost predicate SelectedAt(symbols: seq<string>, fetches: seq<Fetch>, mem0: map<string, real>, j: int)
    requires |symbols| == |fetches|
  {
    && Succeeds(symbols, fetches, mem0, j)
    && ConfAt(symbols, fetches, mem0, j) > 0.0
    && (forall i :: 0 <= i < j && Succeeds(symbols, fetches, mem0, i) ==>
          ConfAt(symbols, fetches, mem0, i) < ConfAt(symbols, fetches, mem0, j))
    && (forall i :: j < i < |symbols| && Succeeds(symbols, fetches, mem0, i) ==>
          ConfAt(symbols, fetches, mem0, i) <= ConfAt(symbols, fetches, mem0, j))
  }

  /** The candidate record built from the j-th symbol's analysis. */
  ghost function CandidateAt(symbols: seq<string>, fetches: seq<Fetch>, mem0: map<string, real>, j: int): Best
    requires |symbols| == |fetches| && Succeeds(symbols, fetches, mem0, j)
  {
    var a := AnalysisAt(symbols, fetches, mem0, j).value;
    Candidate(symbols[j], a.side, a.newConf, a.last)
  }

  lemma AnalysisAtPrefix(symbols: seq<string>, fetches: seq<Fetch>, mem0: map<string, real>, n: int, i: int)
    requires |symbols| == |fetches| && 0 <= i < n <= |symbols|
    ensures AnalysisAt(symbols[..n], fetches[..n], mem0, i) == AnalysisAt(symbols, fetches, mem0, i)
  {
    assert symbols[..n][..i] == symbols[..i];
    assert fetches[..n][..i] == fetches[..i];
  }

  /** Keys of symbols outside the pass keep their entry, present or absent, and no entry is ever removed. */
  lemma {:induction false} ScanFrame(symbols: seq<string>, fetches: seq<Fetch>, mem0: map<string, real>, k: string)
    requires |symbols| == |fetches|
    ensures mem0.Keys <= Scan(symbols, fetches, mem0).mem.Keys
    ensures k !in symbols ==>
      (k in Scan(symbols, fetches, mem0).mem <==> k in mem0) &&
      (k in mem0 ==> Scan(symbols, fetches, mem0).mem[k] == mem0[k])
  {
    if |symbols| > 0 {
      var n := |symbols| - 1;
      ScanFrame(symbols[..n], fetches[..n], mem0, k);
    }
  }

  ghost predicate Distinct(symbols: seq<string>) {
    forall a, b :: 0 <= a < b < |symbols| ==> symbols[a] != symbols[b]
  }

  /** One step writes only the entry of its own symbol, and that one only when the analysis succeeds. */
  lemma StepEntry(st: ScanState, symbol: string, fetch: Fetch, k: string)
    ensures
      var a, mem := Analyze(fetch, Prior(st.mem, symbol)), Step(st, symbol, fetch).mem;
      && (k != symbol || a.None? ==> (k in mem <==> k in st.mem) && (k in st.mem ==> mem[k] == st.mem[k]))
      && (k == symbol && a.Some? ==> k in mem && mem[k] == a.value.newConf)
  {
  }

  /**
   * With no symbol listed twice (as in the fixed universe), each symbol is
   * analysed against its own stored prior, and after the pass its entry holds
   * its new confidence, or, when its analysis failed, is exactly as it was.
   */
  lemma {:induction false} ScanOwnEntry(symbols: seq<string>, fetches: seq<Fetch>, mem0: map<string, real>, i: int)
    requires |symbols| == |fetches| && Distinct(symbols) && 0 <= i < |symbols|
    ensures AnalysisAt(symbols, fetches, mem0, i) == Analyze(fetches[i], Prior(mem0, symbols[i]))
    ensures
      var a, k, mem := Analyze(fetches[i], Prior(mem0, symbols[i])), symbols[i], Scan(symbols, fetches, mem0).mem;
      && (a.Some? ==> k in mem && mem[k] == a.value.newConf)
      && (a.None? ==> (k in mem <==> k in mem0) && (k in mem0 ==> mem[k] == mem0[k]))
  {
    var n := |symbols| - 1;
    var k := symbols[i];
    var ps, pf := symbols[..n], fetches[..n];
    assert Distinct(ps);
    ScanLast(symbols, fetches, mem0);
    StepEntry(Scan(ps, pf, mem0), symbols[n], fetches[n], k);
    if i == n {
      assert k !in ps;
      ScanFrame(ps, pf, mem0, k);
      assert Prior(Scan(ps, pf, mem0).mem, k) == Prior(mem0, k);
    } else {
      ScanOwnEntry(ps, pf, mem0, i);
      AnalysisAtPrefix(symbols, fetches, mem0, n, i);
      assert symbols[n] != k;
    }
  }

  /** Unfolds the last iteration of a non-empty pass. */
  lemma ScanLast(symbols: seq<string>, fetches: seq<Fetch>, mem0: map<string, real>)
    requires |symbols| == |fetches| > 0
    ensures
      var n := |symbols| - 1;
      var before := Scan(symbols[..n], fetches[..n], mem0);
      && AnalysisAt(symbols, fetches, mem0, n) == Analyze(fetches[n], Prior(before.mem, symbols[n]))
      && Scan(symbols, fetches, mem0) == Step(before, symbols[n], fetches[n])
  {
  }

  /** The first n symbols of a pass are analysed as in a pass over only them. */
  lemma PrefixAgrees(symbols: seq<string>, fetches: seq<Fetch>, mem0: map<string, real>, n: int)
    requires |symbols| == |fetches| && 0 <= n <= |symbols|
    ensures forall i :: 0 <= i < n ==>
      Succeeds(symbols[..n], fetches[..n], mem0, i) == Succeeds(symbols, fetches, mem0, i) &&
      ConfAt(symbols[..n], fetches[..n], mem0, i) == ConfAt(symbols, fetches, mem0, i)
    ensures forall i :: 0 <= i < n && Succeeds(symbols, fetches, mem0, i) ==>
      CandidateAt(symbols[..n], fetches[..n], mem0, i) == CandidateAt(symbols, fetches, mem0, i)
  {
    forall i | 0 <= i < n
      ensures AnalysisAt(symbols[..n], fetches[..n], mem0, i) == AnalysisAt(symbols, fetches, mem0, i)
    {
      AnalysisAtPrefix(symbols, fetches, mem0, n, i);
    }
  }

  /** The last symbol takes over the selection when it beats every positive earlier confidence. */
  lemma SelectLast(symbols: seq<string>, fetches: seq<Fetch>, mem0: map<string, real>, bound: real)
    requires |symbols| == |fetches| > 0
    requires Succeeds(symbols, fetches, mem0, |symbols| - 1)
    requires ConfAt(symbols, fetches, mem0, |symbols| - 1) > bound >= 0.0
    requires forall i :: 0 <= i < |symbols| - 1 && Succeeds(symbols, fetches, mem0, i) ==>
      ConfAt(symbols, fetches, mem0, i) <= bound
    ensures SelectedAt(symbols, fetches, mem0, |symbols| - 1)
  {
  }

  /** An earlier selection survives a last symbol that does not beat it. */
  lemma SelectKept(symbols: seq<string>, fetches: seq<Fetch>, mem0: map<string, real>, j: int)
    requires |symbols| == |fetches| > 0
    requires SelectedAt(symbols[..|symbols| - 1], fetches[..|symbols| - 1], mem0, j)
    requires Succeeds(symbols, fetches, mem0, |symbols| - 1) ==>
      ConfAt(symbols, fetches, mem0, |symbols| - 1) <= ConfAt(symbols, fetches, mem0, j)
    ensures SelectedAt(symbols, fetches, mem0, j)
    ensures CandidateAt(symbols[..|symbols| - 1], fetches[..|symbols| - 1], mem0, j) == CandidateAt(symbols, fetches, mem0, j)
  {
    var n := |symbols| - 1;
    var ps, pf := symbols[..n], fetches[..n];
    PrefixAgrees(symbols, fetches, mem0, n);
    assert Succeeds(symbols, fetches, mem0, j) && ConfAt(symbols, fetches, mem0, j) == ConfAt(ps, pf, mem0, j);
    forall i | 0 <= i < j && Succeeds(symbols, fetches, mem0, i)
      ensures ConfAt(symbols, fetches, mem0, i) < ConfAt(symbols, fetches, mem0, j)
    {
      assert Succeeds(ps, pf, mem0, i);
    }
    forall i | j < i < |symbols| && Succeeds(symbols, fetches, mem0, i)
      ensures ConfAt(symbols, fetches, mem0, i) <= ConfAt(symbols, fetches, mem0, j)
    {
      if i < n {
        assert Succeeds(ps, pf, mem0, i);
      }
    }
  }

  /** What the selection rule promises of the best candidate at the end of a pass. */
  ghost predicate SelectionRule(symbols: seq<string>, fetches: seq<Fetch>, mem0: map<string, real>)
    requires |symbols| == |fetches|
  {
    var best := Scan(symbols, fetches, mem0).best;
    && (best.NoCandidate? <==>
          forall i :: 0 <= i < |symbols| && Succeeds(symbols, fetches, mem0, i) ==> ConfAt(symbols, fetches, mem0, i) <= 0.0)
    && (best.Candidate? ==>
          exists j :: SelectedAt(symbols, fetches, mem0, j) && best == CandidateAt(symbols, fetches, mem0, j))
  }

  /** Inductive step, when the pass over the prefix ended with a candidate. */
  lemma SelectionStepFromCandidate(symbols: seq<string>, fetches: seq<Fetch>, mem0: map<string, real>, j: int)
    requires |symbols| == |fetches| > 0
    requires
      var n := |symbols| - 1;
      var before := Scan(symbols[..n], fetches[..n], mem0);
      SelectedAt(symbols[..n], fetches[..n], mem0, j) && before.best == CandidateAt(symbols[..n], fetches[..n], mem0, j)
    ensures SelectionRule(symbols, fetches, mem0)
  {
    var n := |symbols| - 1;
    PrefixAgrees(symbols, fetches, mem0, n);
    ScanLast(symbols, fetches, mem0);
    var before := Scan(symbols[..n], fetches[..n], mem0);
    var r := AnalysisAt(symbols, fetches, mem0, n);
    if r.Some? && r.value.newConf > before.best.Confidence() {
      SelectLast(symbols, fetches, mem0, before.best.Confidence());
      assert Scan(symbols, fetches, mem0).best == CandidateAt(symbols, fetches, mem0, n);
    } else {
      SelectKept(symbols, fetches, mem0, j);
      assert Scan(symbols, fetches, mem0).best == before.best;
    }
  }

  /** Inductive step, when the pass over the prefix ended with the sentinel. */
  lemma SelectionStepFromSentinel(symbols: seq<string>, fetches: seq<Fetch>, mem0: map<string, real>)
    requires |symbols| == |fetches| > 0
    requires
      var n := |symbols| - 1;
      Scan(symbols[..n], fetches[..n], mem0).best.NoCandidate? &&
      forall i :: 0 <= i < n && Succeeds(symbols[..n], fetches[..n], mem0, i) ==> ConfAt(symbols[..n], fetches[..n], mem0, i) <= 0.0
    ensures SelectionRule(symbols, fetches, mem0)
  {
    var n := |symbols| - 1;
    PrefixAgrees(symbols, fetches, mem0, n);
    ScanLast(symbols, fetches, mem0);
    var r := AnalysisAt(symbols, fetches, mem0, n);
    if r.Some? && r.value.newConf > 0.0 {
      SelectLast(symbols, fetches, mem0, 0.0);
      assert Scan(symbols, fetches, mem0).best == CandidateAt(symbols, fetches, mem0, n);
    } else {
      assert Scan(symbols, fetches, mem0).best == NoCandidate;
    }
  }

  /**
   * The selection rule: the pass ends with the sentinel exactly when no symbol
   * was analysed with a positive confidence; otherwise with the candidate of
   * the first symbol that has the highest confidence. A failed symbol is never
   * selected, and ties keep the earlier symbol.
   */
  lemma {:induction false} ScanSelects(symbols: seq<string>, fetches: seq<Fetch>, mem0: map<string, real>)
    requires |symbols| == |fetches|
    ensures Scan(symbols, fetches, mem0).best.NoCandidate? <==>
      forall i :: 0 <= i < |symbols| && Succeeds(symbols, fetches, mem0, i) ==> ConfAt(symbols, fetches, mem0, i) <= 0.0
    ensures Scan(symbols, fetches, mem0).best.Candidate? ==>
      exists j :: SelectedAt(symbols, fetches, mem0, j) && Scan(symbols, fetches, mem0).best == CandidateAt(symbols, fetches, mem0, j)
  {
    if |symbols| > 0 {
      var n := |symbols| - 1;
      ScanSelects(symbols[..n], fetches[..n], mem0);
      if Scan(symbols[..n], fetches[..n], mem0).best.Candidate? {
        var j :| SelectedAt(symbols[..n], fetches[..n], mem0, j) &&
                 Scan(symbols[..n], fetches[..n], mem0).best == CandidateAt(symbols[..n], fetches[..n], mem0, j);
        SelectionStepFromCandidate(symbols, fetches, mem0, j);
      } else {
        SelectionStepFromSentinel(symbols, fetches, mem0);
      }
    }
  }

  /** Ties keep the earlier symbol, so at most one index is ever selected. */
  lemma SelectionIsUnique(symbols: seq<string>, fetches: seq<Fetch>, mem0: map<string, real>, j1: int, j2: int)
    requires |symbols| == |fetches|
    requires SelectedAt(symbols, fetches, mem0, j1) && SelectedAt(symbols, fetches, mem0, j2)
    ensures j1 == j2
  {
  }

  /**
   * analyze_market without its I/O: `fetches[i]` is what the candle request
   * for `symbols[i]` returned. Returns the best candidate and the memory to
   * be saved.
   */
  method AnalyzeMarket(symbols: seq<string>, fetches: seq<Fetch>, mem0: map<string, real>)
    returns (best: Best, mem: map<string, real>)
    requires |symbols| == |fetches|
    ensures ScanState(best, mem) == Scan(symbols, fetches, mem0)
    ensures mem0.Keys <= mem.Keys
    ensures forall k :: k !in symbols && k in mem0 ==> mem[k] == mem0[k]
    ensures best.NoCandidate? <==>
      forall i :: 0 <= i < |symbols| && Succeeds(symbols, fetches, mem0, i) ==> ConfAt(symbols, fetches, mem0, i) <= 0.0
    ensures best.Candidate? ==> best.confidence > 0.0 && best.symbol in symbols
  {
    best, mem := NoCandidate, mem0;
    for i := 0 to |symbols|
      invariant ScanState(best, mem) == Scan(symbols[..i], fetches[..i], mem0)
    {
      assert symbols[..i + 1][..i] == symbols[..i] && fetches[..i + 1][..i] == fetches[..i];
      var symbol := symbols[i];
      var prev := Prior(mem, symbol);
      var analysis := Analyze(fetches[i], prev);
      if analysis.Some? {
        var a := analysis.value;
        mem := mem[symbol := a.newConf];
        if a.newConf > best.Confidence() {
          best := Candidate(symbol, a.side, a.newConf, a.last);
        }
      }
    }
    assert symbols[..|symbols|] == symbols && fetches[..|fetches|] == fetches;
    ScanFrame(symbols, fetches, mem0, "");
    forall k | k !in symbols && k in mem0 ensures mem[k] == mem0[k] {
      ScanFrame(symbols, fetches, mem0, k);
    }
    ScanSelects(symbols, fetches, mem0);
  }
}
