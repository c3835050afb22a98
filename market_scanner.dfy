/** The market scanner (backend/app/services/market_scanner.py): keeps the
    symbols whose last 30 daily bars pass a price, dollar-volume, volatility
    and trend filter, in input order. The broker is reached through two
    inputs: the asset listing and, per symbol, the bars its request gave
    back. */
module MarketScanner {
  import opened Series
  import RiskManager

  /** A symbol with fewer bars than this is skipped. */
  const MinBars: nat := 30
  /** The ATR window and the trend SMA window. */
  const AtrWindow: Window := 14
  const TrendWindow: Window := 20
  /** `run_scan` scans at most this many symbols. */
  const SampleSize: nat := 200

  datatype ScanParams = ScanParams(minPrice: real, minAvgVolume: real, atrThreshold: real)

  const Defaults: ScanParams := ScanParams(10.0, 1000000.0, 0.03)

  /** One entry of the scan's result. */
  datatype Candidate = Candidate(symbol: string, price: real, avgVolume: real, atrPct: real)

  /** One entry of the broker's asset listing. */
  datatype Asset = Asset(symbol: string, tradable: bool, shortable: bool)

  /** `(volume * close).mean()` over the fetched bars. */
  function MeanDollarVolume(bars: seq<Bar>): real
    requires |bars| > 0
  {
    Sum(seq(|bars|, i requires 0 <= i < |bars| => bars[i].volume * bars[i].close)) / (|bars| as real)
  }

  /** The scanner's own true-range column (lines 55-58): on the first row
      the shifted close is NaN and the row maximum skips it. */
  function ScannerTrueRanges(bars: seq<Bar>): (tr: seq<real>)
    ensures |tr| == |bars|
  {
    seq(|bars|, i requires 0 <= i < |bars| =>
      var highLow := bars[i].high - bars[i].low;
      if i == 0 then highLow
      else Max(Max(highLow, Abs(bars[i].high - bars[i - 1].close)), Abs(bars[i].low - bars[i - 1].close)))
  }

  /** `tr.rolling(window=14).mean().iloc[-1]`. */
  function ScannerAtr(bars: seq<Bar>): real
    requires |bars| >= AtrWindow
  {
    Sum(ScannerTrueRanges(bars)[|bars| - AtrWindow..|bars|]) / (AtrWindow as real)
  }

  /** The scanner's volatility measure is the risk manager's 14-bar ATR at
      the last bar: the two true-range formulas agree row by row. */
  lemma ScannerAtrIsRiskManagerAtr(bars: seq<Bar>)
    requires |bars| >= AtrWindow
    ensures RiskManager.Atr(bars, AtrWindow)[|bars| - 1] == Some(ScannerAtr(bars))
  {
    ScannerAtrOfTrueRanges(bars);
    RiskManager.AtrAt(bars, AtrWindow, |bars| - 1);
  }

  lemma ScannerAtrOfTrueRanges(bars: seq<Bar>)
    requires |bars| >= AtrWindow
    ensures ScannerAtr(bars) == Sum(RiskManager.TrueRanges(bars)[|bars| - AtrWindow..|bars|]) / (AtrWindow as real)
  {
    TrueRangesAgree(bars);
  }

  lemma TrueRangesAgree(bars: seq<Bar>)
    ensures ScannerTrueRanges(bars) == RiskManager.TrueRanges(bars)
  {
    forall i | 0 <= i < |bars|
      ensures ScannerTrueRanges(bars)[i] == RiskManager.TrueRanges(bars)[i]
    {
      TrueRangeAgrees(bars, i);
    }
  }

  lemma TrueRangeAgrees(bars: seq<Bar>, i: nat)
    requires i < |bars|
    ensures ScannerTrueRanges(bars)[i] == RiskManager.TrueRange(bars, i)
  {
  }

  /** `close.rolling(window=20).mean().iloc[-1]`. */
  function TrendSma(bars: seq<Bar>): real
    requires |bars| >= TrendWindow
  {
    Sum(Closes(bars)[|bars| - TrendWindow..]) / (TrendWindow as real)
  }

  lemma TrendSmaIsRollingMean(bars: seq<Bar>)
    requires |bars| >= TrendWindow
    ensures RollingMean(Closes(bars), TrendWindow)[|bars| - 1] == Some(TrendSma(bars))
  {
    assert Closes(bars)[|bars| - TrendWindow..] == Closes(bars)[|bars| - 1 + 1 - TrendWindow..|bars| - 1 + 1];
    RollingMeanAt(Closes(bars), TrendWindow, |bars| - 1);
  }

  /** The figures the filters look at, for a symbol with enough bars. */
  datatype Metrics = Metrics(lastPrice: real, avgVolume: real, atr: real, sma20: real)

  function Measure(bars: seq<Bar>): (m: Metrics)
    requires |bars| >= MinBars
    ensures m.lastPrice == bars[|bars| - 1].close
  {
    Metrics(bars[|bars| - 1].close, MeanDollarVolume(bars), ScannerAtr(bars), TrendSma(bars))
  }

  /** The price, dollar-volume, volatility and trend filters, in the
      source's order. A zero last close is skipped (see the README). */
  function Filter(symbol: string, m: Metrics, p: ScanParams): (c: Option<Candidate>)
    ensures c.Some? <==>
      && m.lastPrice >= p.minPrice && m.avgVolume >= p.minAvgVolume && m.lastPrice != 0.0
      && m.atr / m.lastPrice >= p.atrThreshold && m.lastPrice >= m.sma20
    ensures c.Some? ==> c.value == Candidate(symbol, m.lastPrice, m.avgVolume, m.atr / m.lastPrice)
  {
    if m.lastPrice < p.minPrice then None
    else if m.avgVolume < p.minAvgVolume then None
    else if m.lastPrice == 0.0 then None
    else
      var atrPct := m.atr / m.lastPrice;
      if atrPct < p.atrThreshold then None
      else if m.lastPrice < m.sma20 then None
      else Some(Candidate(symbol, m.lastPrice, m.avgVolume, atrPct))
  }

  /** One symbol: a failed request or fewer than 30 bars skip it (a failure
      skips only that symbol); otherwise the filters decide. */
  function Assess(symbol: string, fetched: Fetch, p: ScanParams): (c: Option<Candidate>)
    ensures c.Some? ==> fetched.Fetched? && |fetched.bars| >= MinBars
  {
    match fetched
    case FetchFailed(_) => None
    case Fetched(bars) => if |bars| < MinBars then None else Filter(symbol, Measure(bars), p)
  }

  /** A kept symbol's candidate carries its own symbol and last close, which
      is at least the minimum price and at or above its 20-bar SMA; its
      mean dollar volume is at least the minimum, and its `atr_pct` at
      least the threshold. */
  lemma AssessKept(symbol: string, fetched: Fetch, p: ScanParams)
    requires Assess(symbol, fetched, p).Some?
    ensures var bars, c := fetched.bars, Assess(symbol, fetched, p).value;
      && c.symbol == symbol
      && c.price == bars[|bars| - 1].close && c.price >= p.minPrice && c.price != 0.0
      && c.avgVolume == MeanDollarVolume(bars) && c.avgVolume >= p.minAvgVolume
      && c.atrPct >= p.atrThreshold
      && c.price >= TrendSma(bars)
  {
    var bars := fetched.bars;
    assert Assess(symbol, fetched, p) == Filter(symbol, Measure(bars), p);
  }

  /** A kept candidate's `atr_pct` times its price is the ATR it was
      measured with; for a measured symbol that is the scanner's ATR, which
      is the risk manager's 14-bar ATR at the last bar
      (`ScannerAtrIsRiskManagerAtr`). */
  lemma FilterAtrPct(symbol: string, m: Metrics, p: ScanParams)
    requires Filter(symbol, m, p).Some?
    ensures Filter(symbol, m, p).value.atrPct * Filter(symbol, m, p).value.price == m.atr
  {
    QuotientTimesDivisor(m.atr, m.lastPrice);
  }

  lemma QuotientTimesDivisor(x: real, y: real)
    requires y != 0.0
    ensures (x / y) * y == x
  {
  }

  /** Each symbol's assessment, in input order. */
  function Assessments(symbols: seq<string>, fetchBars: string -> Fetch, p: ScanParams): (r: seq<Option<Candidate>>)
    ensures |r| == |symbols|
  {
    seq(|symbols|, i requires 0 <= i < |symbols| => Assess(symbols[i], fetchBars(symbols[i]), p))
  }

  /** What `scan` returns: the kept symbols' candidates, in input order. */
  function Promising(symbols: seq<string>, fetchBars: string -> Fetch, p: ScanParams): seq<Candidate>
  {
    Somes(Assessments(symbols, fetchBars, p))
  }

  /** The result is an order-preserving selection of the input: candidate
      `k` is the assessment of the symbol at the strictly increasing
      position `idx[k]`, and a symbol's position is listed exactly when it
      passes every filter. */
  lemma PromisingIsSubsequence(symbols: seq<string>, fetchBars: string -> Fetch, p: ScanParams)
    ensures var out, idx := Promising(symbols, fetchBars, p), SomeIndices(Assessments(symbols, fetchBars, p));
      && |out| == |idx| <= |symbols|
      && (forall k :: 0 <= k < |idx| ==>
            idx[k] < |symbols| && Assess(symbols[idx[k]], fetchBars(symbols[idx[k]]), p) == Some(out[k]))
      && (forall k, l :: 0 <= k < l < |idx| ==> idx[k] < idx[l])
      && (forall i :: 0 <= i < |symbols| ==>
            (Assess(symbols[i], fetchBars(symbols[i]), p).Some? <==> i in idx))
  {
    SomesIsSubsequence(Assessments(symbols, fetchBars, p));
  }

  /** Scanning one more symbol appends its candidate, if it has one. */
  lemma PromisingStep(symbols: seq<string>, fetchBars: string -> Fetch, p: ScanParams, i: nat)
    requires i < |symbols|
    ensures Promising(symbols[..i + 1], fetchBars, p) == Promising(symbols[..i], fetchBars, p)
      + match Assess(symbols[i], fetchBars(symbols[i]), p) case Some(c) => [c] case None => []
  {
    var xs := Assessments(symbols[..i + 1], fetchBars, p);
    assert xs[..i] == Assessments(symbols[..i], fetchBars, p);
  }

  /** `scan`: the filter loop. Every rejected symbol is skipped with
      `continue`; a survivor is appended. */
  method Scan(symbols: seq<string>, fetchBars: string -> Fetch, p: ScanParams) returns (promising: seq<Candidate>)
    ensures promising == Promising(symbols, fetchBars, p)
  {
    promising := [];
    for i := 0 to |symbols|
      invariant promising == Promising(symbols[..i], fetchBars, p)
    {
      var symbol := symbols[i];
      PromisingStep(symbols, fetchBars, p, i);
      var fetched := fetchBars(symbol);
      if fetched.FetchFailed? {
        continue;
      }
      var bars := fetched.bars;
      if |bars| < MinBars {
        continue;
      }
      var m := Measure(bars);
      if m.lastPrice < p.minPrice {
        continue;
      }
      if m.avgVolume < p.minAvgVolume {
        continue;
      }
      if m.lastPrice == 0.0 {
        continue;
      }
      var atrPct := m.atr / m.lastPrice;
      if atrPct < p.atrThreshold {
        continue;
      }
      if m.lastPrice < m.sma20 {
        continue;
      }
      promising := promising + [Candidate(symbol, m.lastPrice, m.avgVolume, atrPct)];
    }
    assert symbols[..|symbols|] == symbols;
  }

  /** Each listed asset's symbol where it is both tradable and shortable,
      and None elsewhere. */
  function TradableEntries(assets: seq<Asset>): (r: seq<Option<string>>)
    ensures |r| == |assets|
  {
    seq(|assets|, i requires 0 <= i < |assets| =>
      if assets[i].tradable && assets[i].shortable then Some(assets[i].symbol) else None)
  }

  /** The symbols of the listed assets that are both tradable and
      shortable, in listing order. */
  function TradableSymbols(assets: seq<Asset>): seq<string>
  {
    Somes(TradableEntries(assets))
  }

  /** The returned symbols are those of the tradable, shortable assets, in
      listing order: the k-th is the symbol of the asset at an increasing
      position idx[k], and every tradable, shortable asset has its place in
      idx. */
  lemma TradableSymbolsInOrder(assets: seq<Asset>)
    ensures var out, idx := TradableSymbols(assets), SomeIndices(TradableEntries(assets));
      && |out| == |idx| <= |assets|
      && (forall k :: 0 <= k < |idx| ==>
            && idx[k] < |assets| && assets[idx[k]].tradable && assets[idx[k]].shortable
            && assets[idx[k]].symbol == out[k])
      && (forall k, l :: 0 <= k < l < |idx| ==> idx[k] < idx[l])
      && (forall i :: 0 <= i < |assets| ==> (assets[i].tradable && assets[i].shortable <==> i in idx))
  {
    var entries := TradableEntries(assets);
    SomesIsSubsequence(entries);
    var out, idx := TradableSymbols(assets), SomeIndices(entries);
    forall k | 0 <= k < |idx|
      ensures assets[idx[k]].tradable && assets[idx[k]].shortable && assets[idx[k]].symbol == out[k]
    {
      assert entries[idx[k]] == Some(out[k]);
    }
  }

  /** Every returned symbol belongs to a tradable, shortable asset and every
      such asset's symbol is returned. */
  lemma TradableSymbolsExact(assets: seq<Asset>)
    ensures |TradableSymbols(assets)| <= |assets|
    ensures forall s :: s in TradableSymbols(assets) <==>
      exists i :: 0 <= i < |assets| && assets[i].tradable && assets[i].shortable && assets[i].symbol == s
  {
    TradableSymbolsInOrder(assets);
    var out, idx := TradableSymbols(assets), SomeIndices(TradableEntries(assets));
    forall s | s in out
      ensures exists i :: 0 <= i < |assets| && assets[i].tradable && assets[i].shortable && assets[i].symbol == s
    {
      var k :| 0 <= k < |out| && out[k] == s;
      assert assets[idx[k]].symbol == s;
    }
    forall i | 0 <= i < |assets| && assets[i].tradable && assets[i].shortable
      ensures assets[i].symbol in out
    {
      var k :| 0 <= k < |idx| && idx[k] == i;
      assert out[k] == assets[i].symbol;
    }
  }

  /** `get_tradable_assets`: a failed listing (None) gives no symbols. */
  function GetTradableAssets(listing: Option<seq<Asset>>): (r: seq<string>)
    ensures listing.None? ==> r == []
    ensures listing.Some? ==> r == TradableSymbols(listing.value)
  {
    match listing
    case None => []
    case Some(assets) => TradableSymbols(assets)
  }

  /** The symbols `run_scan` hands to `scan`: the first 200 tradable ones. */
  function SampleSymbols(listing: Option<seq<Asset>>): (r: seq<string>)
    ensures |r| <= SampleSize
    ensures var all := GetTradableAssets(listing);
      |r| == if |all| < SampleSize then |all| else SampleSize
    ensures r <= GetTradableAssets(listing)
  {
    var all := GetTradableAssets(listing);
    if |all| <= SampleSize then all else all[..SampleSize]
  }

  /** `run_scan`: scan the sampled symbols with the default thresholds. */
  method RunScan(listing: Option<seq<Asset>>, fetchBars: string -> Fetch) returns (results: seq<Candidate>)
    ensures results == Promising(SampleSymbols(listing), fetchBars, Defaults)
  {
    results := Scan(SampleSymbols(listing), fetchBars, Defaults);
  }
}
