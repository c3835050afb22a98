/** The Bollinger Bands strategy (backend/app/strategies/bollinger_bands.py).
    The bands come from the indicator library and are inputs; the live
    cycle only logs. */
module BollingerBands {
  import opened Series
  import opened Orders

  datatype Params = Params(length: Window, stdDev: real)

  const Defaults: Params := Params(20, 2.0)

  /** The live cycle asks the broker for this many bars. */
  function BarLimit(p: Params): nat
  {
    p.length + 5
  }

  /** `run_on_trade` on the broker's answer and the band columns of the
      fetched frame: a failed fetch raises (the call is unguarded), an empty
      frame does nothing, otherwise buy below the last lower band, else sell
      above the last upper band. */
  function RunOnTrade(fetched: Fetch, lower: seq<Option<real>>, upper: seq<Option<real>>): (r: LogOutcome)
    requires fetched.Fetched? ==> |fetched.bars| == |lower| == |upper|
    ensures r == LogRaised <==> fetched.FetchFailed?
    ensures r == LogSkipped <==> fetched.Fetched? && |fetched.bars| == 0
  {
    match fetched
    case FetchFailed(_) => LogRaised
    case Fetched(bars) =>
      var n := |bars|;
      if n == 0 then LogSkipped
      else if Lt(Some(bars[n - 1].close), lower[n - 1]) then Logged(BuySignal)
      else if Gt(Some(bars[n - 1].close), upper[n - 1]) then Logged(SellSignal)
      else Logged(NoSignal)
  }

  /** A buy exactly below the lower band; with the lower band at or below
      the upper one, a sell exactly above the upper band and nothing on or
      between the bands; undefined bands give nothing. */
  lemma RunOnTradeDecision(fetched: Fetch, lower: seq<Option<real>>, upper: seq<Option<real>>)
    requires fetched.Fetched? && |fetched.bars| == |lower| == |upper| && |lower| > 0
    ensures var n, r := |lower|, RunOnTrade(fetched, lower, upper);
      var c, lo, hi := fetched.bars[n - 1].close, lower[n - 1], upper[n - 1];
      && (r == Logged(BuySignal) <==> lo.Some? && c < lo.value)
      && (lo.Some? && hi.Some? && lo.value <= hi.value ==>
           && (r == Logged(SellSignal) <==> c > hi.value)
           && (r == Logged(NoSignal) <==> lo.value <= c <= hi.value))
      && (lo.None? && hi.None? ==> r == Logged(NoSignal))
  {
  }
}
