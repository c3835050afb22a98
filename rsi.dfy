/** The RSI strategy (backend/app/strategies/rsi.py). The RSI column comes
    from the indicator library and is an input; the live cycle only logs. */
module Rsi {
  import opened Series
  import opened Orders

  datatype Params = Params(period: Window, overbought: real, oversold: real)

  const Defaults: Params := Params(14, 70.0, 30.0)

  /** The live cycle asks the broker for this many bars. */
  function BarLimit(p: Params): nat
  {
    p.period + 5
  }

  /** `run_on_trade` on the broker's answer and the RSI column of the
      fetched frame: a failed fetch raises (the call is unguarded), an empty
      frame does nothing, otherwise the overbought test on the last RSI
      comes first, then the oversold test. */
  function RunOnTrade(p: Params, fetched: Fetch, rsi: seq<Option<real>>): (r: LogOutcome)
    requires fetched.Fetched? ==> |rsi| == |fetched.bars|
    ensures r == LogRaised <==> fetched.FetchFailed?
    ensures r == LogSkipped <==> fetched.Fetched? && |fetched.bars| == 0
  {
    match fetched
    case FetchFailed(_) => LogRaised
    case Fetched(bars) =>
      var n := |rsi|;
      if n == 0 then LogSkipped
      else if Gt(rsi[n - 1], Some(p.overbought)) then Logged(SellSignal)
      else if Lt(rsi[n - 1], Some(p.oversold)) then Logged(BuySignal)
      else Logged(NoSignal)
  }

  /** A sell exactly above overbought; a buy exactly below oversold and not
      above overbought (sell wins), which with oversold at or below
      overbought is simply below oversold; nothing on a NaN RSI or between
      the levels. */
  lemma RunOnTradeDecision(p: Params, fetched: Fetch, rsi: seq<Option<real>>)
    requires fetched.Fetched? && |rsi| == |fetched.bars| > 0
    ensures var x, r := rsi[|rsi| - 1], RunOnTrade(p, fetched, rsi);
      && (r == Logged(SellSignal) <==> x.Some? && x.value > p.overbought)
      && (r == Logged(BuySignal) <==> x.Some? && x.value < p.oversold && x.value <= p.overbought)
      && (p.oversold <= p.overbought ==> (r == Logged(BuySignal) <==> x.Some? && x.value < p.oversold))
      && (r == Logged(NoSignal) <==> x.None? || p.oversold <= x.value <= p.overbought)
  {
  }
}
