/** The EMA crossover strategy (backend/app/strategies/ema_crossover.py).
    Both EMAs come from the indicator library and are inputs; the live
    cycle only logs a decision and never submits an order. */
module EmaCrossover {
  import opened Series
  import opened Orders

  datatype Params = Params(fastPeriod: Window, slowPeriod: Window)

  const Defaults: Params := Params(12, 26)

  /** The live cycle asks the broker for this many bars. */
  function BarLimit(p: Params): nat
  {
    p.slowPeriod + 5
  }

  /** `run_on_trade` on the broker's answer and the fetched frame's fast and
      slow EMA columns: a failed fetch raises (the call is unguarded), an
      empty frame does nothing, a one-row frame raises an IndexError
      (`iloc[-2]`), otherwise the crossover decision of the last two rows. */
  function RunOnTrade(fetched: Fetch, fastEma: seq<Option<real>>, slowEma: seq<Option<real>>): (r: LogOutcome)
    requires fetched.Fetched? ==> |fetched.bars| == |fastEma| == |slowEma|
    ensures r == LogRaised <==> fetched.FetchFailed? || |fetched.bars| == 1
    ensures r == LogSkipped <==> fetched.Fetched? && |fetched.bars| == 0
    ensures var n := |fastEma|;
      fetched.Fetched? && n >= 2 ==>
        && (r == Logged(BuySignal) <==> CrossedAbove(fastEma[n - 1], slowEma[n - 1], fastEma[n - 2], slowEma[n - 2]))
        && (r == Logged(SellSignal) <==> CrossedBelow(fastEma[n - 1], slowEma[n - 1], fastEma[n - 2], slowEma[n - 2]))
        && (r == Logged(NoSignal) <==>
             (fastEma[n - 1].None? || slowEma[n - 1].None? || fastEma[n - 2].None? || slowEma[n - 2].None?
              || fastEma[n - 1].value == slowEma[n - 1].value
              || (fastEma[n - 1].value > slowEma[n - 1].value && fastEma[n - 2].value > slowEma[n - 2].value)
              || (fastEma[n - 1].value < slowEma[n - 1].value && fastEma[n - 2].value < slowEma[n - 2].value)))
  {
    match fetched
    case FetchFailed(_) => LogRaised
    case Fetched(bars) =>
      var n := |fastEma|;
      if n == 0 then LogSkipped
      else if n < 2 then LogRaised
      else Logged(CrossoverDecision(fastEma[n - 1], slowEma[n - 1], fastEma[n - 2], slowEma[n - 2]))
  }
}
