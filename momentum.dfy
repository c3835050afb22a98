/** The momentum strategy (backend/app/strategies/momentum.py). The
    momentum column is computed in the repository itself, as the difference
    of each close with the close `momentum_period` bars earlier. */
module Momentum {
  import opened Series
  import opened Orders

  datatype Params = Params(momentumPeriod: Window)

  const Defaults: Params := Params(14)

  /** The live cycle asks the broker for this many bars. */
  function BarLimit(p: Params): nat
  {
    p.momentumPeriod + 5
  }

  /** `close.diff(period)`: undefined on the first `period` rows. */
  function MomentumSeries(closes: seq<real>, period: Window): (r: seq<Option<real>>)
    ensures |r| == |closes|
  {
    seq(|closes|, i requires 0 <= i < |closes| =>
      if i >= period then Some(closes[i] - closes[i - period]) else None)
  }

  /** `run_on_trade` on the broker's answer: a failed fetch raises (the
      call is unguarded), an empty frame does nothing, otherwise buy on
      positive, sell on negative latest momentum. */
  function RunOnTrade(p: Params, fetched: Fetch): (r: LogOutcome)
    ensures r == LogRaised <==> fetched.FetchFailed?
    ensures r == LogSkipped <==> fetched.Fetched? && |fetched.bars| == 0
  {
    match fetched
    case FetchFailed(_) => LogRaised
    case Fetched(bars) =>
      if |bars| == 0 then LogSkipped
      else
        var latest := MomentumSeries(Closes(bars), p.momentumPeriod)[|bars| - 1];
        if Gt(latest, Some(0.0)) then Logged(BuySignal)
        else if Lt(latest, Some(0.0)) then Logged(SellSignal)
        else Logged(NoSignal)
  }

  /** In terms of the closes: a buy exactly when the last close is above the
      close `period` bars before it, a sell exactly when it is below, and no
      signal when the two are equal or the frame is not longer than the
      period (undefined momentum). */
  lemma RunOnTradeDecision(p: Params, fetched: Fetch)
    requires fetched.Fetched? && |fetched.bars| > 0
    ensures var bars, r := fetched.bars, RunOnTrade(p, fetched);
      var n, k := |bars|, p.momentumPeriod;
      && (r == Logged(BuySignal) <==> n > k && bars[n - 1].close > bars[n - 1 - k].close)
      && (r == Logged(SellSignal) <==> n > k && bars[n - 1].close < bars[n - 1 - k].close)
      && (r == Logged(NoSignal) <==> n <= k || bars[n - 1].close == bars[n - 1 - k].close)
  {
  }
}
