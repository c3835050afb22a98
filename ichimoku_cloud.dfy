/** The Ichimoku cloud strategy (backend/app/strategies/ichimoku_cloud.py).
    The two leading spans come from the indicator library and are inputs;
    the live cycle only logs. */
module IchimokuCloud {
  import opened Series
  import opened Orders

  datatype Params = Params(tenkan: Window, kijun: Window, senkou: Window)

  const Defaults: Params := Params(9, 26, 52)

  /** The live cycle asks the broker for this many bars. */
  function BarLimit(p: Params): nat
  {
    p.senkou + 5
  }

  /** `run_on_trade` on the broker's answer and the span columns of the
      fetched frame: a failed fetch raises (the call is unguarded), an empty
      frame does nothing, otherwise buy above both spans, else sell below
      both. */
  function RunOnTrade(fetched: Fetch, spanA: seq<Option<real>>, spanB: seq<Option<real>>): (r: LogOutcome)
    requires fetched.Fetched? ==> |fetched.bars| == |spanA| == |spanB|
    ensures r == LogRaised <==> fetched.FetchFailed?
    ensures r == LogSkipped <==> fetched.Fetched? && |fetched.bars| == 0
  {
    match fetched
    case FetchFailed(_) => LogRaised
    case Fetched(bars) =>
      var n := |bars|;
      if n == 0 then LogSkipped
      else
        var c := Some(bars[n - 1].close);
        if Gt(c, spanA[n - 1]) && Gt(c, spanB[n - 1]) then Logged(BuySignal)
        else if Lt(c, spanA[n - 1]) && Lt(c, spanB[n - 1]) then Logged(SellSignal)
        else Logged(NoSignal)
  }

  /** With both spans defined: a buy exactly above the top of the cloud, a
      sell exactly below its bottom, and nothing inside it or on its edges;
      an undefined span gives nothing. */
  lemma RunOnTradeDecision(fetched: Fetch, spanA: seq<Option<real>>, spanB: seq<Option<real>>)
    requires fetched.Fetched? && |fetched.bars| == |spanA| == |spanB| && |spanA| > 0
    ensures var n, r := |spanA|, RunOnTrade(fetched, spanA, spanB);
      var c, a, b := fetched.bars[n - 1].close, spanA[n - 1], spanB[n - 1];
      && (a.Some? && b.Some? ==>
           && (r == Logged(BuySignal) <==> c > Max(a.value, b.value))
           && (r == Logged(SellSignal) <==> c < Min(a.value, b.value))
           && (r == Logged(NoSignal) <==> Min(a.value, b.value) <= c <= Max(a.value, b.value)))
      && (a.None? || b.None? ==> r == Logged(NoSignal))
  {
  }
}
