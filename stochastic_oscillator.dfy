/** The stochastic oscillator strategy
    (backend/app/strategies/stochastic_oscillator.py). %K and %D come from
    the indicator library and are inputs; the model covers the threshold
    rule written into the frame and the one `run_on_trade` logs. */
module StochasticOscillator {
  import opened Series
  import opened Orders

  datatype Params = Params(kPeriod: Window, dPeriod: Window, overbought: real, oversold: real)

  const Defaults: Params := Params(14, 3, 80.0, 20.0)

  /** The live cycle asks the broker for this many bars. */
  function BarLimit(p: Params): nat
  {
    p.kPeriod + p.dPeriod
  }

  /** Both lines below the oversold level. */
  predicate Oversold(p: Params, k: Option<real>, d: Option<real>)
  {
    Lt(k, Some(p.oversold)) && Lt(d, Some(p.oversold))
  }

  /** Both lines above the overbought level. */
  predicate Overbought(p: Params, k: Option<real>, d: Option<real>)
  {
    Gt(k, Some(p.overbought)) && Gt(d, Some(p.overbought))
  }

  /** The `signal` column: the oversold rows are written 1 first, then the
      overbought rows -1, so -1 wins where both hold. */
  function Signals(p: Params, k: seq<Option<real>>, d: seq<Option<real>>): (r: seq<Signal>)
    requires |k| == |d|
    ensures |r| == |k|
  {
    MaskedSignal(seq(|k|, i requires 0 <= i < |k| => Oversold(p, k[i], d[i])),
                 seq(|k|, i requires 0 <= i < |k| => Overbought(p, k[i], d[i])))
  }

  /** Row `i` is -1 exactly when overbought, 1 exactly when oversold and not
      overbought, and 0 otherwise; with oversold at or below overbought the
      two never meet, so 1 is exactly oversold. */
  lemma SignalsAt(p: Params, k: seq<Option<real>>, d: seq<Option<real>>, i: nat)
    requires |k| == |d| && i < |k|
    ensures Signals(p, k, d)[i] == -1 <==> Overbought(p, k[i], d[i])
    ensures Signals(p, k, d)[i] == 1 <==> Oversold(p, k[i], d[i]) && !Overbought(p, k[i], d[i])
    ensures Signals(p, k, d)[i] == 0 <==> !Oversold(p, k[i], d[i]) && !Overbought(p, k[i], d[i])
    ensures p.oversold <= p.overbought ==> (Signals(p, k, d)[i] == 1 <==> Oversold(p, k[i], d[i]))
  {
    MaskedSignalAt(seq(|k|, i requires 0 <= i < |k| => Oversold(p, k[i], d[i])),
                   seq(|k|, i requires 0 <= i < |k| => Overbought(p, k[i], d[i])), i);
  }

  /** `generate_signals`: empty bars come back without a signal column;
      otherwise a fresh column holding `Signals`. */
  method GenerateSignals(p: Params, k: seq<Option<real>>, d: seq<Option<real>>) returns (column: Option<array<int>>)
    requires |k| == |d|
    ensures column.None? <==> |k| == 0
    ensures column.Some? ==> fresh(column.value) && column.value[..] == Signals(p, k, d)
  {
    if |k| == 0 {
      column := None;
    } else {
      var signal := WriteSignalColumn(seq(|k|, i requires 0 <= i < |k| => Oversold(p, k[i], d[i])),
                                      seq(|k|, i requires 0 <= i < |k| => Overbought(p, k[i], d[i])));
      column := Some(signal);
    }
  }

  /** `run_on_trade` on the broker's answer and the %K and %D columns of
      the fetched frame: a failed fetch raises (the call is unguarded), an
      empty frame does nothing, otherwise the sell test on the last row
      comes first, then the buy test. */
  function RunOnTrade(p: Params, fetched: Fetch, k: seq<Option<real>>, d: seq<Option<real>>): (r: LogOutcome)
    requires fetched.Fetched? ==> |fetched.bars| == |k| == |d|
    ensures r == LogRaised <==> fetched.FetchFailed?
    ensures r == LogSkipped <==> fetched.Fetched? && |fetched.bars| == 0
  {
    match fetched
    case FetchFailed(_) => LogRaised
    case Fetched(bars) =>
      var n := |k|;
      if n == 0 then LogSkipped
      else if Overbought(p, k[n - 1], d[n - 1]) then Logged(SellSignal)
      else if Oversold(p, k[n - 1], d[n - 1]) then Logged(BuySignal)
      else Logged(NoSignal)
  }

  /** Because both the column and the live cycle let the sell test win, the
      logged decision is always the last row's signal, whatever the
      thresholds. */
  lemma RunOnTradeMatchesSignals(p: Params, fetched: Fetch, k: seq<Option<real>>, d: seq<Option<real>>)
    requires fetched.Fetched? && |fetched.bars| == |k| == |d| && |k| >= 1
    ensures RunOnTrade(p, fetched, k, d) == Logged(DecisionOf(Signals(p, k, d)[|k| - 1]))
  {
    SignalsAt(p, k, d, |k| - 1);
  }
}
