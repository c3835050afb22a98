/** The mean-reversion strategy (backend/app/strategies/mean_reversion.py).
    The SMA comes from the indicator library and the rolling standard
    deviation from pandas; both are inputs. The model covers the band rule
    written into the frame and the one `run_on_trade` logs. */
module MeanReversion {
  import opened Series
  import opened Orders

  datatype Params = Params(smaPeriod: Window, deviationThreshold: real)

  const Defaults: Params := Params(20, 2.0)

  /** The live cycle asks the broker for this many bars. */
  function BarLimit(p: Params): nat
  {
    p.smaPeriod + 5
  }

  /** `sma - threshold * std`, NaN when either input is. */
  function LowerBand(p: Params, sma: Option<real>, std: Option<real>): (b: Option<real>)
    ensures b.Some? <==> sma.Some? && std.Some?
  {
    if sma.Some? && std.Some? then Some(sma.value - p.deviationThreshold * std.value) else None
  }

  /** `sma + threshold * std`, NaN when either input is. */
  function UpperBand(p: Params, sma: Option<real>, std: Option<real>): (b: Option<real>)
    ensures b.Some? <==> sma.Some? && std.Some?
  {
    if sma.Some? && std.Some? then Some(sma.value + p.deviationThreshold * std.value) else None
  }

  predicate BelowBand(p: Params, close: real, sma: Option<real>, std: Option<real>)
  {
    Lt(Some(close), LowerBand(p, sma, std))
  }

  predicate AboveBand(p: Params, close: real, sma: Option<real>, std: Option<real>)
  {
    Gt(Some(close), UpperBand(p, sma, std))
  }

  /** With a non-negative deviation and threshold the lower band is not above
      the upper one, so no close is below the first and above the second; a
      close on a band or an undefined SMA or deviation is neither. */
  lemma BandsExclusive(p: Params, close: real, sma: Option<real>, std: Option<real>)
    requires p.deviationThreshold >= 0.0
    requires std.Some? ==> std.value >= 0.0
    ensures !(BelowBand(p, close, sma, std) && AboveBand(p, close, sma, std))
    ensures sma.None? || std.None? ==> !BelowBand(p, close, sma, std) && !AboveBand(p, close, sma, std)
    ensures LowerBand(p, sma, std) == Some(close) || UpperBand(p, sma, std) == Some(close) ==>
      !BelowBand(p, close, sma, std) && !AboveBand(p, close, sma, std)
  {
    if sma.Some? && std.Some? {
      NonNegativeProduct(p.deviationThreshold, std.value);
    }
  }

  lemma NonNegativeProduct(x: real, y: real)
    requires x >= 0.0 && y >= 0.0
    ensures x * y >= 0.0
  {
  }

  function BuyMask(p: Params, closes: seq<real>, sma: seq<Option<real>>, std: seq<Option<real>>): (m: seq<bool>)
    requires |closes| == |sma| == |std|
    ensures |m| == |closes|
  {
    seq(|closes|, i requires 0 <= i < |closes| => BelowBand(p, closes[i], sma[i], std[i]))
  }

  function SellMask(p: Params, closes: seq<real>, sma: seq<Option<real>>, std: seq<Option<real>>): (m: seq<bool>)
    requires |closes| == |sma| == |std|
    ensures |m| == |closes|
  {
    seq(|closes|, i requires 0 <= i < |closes| => AboveBand(p, closes[i], sma[i], std[i]))
  }

  /** The `signal` column `generate_signals` leaves in the frame. */
  function Signals(p: Params, closes: seq<real>, sma: seq<Option<real>>, std: seq<Option<real>>): (r: seq<Signal>)
    requires |closes| == |sma| == |std|
    ensures |r| == |closes|
  {
    MaskedSignal(BuyMask(p, closes, sma, std), SellMask(p, closes, sma, std))
  }

  /** Row `i` is -1 exactly above the upper band; with a non-negative
      deviation and threshold it is 1 exactly below the lower band, and 0
      on or between the bands. */
  lemma SignalsAt(p: Params, closes: seq<real>, sma: seq<Option<real>>, std: seq<Option<real>>, i: nat)
    requires |closes| == |sma| == |std| && i < |closes|
    requires p.deviationThreshold >= 0.0
    requires std[i].Some? ==> std[i].value >= 0.0
    ensures Signals(p, closes, sma, std)[i] == -1 <==> AboveBand(p, closes[i], sma[i], std[i])
    ensures Signals(p, closes, sma, std)[i] == 1 <==> BelowBand(p, closes[i], sma[i], std[i])
    ensures Signals(p, closes, sma, std)[i] == 0 <==>
      !BelowBand(p, closes[i], sma[i], std[i]) && !AboveBand(p, closes[i], sma[i], std[i])
  {
    MaskedSignalAt(BuyMask(p, closes, sma, std), SellMask(p, closes, sma, std), i);
    BandsExclusive(p, closes[i], sma[i], std[i]);
  }

  /** `generate_signals`: empty bars come back without a signal column;
      otherwise a fresh column holding `Signals`. */
  method GenerateSignals(p: Params, closes: seq<real>, sma: seq<Option<real>>, std: seq<Option<real>>)
    returns (column: Option<array<int>>)
    requires |closes| == |sma| == |std|
    ensures column.None? <==> |closes| == 0
    ensures column.Some? ==> fresh(column.value) && column.value[..] == Signals(p, closes, sma, std)
  {
    if |closes| == 0 {
      column := None;
    } else {
      var signal := WriteSignalColumn(BuyMask(p, closes, sma, std), SellMask(p, closes, sma, std));
      column := Some(signal);
    }
  }

  /** `run_on_trade` on the broker's answer and the rolling mean and
      deviation columns of the fetched frame: a failed fetch raises (the
      call is unguarded), an empty frame does nothing, otherwise the buy
      test on the last row, then the sell test. */
  function RunOnTrade(p: Params, fetched: Fetch, sma: seq<Option<real>>, std: seq<Option<real>>): (r: LogOutcome)
    requires fetched.Fetched? ==> |fetched.bars| == |sma| == |std|
    ensures r == LogRaised <==> fetched.FetchFailed?
    ensures r == LogSkipped <==> fetched.Fetched? && |fetched.bars| == 0
  {
    match fetched
    case FetchFailed(_) => LogRaised
    case Fetched(bars) =>
      var n := |bars|;
      if n == 0 then LogSkipped
      else if BelowBand(p, bars[n - 1].close, sma[n - 1], std[n - 1]) then Logged(BuySignal)
      else if AboveBand(p, bars[n - 1].close, sma[n - 1], std[n - 1]) then Logged(SellSignal)
      else Logged(NoSignal)
  }

  /** The live cycle tests buy first and the column lets sell win, yet with a
      non-negative deviation and threshold the two agree on the last row. */
  lemma RunOnTradeMatchesSignals(p: Params, fetched: Fetch, sma: seq<Option<real>>, std: seq<Option<real>>)
    requires fetched.Fetched? && |fetched.bars| == |sma| == |std| && |sma| >= 1
    requires p.deviationThreshold >= 0.0
    requires std[|sma| - 1].Some? ==> std[|sma| - 1].value >= 0.0
    ensures RunOnTrade(p, fetched, sma, std) == Logged(DecisionOf(Signals(p, Closes(fetched.bars), sma, std)[|sma| - 1]))
  {
    SignalsAt(p, Closes(fetched.bars), sma, std, |sma| - 1);
  }
}
