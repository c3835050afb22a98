/** The VWAP strategy (backend/app/strategies/vwap.py). The VWAP column
    comes from the indicator library and is an input; the model covers the
    sign rule written into the frame and the one `run_on_trade` logs. */
module Vwap {
  import opened Series
  import opened Orders

  /** The live cycle asks the broker for two bars only. */
  const BarLimit: nat := 2

  function BuyMask(closes: seq<real>, vwap: seq<Option<real>>): (m: seq<bool>)
    requires |closes| == |vwap|
    ensures |m| == |closes|
  {
    seq(|closes|, i requires 0 <= i < |closes| => Gt(Some(closes[i]), vwap[i]))
  }

  function SellMask(closes: seq<real>, vwap: seq<Option<real>>): (m: seq<bool>)
    requires |closes| == |vwap|
    ensures |m| == |closes|
  {
    seq(|closes|, i requires 0 <= i < |closes| => Lt(Some(closes[i]), vwap[i]))
  }

  /** The `signal` column `generate_signals` leaves in the frame. */
  function Signals(closes: seq<real>, vwap: seq<Option<real>>): (r: seq<Signal>)
    requires |closes| == |vwap|
    ensures |r| == |closes|
  {
    MaskedSignal(BuyMask(closes, vwap), SellMask(closes, vwap))
  }

  /** The signal is the sign of close - VWAP: 1 above, -1 below, and 0 when
      they are equal or the VWAP is undefined. */
  lemma SignalsAt(closes: seq<real>, vwap: seq<Option<real>>, i: nat)
    requires |closes| == |vwap| && i < |closes|
    ensures Signals(closes, vwap)[i] == 1 <==> vwap[i].Some? && closes[i] > vwap[i].value
    ensures Signals(closes, vwap)[i] == -1 <==> vwap[i].Some? && closes[i] < vwap[i].value
    ensures Signals(closes, vwap)[i] == 0 <==> vwap[i].None? || closes[i] == vwap[i].value
  {
    MaskedSignalAt(BuyMask(closes, vwap), SellMask(closes, vwap), i);
  }

  /** `generate_signals`: empty bars come back without a signal column;
      otherwise a fresh column holding `Signals`. */
  method GenerateSignals(closes: seq<real>, vwap: seq<Option<real>>) returns (column: Option<array<int>>)
    requires |closes| == |vwap|
    ensures column.None? <==> |closes| == 0
    ensures column.Some? ==> fresh(column.value) && column.value[..] == Signals(closes, vwap)
  {
    if |closes| == 0 {
      column := None;
    } else {
      var signal := WriteSignalColumn(BuyMask(closes, vwap), SellMask(closes, vwap));
      column := Some(signal);
    }
  }

  /** `run_on_trade` on the broker's answer and the VWAP column of the
      fetched frame: a failed fetch raises (the call is unguarded), an empty
      frame does nothing, otherwise the comparison of the last close with
      the last VWAP. */
  function RunOnTrade(fetched: Fetch, vwap: seq<Option<real>>): (r: LogOutcome)
    requires fetched.Fetched? ==> |fetched.bars| == |vwap|
    ensures r == LogRaised <==> fetched.FetchFailed?
    ensures r == LogSkipped <==> fetched.Fetched? && |fetched.bars| == 0
  {
    match fetched
    case FetchFailed(_) => LogRaised
    case Fetched(bars) =>
      var n := |bars|;
      if n == 0 then LogSkipped
      else if Gt(Some(bars[n - 1].close), vwap[n - 1]) then Logged(BuySignal)
      else if Lt(Some(bars[n - 1].close), vwap[n - 1]) then Logged(SellSignal)
      else Logged(NoSignal)
  }

  /** The live cycle logs the decision of the last row's signal. */
  lemma RunOnTradeMatchesSignals(fetched: Fetch, vwap: seq<Option<real>>)
    requires fetched.Fetched? && |fetched.bars| == |vwap| && |vwap| >= 1
    ensures RunOnTrade(fetched, vwap) == Logged(DecisionOf(Signals(Closes(fetched.bars), vwap)[|vwap| - 1]))
  {
    SignalsAt(Closes(fetched.bars), vwap, |vwap| - 1);
  }
}
