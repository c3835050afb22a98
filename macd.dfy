/** The MACD strategy (backend/app/strategies/macd.py). The MACD line and
    its signal line come from the indicator library and are inputs; the
    model covers the crossover rule that `generate_signals` writes into the
    frame and the one that `run_on_trade` logs. */
module Macd {
  import opened Series
  import opened Orders

  datatype Params = Params(fast: Window, slow: Window, signal: Window)

  const Defaults: Params := Params(12, 26, 9)

  /** The live cycle asks the broker for this many bars. */
  function BarLimit(p: Params): nat
  {
    p.slow + p.signal
  }

  /** Rows where the MACD line crosses above its signal line. `shift(1)` is
      NaN on the first row, so row 0 never crosses. */
  function BuyMask(macd: seq<Option<real>>, signalLine: seq<Option<real>>): (m: seq<bool>)
    requires |macd| == |signalLine|
    ensures |m| == |macd|
  {
    seq(|macd|, i requires 0 <= i < |macd| =>
      i > 0 && CrossedAbove(macd[i], signalLine[i], macd[i - 1], signalLine[i - 1]))
  }

  /** Rows where the MACD line crosses below its signal line. */
  function SellMask(macd: seq<Option<real>>, signalLine: seq<Option<real>>): (m: seq<bool>)
    requires |macd| == |signalLine|
    ensures |m| == |macd|
  {
    seq(|macd|, i requires 0 <= i < |macd| =>
      i > 0 && CrossedBelow(macd[i], signalLine[i], macd[i - 1], signalLine[i - 1]))
  }

  /** The `signal` column `generate_signals` leaves in the frame. */
  function Signals(macd: seq<Option<real>>, signalLine: seq<Option<real>>): (r: seq<Signal>)
    requires |macd| == |signalLine|
    ensures |r| == |macd|
  {
    MaskedSignal(BuyMask(macd, signalLine), SellMask(macd, signalLine))
  }

  /** Row `i` is 1 exactly on an upward crossover, -1 exactly on a downward
      one and 0 on every other row, the first row included. */
  lemma SignalsAt(macd: seq<Option<real>>, signalLine: seq<Option<real>>, i: nat)
    requires |macd| == |signalLine| && i < |macd|
    ensures Signals(macd, signalLine)[i] == 1 <==>
      i > 0 && CrossedAbove(macd[i], signalLine[i], macd[i - 1], signalLine[i - 1])
    ensures Signals(macd, signalLine)[i] == -1 <==>
      i > 0 && CrossedBelow(macd[i], signalLine[i], macd[i - 1], signalLine[i - 1])
    ensures i == 0 ==> Signals(macd, signalLine)[i] == 0
  {
    MaskedSignalAt(BuyMask(macd, signalLine), SellMask(macd, signalLine), i);
    if i > 0 {
      CrossingsExclusive(macd[i], signalLine[i], macd[i - 1], signalLine[i - 1]);
    }
  }

  /** `generate_signals`: empty bars come back without a signal column;
      otherwise a fresh column holding `Signals`. */
  method GenerateSignals(macd: seq<Option<real>>, signalLine: seq<Option<real>>) returns (column: Option<array<int>>)
    requires |macd| == |signalLine|
    ensures column.None? <==> |macd| == 0
    ensures column.Some? ==> fresh(column.value) && column.value[..] == Signals(macd, signalLine)
  {
    if |macd| == 0 {
      column := None;
    } else {
      var signal := WriteSignalColumn(BuyMask(macd, signalLine), SellMask(macd, signalLine));
      column := Some(signal);
    }
  }

  /** `run_on_trade` on the broker's answer and the fetched frame's MACD and
      signal columns: a failed fetch raises (the call is unguarded), an
      empty frame does nothing, a one-row frame raises an IndexError
      (`iloc[-2]`), otherwise the logged decision of the last two rows. */
  function RunOnTrade(fetched: Fetch, macd: seq<Option<real>>, signalLine: seq<Option<real>>): (r: LogOutcome)
    requires fetched.Fetched? ==> |fetched.bars| == |macd| == |signalLine|
    ensures r == LogRaised <==> fetched.FetchFailed? || |fetched.bars| == 1
    ensures r == LogSkipped <==> fetched.Fetched? && |fetched.bars| == 0
  {
    match fetched
    case FetchFailed(_) => LogRaised
    case Fetched(bars) =>
      var n := |macd|;
      if n == 0 then LogSkipped
      else if n < 2 then LogRaised
      else Logged(CrossoverDecision(macd[n - 1], signalLine[n - 1], macd[n - 2], signalLine[n - 2]))
  }

  /** The live cycle logs exactly the decision the backtest column holds on
      the last row. */
  lemma RunOnTradeMatchesSignals(fetched: Fetch, macd: seq<Option<real>>, signalLine: seq<Option<real>>)
    requires fetched.Fetched? && |fetched.bars| == |macd| == |signalLine| && |macd| >= 2
    ensures RunOnTrade(fetched, macd, signalLine) == Logged(DecisionOf(Signals(macd, signalLine)[|macd| - 1]))
  {
    SignalsAt(macd, signalLine, |macd| - 1);
  }
}
