/** The Awesome Oscillator strategy (backend/app/strategies/awesome_oscillator.py).
    The AO column comes from the indicator library and is an input; the
    model covers the zero-line crossover decision against the holding, the
    bracket order's quantity and prices, and the early returns. */
module AwesomeOscillator {
  import opened Series
  import opened Orders

  datatype Params = Params(fast: Window, slow: Window, tradePercentage: real, takeProfitPct: real, stopLossPct: real)

  const Defaults: Params := Params(5, 34, 0.05, 0.05, 0.02)

  /** The live cycle asks the broker for this many bars. */
  function BarLimit(p: Params): nat
  {
    p.slow + 5
  }

  /** Python's `int()` on a float: truncation toward zero. */
  function TruncToInt(x: real): (n: int)
    ensures x >= 0.0 ==> 0 <= n && n as real <= x < n as real + 1.0
    ensures x < 0.0 ==> n <= 0 && x <= n as real < x + 1.0
  {
    if x >= 0.0 then x.Floor else -((-x).Floor)
  }

  /** The oscillator crossed from below zero to above it. */
  predicate CrossedUp(latest: Option<real>, previous: Option<real>)
  {
    Gt(latest, Some(0.0)) && Lt(previous, Some(0.0))
  }

  /** The oscillator crossed from above zero to below it. */
  predicate CrossedDown(latest: Option<real>, previous: Option<real>)
  {
    Lt(latest, Some(0.0)) && Gt(previous, Some(0.0))
  }

  /** The bracket's take-profit and stop prices around the last close. */
  function TakeProfitPrice(p: Params, last: real): real { last * (1.0 + p.takeProfitPct) }
  function StopLossPrice(p: Params, last: real): real { last * (1.0 - p.stopLossPct) }

  /** `int(buying_power * trade_percentage / last)`, or None where that
      raises: with a zero last close the division gives an infinity or NaN
      and `int()` refuses it. Otherwise the quotient truncated toward zero:
      for a non-negative quotient the whole number of shares the traded
      share of buying power pays for, positive exactly when that pays for
      at least one share. */
  function BuyQuantity(p: Params, buyingPower: real, last: real): (q: Option<int>)
    ensures q.None? <==> last == 0.0
    ensures q.Some? ==> var x := Shares(p, buyingPower, last);
      && (x >= 0.0 ==> 0 <= q.value && q.value as real <= x < q.value as real + 1.0)
      && (x < 0.0 ==> q.value <= 0 && x <= q.value as real < x + 1.0)
      && (q.value > 0 <==> x >= 1.0)
  {
    if last == 0.0 then None else Some(TruncToInt(Shares(p, buyingPower, last)))
  }

  /** `buying_power * trade_percentage / last`: the number of shares, as a
      fraction, that the traded share of buying power pays for. */
  function Shares(p: Params, buyingPower: real, last: real): real
    requires last != 0.0
  {
    buyingPower * p.tradePercentage / last
  }

  /** `run_on_trade` as the cycle is evidently meant to run: given the
      broker's answer to the bar request, the AO column computed on the
      fetched bars, the broker's answer to the position lookup made without
      `await` (None when it raised) and the account's buying power, notify
      and then send the bracket buy or the sell. A failed fetch raises (the
      call is unguarded). */
  function RunOnTrade(p: Params, fetched: Fetch, ao: seq<Option<real>>, positionLookup: Option<real>, buyingPower: real): (r: Outcome)
    requires fetched.Fetched? ==> |ao| == |fetched.bars|
    ensures fetched.FetchFailed? ==> r == Raised
    ensures fetched.Fetched? && |fetched.bars| < p.slow ==> r == Skipped
    ensures r.Submitted? ==> fetched.Fetched? && |fetched.bars| >= 2 && |fetched.bars| >= p.slow
  {
    match fetched
    case FetchFailed(_) => Raised
    case Fetched(bars) =>
      if |bars| < p.slow then Skipped
      else if |bars| < 2 then Raised
      else
        var latest, previous := ao[|bars| - 1], ao[|bars| - 2];
        var current := HeldQuantity(positionLookup);
        if CrossedUp(latest, previous) && current == 0.0 then
          var last := bars[|bars| - 1].close;
          match BuyQuantity(p, buyingPower, last)
          case None => Raised
          case Some(qty) =>
            if qty > 0 then Submitted(BracketBuy(qty as real, TakeProfitPrice(p, last), StopLossPrice(p, last)))
            else NoOrder
        else if CrossedDown(latest, previous) && current > 0.0 then
          Submitted(MarketSell(current))
        else NoOrder
  }

  /** `run_on_trade` as written. `get_position` awaits the broker client's
      `get_position`, an ordinary call rather than a coroutine, so the
      `await` raises a TypeError that the `except` turns into 0.0: whatever
      the broker holds, the cycle reads a holding of 0 and the sell branch
      never runs. The strategy never sets `telegram_service` (neither its
      constructor nor the base class does), so the buy branch raises an
      AttributeError at the notification, before the account is read or an
      order is sent. */
  function RunOnTradeAsWritten(p: Params, fetched: Fetch, ao: seq<Option<real>>): (r: Outcome)
    requires fetched.Fetched? ==> |ao| == |fetched.bars|
    ensures !r.Submitted?
    ensures r == Skipped <==> fetched.Fetched? && |fetched.bars| < p.slow
  {
    match fetched
    case FetchFailed(_) => Raised
    case Fetched(bars) =>
      if |bars| < p.slow then Skipped
      else if |bars| < 2 then Raised
      else
        var latest, previous := ao[|bars| - 1], ao[|bars| - 2];
        // The holding always reads 0.0, so only the buy test can pass.
        if CrossedUp(latest, previous) then Raised
        else NoOrder
  }

  /** As written, the cycle raises exactly on a failed fetch, a one-bar
      frame past the length guard, or an upward cross, whatever the broker
      holds; a downward cross never raises and never sells. Where it does
      not raise it acts as the intended cycle would with nothing held. */
  lemma AsWrittenRaisesOnUpCross(p: Params, fetched: Fetch, ao: seq<Option<real>>, buyingPower: real)
    requires fetched.Fetched? ==> |ao| == |fetched.bars|
    ensures fetched.FetchFailed? ==> RunOnTradeAsWritten(p, fetched, ao) == Raised
    ensures fetched.Fetched? ==>
      var r, bars := RunOnTradeAsWritten(p, fetched, ao), fetched.bars;
      && (r == Raised <==>
           || (|bars| >= p.slow && |bars| < 2)
           || (|bars| >= p.slow && |bars| >= 2 && CrossedUp(ao[|bars| - 1], ao[|bars| - 2])))
      && (|bars| >= p.slow && |bars| >= 2 && CrossedDown(ao[|bars| - 1], ao[|bars| - 2]) ==> r == NoOrder)
    ensures RunOnTradeAsWritten(p, fetched, ao) != Raised ==>
      RunOnTradeAsWritten(p, fetched, ao) == RunOnTrade(p, fetched, ao, None, buyingPower)
  {
  }

  /** A concrete cycle that shows the lost sell: the oscillator crosses
      from 1 to -1 with 3 shares held. The intended cycle sells the 3
      shares; as written the holding reads 0 and nothing is sent. */
  lemma AwaitedLookupDropsSell(b0: Bar, b1: Bar)
    ensures var p, fetched, ao := Params(5, 2, 0.05, 0.05, 0.02), Fetched([b0, b1]), [Some(1.0), Some(-1.0)];
      && RunOnTrade(p, fetched, ao, Some(3.0), 1000.0) == Submitted(MarketSell(3.0))
      && RunOnTradeAsWritten(p, fetched, ao) == NoOrder
  {
  }

  /** A concrete cycle that shows the ignored holding: the oscillator
      crosses from -1 to 1 with 3 shares held. The intended cycle buys no
      more; as written the holding reads 0 and the buy branch raises. */
  lemma AwaitedLookupRaisesWhileHolding(b0: Bar, b1: Bar)
    ensures var p, fetched, ao := Params(5, 2, 0.05, 0.05, 0.02), Fetched([b0, b1]), [Some(-1.0), Some(1.0)];
      && RunOnTrade(p, fetched, ao, Some(3.0), 1000.0) == NoOrder
      && RunOnTradeAsWritten(p, fetched, ao) == Raised
  {
  }

  /** A concrete cycle that shows the difference: the oscillator crosses
      from -1 to 1 with nothing held, a buying power of 1000 and a last
      close of 10. The intended cycle buys 5 shares with a take-profit at
      10.5 and a stop at 9.8; as written it raises before the order. */
  lemma TelegramRaisesBeforeBracket(b0: Bar, b1: Bar)
    requires b1.close == 10.0
    ensures var p, fetched, ao := Params(5, 2, 0.05, 0.05, 0.02), Fetched([b0, b1]), [Some(-1.0), Some(1.0)];
      && RunOnTrade(p, fetched, ao, None, 1000.0) == Submitted(BracketBuy(5.0, 10.5, 9.8))
      && RunOnTradeAsWritten(p, fetched, ao) == Raised
  {
    var p := Params(5, 2, 0.05, 0.05, 0.02);
    assert Shares(p, 1000.0, 10.0) == 5.0;
    assert BuyQuantity(p, 1000.0, 10.0) == Some(5);
  }

  /** The two crossovers never hold together, and an oscillator value of
      exactly 0 (or NaN) on either bar triggers neither. */
  lemma CrossoversExclusive(latest: Option<real>, previous: Option<real>)
    ensures !(CrossedUp(latest, previous) && CrossedDown(latest, previous))
    ensures latest == Some(0.0) || previous == Some(0.0) || latest.None? || previous.None? ==>
      !CrossedUp(latest, previous) && !CrossedDown(latest, previous)
  {
  }

  /** With a positive last close and percentages strictly between 0 and 1,
      the stop lies strictly between 0 and the close, and the take-profit
      strictly above it. */
  lemma BracketAroundClose(p: Params, last: real)
    requires last > 0.0
    requires 0.0 < p.takeProfitPct && 0.0 < p.stopLossPct < 1.0
    ensures 0.0 < StopLossPrice(p, last) < last < TakeProfitPrice(p, last)
  {
    assert last * p.stopLossPct > 0.0;
    assert last * p.takeProfitPct > 0.0;
  }

  /** In the intended cycle, a bracket buy is sent exactly when the
      oscillator crossed up, nothing is held, the close is not zero and the
      traded share of buying power pays for at least one share; its
      quantity is then that whole number of shares, with the bracket prices
      around the close. */
  lemma RunOnTradeBuy(p: Params, fetched: Fetch, ao: seq<Option<real>>, positionLookup: Option<real>, buyingPower: real)
    requires fetched.Fetched? && |ao| == |fetched.bars| && |ao| >= 2 && |ao| >= p.slow
    ensures var r, bars := RunOnTrade(p, fetched, ao, positionLookup, buyingPower), fetched.bars;
      var last := bars[|bars| - 1].close;
      && (r.Submitted? && r.order.BracketBuy? <==>
           && CrossedUp(ao[|bars| - 1], ao[|bars| - 2]) && HeldQuantity(positionLookup) == 0.0
           && last != 0.0 && Shares(p, buyingPower, last) >= 1.0)
      && (r.Submitted? && r.order.BracketBuy? ==>
           && r.order.qty == BuyQuantity(p, buyingPower, last).value as real
           && r.order.qty <= Shares(p, buyingPower, last) < r.order.qty + 1.0
           && r.order.takeProfit == last * (1.0 + p.takeProfitPct)
           && r.order.stopLoss == last * (1.0 - p.stopLossPct))
  {
    var last := fetched.bars[|ao| - 1].close;
    if last != 0.0 {
      PositiveQuantity(p, buyingPower, last);
    }
  }

  /** A positive quantity is the truncation of a quotient of at least 1. */
  lemma PositiveQuantity(p: Params, buyingPower: real, last: real)
    requires last != 0.0
    ensures BuyQuantity(p, buyingPower, last).value > 0 <==> Shares(p, buyingPower, last) >= 1.0
    ensures BuyQuantity(p, buyingPower, last).value > 0 ==>
      var q := BuyQuantity(p, buyingPower, last).value as real;
      q <= Shares(p, buyingPower, last) < q + 1.0
  {
    var x := Shares(p, buyingPower, last);
    assert BuyQuantity(p, buyingPower, last) == Some(TruncToInt(x));
  }

  /** In the intended cycle, the whole holding is sold exactly when the
      oscillator crossed down and something is held; with a holding, an
      upward cross never buys more. */
  lemma RunOnTradeSell(p: Params, fetched: Fetch, ao: seq<Option<real>>, positionLookup: Option<real>, buyingPower: real)
    requires fetched.Fetched? && |ao| == |fetched.bars| && |ao| >= 2 && |ao| >= p.slow
    ensures var r, n := RunOnTrade(p, fetched, ao, positionLookup, buyingPower), |ao|;
      && (r.Submitted? && r.order.MarketSell? <==>
           CrossedDown(ao[n - 1], ao[n - 2]) && HeldQuantity(positionLookup) > 0.0)
      && (r.Submitted? && r.order.MarketSell? ==> r.order.qty == HeldQuantity(positionLookup))
      && (HeldQuantity(positionLookup) != 0.0 ==> !(r.Submitted? && r.order.BracketBuy?))
  {
    CrossoversExclusive(ao[|ao| - 1], ao[|ao| - 2]);
  }

  /** The intended cycle raises exactly on a failed fetch, on a one-bar
      fetch with a one-bar slow period, or on a buy signal with a zero
      close. */
  lemma RunOnTradeRaises(p: Params, fetched: Fetch, ao: seq<Option<real>>, positionLookup: Option<real>, buyingPower: real)
    requires fetched.Fetched? ==> |ao| == |fetched.bars|
    ensures fetched.FetchFailed? ==> RunOnTrade(p, fetched, ao, positionLookup, buyingPower) == Raised
    ensures fetched.Fetched? ==>
      var bars := fetched.bars;
      RunOnTrade(p, fetched, ao, positionLookup, buyingPower) == Raised <==>
      || (|bars| == 1 && p.slow == 1)
      || (&& |bars| >= 2 && |bars| >= p.slow
          && CrossedUp(ao[|bars| - 1], ao[|bars| - 2]) && HeldQuantity(positionLookup) == 0.0
          && bars[|bars| - 1].close == 0.0)
  {
  }
}
