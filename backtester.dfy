/** The backtest simulator (backend/app/backtester/backtester.py): it replays a
    position-change series over historical bars, buying a fixed notional on
    +1 and liquidating on -1, and summarises the result.

    The pure functions below (MarkToMarket, BuyStep, SellStep, Step, Replay,
    Performance) are the specification; the class Backtester updates its
    fields in place exactly as they say. */
module Backtest {
  import opened Series

  const DefaultInitialCapital: real := 100000.0
  /** Every buy invests a tenth of the initial capital. */
  const BuyFraction: real := 0.10

  datatype Side = Buy | Sell

  datatype TradeRecord = TradeRecord(date: int, symbol: string, side: Side, qty: real, price: real)

  /** The simulator's fields: cash, the last marked portfolio value, the
      holding per symbol and the append-only trade list. */
  datatype SimState = SimState(cash: real, portfolioValue: real, positions: map<string, real>, trades: seq<TradeRecord>)

  /** The dictionary `run` returns. `totalTrades` is absent (None) in the
      no-trade summary, as in the source. */
  datatype BacktestResult =
    | Failed(error: string)
    | Summary(initialCapital: real, finalPortfolioValue: real, netProfit: real, returnPct: real,
              totalTrades: Option<nat>, trades: seq<TradeRecord>)

  /** `positions.get(symbol, 0)` */
  function Held(s: SimState, symbol: string): real
  {
    if symbol in s.positions then s.positions[symbol] else 0.0
  }

  /** The state the constructor builds. */
  function Initial(initialCapital: real): SimState
  {
    SimState(initialCapital, initialCapital, map[], [])
  }

  /** A simulator started without positive capital can never trade: a buy
      needs positive cash and a sell needs a holding. This is what makes the
      division by the initial capital in the summary safe. */
  predicate NoTradesWithoutCapital(s: SimState, initialCapital: real)
  {
    initialCapital <= 0.0 ==> s.cash == initialCapital && s.positions == map[] && s.trades == []
  }

  /** `_update_portfolio_value`: the portfolio is worth the cash plus the
      holding at the current price; nothing else changes. */
  function MarkToMarket(s: SimState, symbol: string, price: real): (r: SimState)
    ensures r.portfolioValue == r.cash + Held(r, symbol) * price
    ensures r.cash == s.cash && r.positions == s.positions && r.trades == s.trades
  {
    s.(portfolioValue := s.cash + Held(s, symbol) * price)
  }

  /** Whether `_execute_buy` goes through: there is cash, and it covers the
      cost of a tenth of the initial capital. At a zero price the quantity is
      infinite and the cost NaN, so the cost comparison fails. */
  predicate BuyExecutes(s: SimState, initialCapital: real, price: real)
  {
    s.cash > 0.0 && price != 0.0 && s.cash >= (initialCapital * BuyFraction / price) * price
  }

  /** `_execute_buy`. It does not require being flat: holdings accumulate. */
  function BuyStep(s: SimState, initialCapital: real, symbol: string, price: real, date: int): (r: SimState)
    ensures BuyExecutes(s, initialCapital, price) ==>
      var qty := initialCapital * BuyFraction / price;
      && r.cash == s.cash - initialCapital * BuyFraction
      && Held(r, symbol) == Held(s, symbol) + qty
      && (forall other :: other != symbol ==> Held(r, other) == Held(s, other))
      && r.trades == s.trades + [TradeRecord(date, symbol, Buy, qty, price)]
    ensures !BuyExecutes(s, initialCapital, price) ==> r == s
    ensures r.cash + Held(r, symbol) * price == s.cash + Held(s, symbol) * price
    ensures s.cash >= 0.0 ==> r.cash >= 0.0
    ensures r.portfolioValue == s.portfolioValue
  {
    if BuyExecutes(s, initialCapital, price) then
      var qty := initialCapital * BuyFraction / price;
      var cost := qty * price;
      s.(positions := s.positions[symbol := Held(s, symbol) + qty],
         cash := s.cash - cost,
         trades := s.trades + [TradeRecord(date, symbol, Buy, qty, price)])
    else s
  }

  /** `_execute_sell`: liquidate the whole holding at `price`, or do nothing
      when nothing is held. */
  function SellStep(s: SimState, symbol: string, price: real, date: int): (r: SimState)
    ensures Held(s, symbol) > 0.0 ==>
      && r.cash == s.cash + Held(s, symbol) * price
      && Held(r, symbol) == 0.0
      && (forall other :: other != symbol ==> Held(r, other) == Held(s, other))
      && r.trades == s.trades + [TradeRecord(date, symbol, Sell, Held(s, symbol), price)]
    ensures Held(s, symbol) <= 0.0 ==> r == s
    ensures r.cash + Held(r, symbol) * price == s.cash + Held(s, symbol) * price
    ensures s.cash >= 0.0 && price >= 0.0 ==> r.cash >= 0.0
    ensures r.portfolioValue == s.portfolioValue
  {
    if Held(s, symbol) > 0.0 then
      var qty := Held(s, symbol);
      s.(cash := s.cash + qty * price,
         positions := s.positions[symbol := 0.0],
         trades := s.trades + [TradeRecord(date, symbol, Sell, qty, price)])
    else s
  }

  /** One iteration of the bar loop: mark to market at the close, then buy on
      a position change of +1, sell on -1, and do nothing otherwise
      (including the undefined change of a first bar). */
  function Step(s: SimState, initialCapital: real, symbol: string, bar: Bar, change: Option<real>): SimState
  {
    var marked := MarkToMarket(s, symbol, bar.close);
    if change == Some(1.0) then BuyStep(marked, initialCapital, symbol, bar.close, bar.time)
    else if change == Some(-1.0) then SellStep(marked, symbol, bar.close, bar.time)
    else marked
  }

  /** The whole bar loop, as a left fold of Step over the bars in order. */
  function Replay(s: SimState, initialCapital: real, symbol: string, bars: seq<Bar>, changes: seq<Option<real>>): SimState
    requires |changes| == |bars|
    decreases |bars|
  {
    if |bars| == 0 then s
    else
      var n := |bars| - 1;
      Step(Replay(s, initialCapital, symbol, bars[..n], changes[..n]), initialCapital, symbol, bars[n], changes[n])
  }

  /** `_calculate_performance`. */
  function Performance(s: SimState, initialCapital: real): BacktestResult
    requires s.trades != [] ==> initialCapital != 0.0
  {
    if s.trades == [] then Summary(initialCapital, s.portfolioValue, 0.0, 0.0, None, [])
    else
      var netProfit := s.portfolioValue - initialCapital;
      Summary(initialCapital, s.portfolioValue, netProfit, (netProfit / initialCapital) * 100.0,
              Some(|s.trades|), s.trades)
  }

  /** A position change that makes the loop act. */
  predicate IsAction(change: Option<real>)
  {
    change == Some(1.0) || change == Some(-1.0)
  }

  /** The number of bars on which the loop tries to trade. */
  function ActionCount(changes: seq<Option<real>>): nat
  {
    if |changes| == 0 then 0
    else ActionCount(changes[..|changes| - 1]) + (if IsAction(changes[|changes| - 1]) then 1 else 0)
  }

  /** After every bar, whatever the action, the portfolio value equals the
      cash plus the holding at that bar's close: a trade at the bar price
      conserves value. */
  lemma StepMarksToMarket(s: SimState, initialCapital: real, symbol: string, bar: Bar, change: Option<real>)
    ensures var r := Step(s, initialCapital, symbol, bar, change);
      r.portfolioValue == r.cash + Held(r, symbol) * bar.close
  {
  }

  /** Each bar appends at most one trade record, dated at that bar and priced
      at its close, and only when the change is +1 (a buy) or -1 (a sell). */
  lemma StepRecordsAtMostOne(s: SimState, initialCapital: real, symbol: string, bar: Bar, change: Option<real>)
    ensures var r := Step(s, initialCapital, symbol, bar, change);
      || r.trades == s.trades
      || (&& IsAction(change)
          && r.trades == s.trades + [r.trades[|s.trades|]]
          && r.trades[|s.trades|].date == bar.time
          && r.trades[|s.trades|].price == bar.close
          && r.trades[|s.trades|].side == (if change == Some(1.0) then Buy else Sell))
  {
  }

  /** The simulation keeps NoTradesWithoutCapital. */
  lemma StepNoTradesWithoutCapital(s: SimState, initialCapital: real, symbol: string, bar: Bar, change: Option<real>)
    requires NoTradesWithoutCapital(s, initialCapital)
    ensures NoTradesWithoutCapital(Step(s, initialCapital, symbol, bar, change), initialCapital)
  {
  }

  predicate NonNegativeCloses(bars: seq<Bar>)
  {
    forall i :: 0 <= i < |bars| ==> bars[i].close >= 0.0
  }

  /** With non-negative prices, cash never goes negative. */
  lemma {:induction false} ReplayCashNonNegative(s: SimState, initialCapital: real, symbol: string, bars: seq<Bar>, changes: seq<Option<real>>)
    requires |changes| == |bars|
    requires s.cash >= 0.0
    requires NonNegativeCloses(bars)
    ensures Replay(s, initialCapital, symbol, bars, changes).cash >= 0.0
  {
    if |bars| > 0 {
      var n := |bars| - 1;
      ReplayCashNonNegative(s, initialCapital, symbol, bars[..n], changes[..n]);
    }
  }

  /** After a non-empty replay the final portfolio value is the cash plus the
      holding at the last close. */
  lemma ReplayFinalValue(s: SimState, initialCapital: real, symbol: string, bars: seq<Bar>, changes: seq<Option<real>>)
    requires |changes| == |bars| && |bars| > 0
    ensures var r := Replay(s, initialCapital, symbol, bars, changes);
      r.portfolioValue == r.cash + Held(r, symbol) * bars[|bars| - 1].close
  {
    var n := |bars| - 1;
    var mid := Replay(s, initialCapital, symbol, bars[..n], changes[..n]);
    assert Replay(s, initialCapital, symbol, bars, changes) == Step(mid, initialCapital, symbol, bars[n], changes[n]);
    StepMarksToMarket(mid, initialCapital, symbol, bars[n], changes[n]);
  }

  /** The trade list is append-only, and it grows by at most one record per
      bar whose position change is +1 or -1. */
  lemma {:induction false} ReplayTradesAppendOnly(s: SimState, initialCapital: real, symbol: string, bars: seq<Bar>, changes: seq<Option<real>>)
    requires |changes| == |bars|
    ensures var r := Replay(s, initialCapital, symbol, bars, changes);
      && |s.trades| <= |r.trades| <= |s.trades| + ActionCount(changes)
      && r.trades[..|s.trades|] == s.trades
  {
    if |bars| > 0 {
      var n := |bars| - 1;
      var mid := Replay(s, initialCapital, symbol, bars[..n], changes[..n]);
      ReplayTradesAppendOnly(s, initialCapital, symbol, bars[..n], changes[..n]);
      StepRecordsAtMostOne(mid, initialCapital, symbol, bars[n], changes[n]);
      var r := Replay(s, initialCapital, symbol, bars, changes);
      assert r == Step(mid, initialCapital, symbol, bars[n], changes[n]);
      assert r.trades[..|s.trades|] == mid.trades[..|s.trades|];
    }
  }

  /** A series without +1 or -1 changes trades nothing: cash, holdings and
      trades stay as they were. */
  lemma {:induction false} FlatChangesTradeNothing(s: SimState, initialCapital: real, symbol: string, bars: seq<Bar>, changes: seq<Option<real>>)
    requires |changes| == |bars|
    requires forall i :: 0 <= i < |changes| ==> !IsAction(changes[i])
    ensures var r := Replay(s, initialCapital, symbol, bars, changes);
      r.cash == s.cash && r.positions == s.positions && r.trades == s.trades
  {
    if |bars| > 0 {
      var n := |bars| - 1;
      FlatChangesTradeNothing(s, initialCapital, symbol, bars[..n], changes[..n]);
    }
  }

  /** A fresh simulator fed a series without +1/-1 changes reports the
      no-trade summary: final value equal to the initial capital, net profit
      0, return 0 and no trades. */
  lemma FlatBacktestSummary(initialCapital: real, symbol: string, bars: seq<Bar>, changes: seq<Option<real>>)
    requires |changes| == |bars|
    requires forall i :: 0 <= i < |changes| ==> !IsAction(changes[i])
    ensures var r := Replay(Initial(initialCapital), initialCapital, symbol, bars, changes);
      && r.trades == []
      && Performance(r, initialCapital) == Summary(initialCapital, initialCapital, 0.0, 0.0, None, [])
  {
    FlatChangesTradeNothing(Initial(initialCapital), initialCapital, symbol, bars, changes);
    if |bars| > 0 {
      ReplayFinalValue(Initial(initialCapital), initialCapital, symbol, bars, changes);
    }
  }

  lemma {:induction false} ReplayNoTradesWithoutCapital(s: SimState, initialCapital: real, symbol: string, bars: seq<Bar>, changes: seq<Option<real>>)
    requires |changes| == |bars|
    requires NoTradesWithoutCapital(s, initialCapital)
    ensures NoTradesWithoutCapital(Replay(s, initialCapital, symbol, bars, changes), initialCapital)
  {
    if |bars| > 0 {
      var n := |bars| - 1;
      ReplayNoTradesWithoutCapital(s, initialCapital, symbol, bars[..n], changes[..n]);
      StepNoTradesWithoutCapital(Replay(s, initialCapital, symbol, bars[..n], changes[..n]), initialCapital, symbol, bars[n], changes[n]);
    }
  }

  class Backtester {
    const initialCapital: real
    var cash: real
    var portfolioValue: real
    var positions: map<string, real>
    var trades: seq<TradeRecord>

    function State(): SimState
      reads this
    {
      SimState(cash, portfolioValue, positions, trades)
    }

    predicate Valid()
      reads this
    {
      NoTradesWithoutCapital(State(), initialCapital)
    }

    /** Cash and portfolio value start at the initial capital, with no
        positions and no trades. */
    constructor (initialCapital: real)
      ensures this.initialCapital == initialCapital
      ensures State() == Initial(initialCapital)
      ensures Valid()
    {
      this.initialCapital := initialCapital;
      cash := initialCapital;
      portfolioValue := initialCapital;
      positions := map[];
      trades := [];
    }

    method UpdatePortfolioValue(currentPrice: real, symbol: string)
      requires Valid()
      modifies this
      ensures Valid()
      ensures State() == MarkToMarket(old(State()), symbol, currentPrice)
    {
      var held := if symbol in positions then positions[symbol] else 0.0;
      portfolioValue := cash + held * currentPrice;
    }

    method ExecuteBuy(symbol: string, price: real, date: int)
      requires Valid()
      modifies this
      ensures Valid()
      ensures State() == BuyStep(old(State()), initialCapital, symbol, price, date)
    {
      if cash > 0.0 {
        var amountToInvest := initialCapital * BuyFraction;
        // At a zero price the quantity is infinite and the cost NaN, so the
        // cost check below cannot pass.
        if price != 0.0 {
          var qtyToBuy := amountToInvest / price;
          var cost := qtyToBuy * price;
          if cash >= cost {
            var held := if symbol in positions then positions[symbol] else 0.0;
            positions := positions[symbol := held + qtyToBuy];
            cash := cash - cost;
            trades := trades + [TradeRecord(date, symbol, Buy, qtyToBuy, price)];
          }
        }
      }
    }

    method ExecuteSell(symbol: string, price: real, date: int)
      requires Valid()
      modifies this
      ensures Valid()
      ensures State() == SellStep(old(State()), symbol, price, date)
    {
      var held := if symbol in positions then positions[symbol] else 0.0;
      if held > 0.0 {
        var qtyToSell := held;
        cash := cash + qtyToSell * price;
        positions := positions[symbol := 0.0];
        trades := trades + [TradeRecord(date, symbol, Sell, qtyToSell, price)];
      }
    }

    method CalculatePerformance() returns (r: BacktestResult)
      requires Valid()
      ensures r == Performance(State(), initialCapital)
    {
      if trades == [] {
        r := Summary(initialCapital, portfolioValue, 0.0, 0.0, None, []);
      } else {
        var finalValue := portfolioValue;
        var netProfit := finalValue - initialCapital;
        var returnPct := (netProfit / initialCapital) * 100.0;
        r := Summary(initialCapital, finalValue, netProfit, returnPct, Some(|trades|), trades);
      }
    }

    /** One iteration of the loop in `run`: mark to market at the bar's
        close, then act on the bar's position change. */
    method ProcessBar(symbol: string, bar: Bar, change: Option<real>)
      requires Valid()
      modifies this
      ensures Valid()
      ensures State() == Step(old(State()), initialCapital, symbol, bar, change)
    {
      var currentPrice := bar.close;
      var date := bar.time;
      UpdatePortfolioValue(currentPrice, symbol);
      if change == Some(1.0) {
        ExecuteBuy(symbol, currentPrice, date);
      } else if change == Some(-1.0) {
        ExecuteSell(symbol, currentPrice, date);
      }
    }

    /** The bar loop of `run` (step 3 of the source). */
    method Simulate(symbol: string, bars: seq<Bar>, positionChanges: seq<Option<real>>)
      requires Valid()
      requires |positionChanges| == |bars|
      modifies this
      ensures Valid()
      ensures State() == Replay(old(State()), initialCapital, symbol, bars, positionChanges)
    {
      ghost var start := State();
      for i := 0 to |bars|
        invariant Valid()
        invariant State() == Replay(start, initialCapital, symbol, bars[..i], positionChanges[..i])
      {
        ProcessBar(symbol, bars[i], positionChanges[i]);
        assert bars[..i + 1][..i] == bars[..i];
        assert positionChanges[..i + 1][..i] == positionChanges[..i];
      }
      assert bars[..|bars|] == bars;
      assert positionChanges[..|bars|] == positionChanges;
    }

    /** `run`: `fetched` is what the broker returned for the symbol and date
        range, and `positionChanges` is the strategy's `position` column for
        those bars. */
    method Run(symbol: string, fetched: Fetch, positionChanges: seq<Option<real>>) returns (r: BacktestResult)
      requires Valid()
      requires fetched.Fetched? ==> |positionChanges| == |fetched.bars|
      modifies this
      ensures Valid()
      ensures fetched.FetchFailed? ==> r == Failed(fetched.message) && State() == old(State())
      ensures fetched == Fetched([]) ==> r == Failed("No data found.") && State() == old(State())
      ensures fetched.Fetched? && fetched.bars != [] ==>
        && State() == Replay(old(State()), initialCapital, symbol, fetched.bars, positionChanges)
        && r == Performance(State(), initialCapital)
      ensures fetched.Fetched? && old(cash) >= 0.0 && NonNegativeCloses(fetched.bars) ==> cash >= 0.0
    {
      if fetched.FetchFailed? {
        return Failed(fetched.message);
      }
      var bars := fetched.bars;
      if bars == [] {
        return Failed("No data found.");
      }
      ghost var start := State();
      Simulate(symbol, bars, positionChanges);
      if start.cash >= 0.0 && NonNegativeCloses(bars) {
        ReplayCashNonNegative(start, initialCapital, symbol, bars, positionChanges);
      }
      r := CalculatePerformance();
    }
  }
}
