/** Fixed-fractional position sizing, Average True Range and the ATR stop
    (backend/app/core/risk_manager.py). The manager only holds the account
    equity it was built with, so it is a value. */
module RiskManager {
  import opened Series

  datatype RiskManager = RiskManager(accountEquity: real)

  const DefaultRiskPercentage: real := 0.01
  const DefaultAtrPeriod: Window := 14
  const DefaultAtrMultiplier: real := 2.0
  /** The fallback stop sits 2% below the entry. */
  const FallbackStopFactor: real := 0.98

  /** The constructor: it raises for a non-positive equity and otherwise
      stores the equity unchanged. */
  function New(accountEquity: real): (r: Result<RiskManager>)
    ensures r.Ok? <==> accountEquity > 0.0
    ensures r.Ok? ==> r.value.accountEquity == accountEquity
    ensures r.Err? ==> r.message == "Account equity must be positive."
  {
    if accountEquity <= 0.0 then Err("Account equity must be positive.")
    else Ok(RiskManager(accountEquity))
  }

  /** Shares to buy so that a loss at the stop costs `riskPercentage` of the
      equity; 0 when a price is not positive or the stop is not below the
      entry. */
  function PositionSize(rm: RiskManager, entryPrice: real, stopLossPrice: real, riskPercentage: real): (size: real)
    ensures entryPrice <= 0.0 || stopLossPrice <= 0.0 || stopLossPrice >= entryPrice ==> size == 0.0
    ensures entryPrice > 0.0 && stopLossPrice > 0.0 && stopLossPrice < entryPrice ==>
      size * (entryPrice - stopLossPrice) == rm.accountEquity * riskPercentage
  {
    if entryPrice <= 0.0 || stopLossPrice <= 0.0 then 0.0
    else
      var riskPerShare := entryPrice - stopLossPrice;
      if riskPerShare <= 0.0 then 0.0
      else rm.accountEquity * riskPercentage / riskPerShare
  }

  /** With a positive amount at risk the size is positive, and a wider stop
      (more risk per share) gives strictly fewer shares. */
  lemma PositionSizeDecreasesWithRisk(rm: RiskManager, entry1: real, stop1: real, entry2: real, stop2: real, riskPercentage: real)
    requires rm.accountEquity * riskPercentage > 0.0
    requires 0.0 < stop1 < entry1 && 0.0 < stop2 < entry2
    requires entry1 - stop1 < entry2 - stop2
    ensures PositionSize(rm, entry2, stop2, riskPercentage) > 0.0
    ensures PositionSize(rm, entry1, stop1, riskPercentage) > PositionSize(rm, entry2, stop2, riskPercentage)
  {
    var capital := rm.accountEquity * riskPercentage;
    var d1, d2 := entry1 - stop1, entry2 - stop2;
    assert PositionSize(rm, entry1, stop1, riskPercentage) == capital / d1;
    assert PositionSize(rm, entry2, stop2, riskPercentage) == capital / d2;
    QuotientDecreases(capital, d1, d2);
  }

  lemma QuotientDecreases(c: real, d1: real, d2: real)
    requires c > 0.0 && 0.0 < d1 < d2
    ensures c / d2 > 0.0
    ensures c / d1 > c / d2
  {
  }

  /** The true range of bar `i`: the largest of high - low and the distances
      of high and low from the previous close. On the first bar the previous
      close is NaN and pandas' row `max` skips it, leaving high - low. */
  function TrueRange(bars: seq<Bar>, i: nat): real
    requires i < |bars|
  {
    var highLow := bars[i].high - bars[i].low;
    if i == 0 then highLow
    else
      var highClose := Abs(bars[i].high - bars[i - 1].close);
      var lowClose := Abs(bars[i].low - bars[i - 1].close);
      Max(Max(highLow, highClose), lowClose)
  }

  lemma TrueRangeBounds(bars: seq<Bar>, i: nat)
    requires i < |bars|
    ensures TrueRange(bars, i) >= bars[i].high - bars[i].low
    ensures i > 0 ==> TrueRange(bars, i) >= Abs(bars[i].high - bars[i - 1].close)
    ensures i > 0 ==> TrueRange(bars, i) >= Abs(bars[i].low - bars[i - 1].close)
    ensures i == 0 ==> TrueRange(bars, i) == bars[i].high - bars[i].low
    ensures TrueRange(bars, i) == bars[i].high - bars[i].low
         || (i > 0 && TrueRange(bars, i) == Abs(bars[i].high - bars[i - 1].close))
         || (i > 0 && TrueRange(bars, i) == Abs(bars[i].low - bars[i - 1].close))
    ensures bars[i].high >= bars[i].low ==> TrueRange(bars, i) >= 0.0
  {
  }

  function TrueRanges(bars: seq<Bar>): (r: seq<real>)
    ensures |r| == |bars|
    ensures forall i :: 0 <= i < |bars| ==> r[i] == TrueRange(bars, i)
  {
    seq(|bars|, i requires 0 <= i < |bars| => TrueRange(bars, i))
  }

  /** `calculate_atr`: all NaN when there are fewer bars than the period,
      otherwise the rolling mean of the true ranges. */
  function Atr(bars: seq<Bar>, period: Window): (r: seq<Option<real>>)
    ensures |r| == |bars|
  {
    if |bars| < period then seq(|bars|, i => None)
    else RollingMean(TrueRanges(bars), period)
  }

  /** Too few bars give an all-undefined series (never zeros); otherwise
      ATR at `i` is undefined before the first full window and is then the
      mean of the true ranges of bars i - period + 1 .. i. */
  lemma AtrAt(bars: seq<Bar>, period: Window, i: nat)
    requires i < |bars|
    ensures |bars| < period ==> Atr(bars, period)[i] == None
    ensures |bars| >= period ==> (Atr(bars, period)[i].Some? <==> i >= period - 1)
    ensures |bars| >= period && i >= period - 1 ==>
      Atr(bars, period)[i] == Some(Sum(TrueRanges(bars)[i + 1 - period..i + 1]) / (period as real))
  {
    if |bars| >= period {
      assert Atr(bars, period) == RollingMean(TrueRanges(bars), period);
      RollingMeanAt(TrueRanges(bars), period, i);
    }
  }

  /** When every bar has high >= low, every defined ATR is non-negative. */
  lemma AtrNonNegative(bars: seq<Bar>, period: Window, i: nat)
    requires i < |bars|
    requires forall k :: 0 <= k < |bars| ==> bars[k].high >= bars[k].low
    requires Atr(bars, period)[i].Some?
    ensures Atr(bars, period)[i].value >= 0.0
  {
    assert |bars| >= period;
    TrueRangesNonNegative(bars);
    RollingMeanNonNegative(TrueRanges(bars), period, i);
  }

  lemma TrueRangesNonNegative(bars: seq<Bar>)
    requires forall k :: 0 <= k < |bars| ==> bars[k].high >= bars[k].low
    ensures forall k :: 0 <= k < |bars| ==> TrueRanges(bars)[k] >= 0.0
  {
    forall k | 0 <= k < |bars| ensures TrueRanges(bars)[k] >= 0.0 {
      TrueRangeBounds(bars, k);
    }
  }

  /** An ATR usable for a dynamic stop: present, not NaN and positive. */
  predicate UsableAtr(atrValue: Option<real>)
  {
    atrValue.Some? && atrValue.value > 0.0
  }

  /** `calculate_stop_loss`: `multiplier` ATRs below the entry, or 2% below
      the entry when the ATR is missing, NaN or not positive. */
  function StopLoss(entryPrice: real, atrValue: Option<real>, atrMultiplier: real): (stop: real)
    ensures !UsableAtr(atrValue) ==> stop == entryPrice * FallbackStopFactor
    ensures UsableAtr(atrValue) ==> entryPrice - stop == atrValue.value * atrMultiplier
    ensures UsableAtr(atrValue) && atrMultiplier > 0.0 ==> stop < entryPrice
    ensures !UsableAtr(atrValue) && entryPrice > 0.0 ==> stop < entryPrice
  {
    if !UsableAtr(atrValue) then entryPrice * FallbackStopFactor
    else entryPrice - atrValue.value * atrMultiplier
  }
}
