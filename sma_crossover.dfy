/** The SMA crossover strategy (backend/app/strategies/sma_crossover.py): a
    0/1 signal that is 1 while the short moving average is above the long
    one, its diff as the position change, and a live cycle that buys one
    share on +1 when flat and sells the holding on -1. */
module SmaCrossover {
  import opened Series
  import opened Orders

  datatype Params = Params(shortWindow: Window, longWindow: Window)

  const Defaults: Params := Params(40, 100)

  /** The live cycle asks the broker for this many bars. */
  function BarLimit(p: Params): nat
  {
    p.longWindow + 5
  }

  /** The `signal` column: 0 on the first `shortWindow` bars; from there 1
      exactly where the short SMA is above the long SMA (an undefined long
      SMA compares false, giving 0). */
  function Signals(closes: seq<real>, p: Params): (r: seq<Signal>)
    ensures |r| == |closes|
  {
    var shortMavg := RollingMean(closes, p.shortWindow);
    var longMavg := RollingMean(closes, p.longWindow);
    seq(|closes|, i requires 0 <= i < |closes| =>
      if i >= p.shortWindow && Gt(shortMavg[i], longMavg[i]) then 1 else 0)
  }

  /** The `position` column: `signal.diff()`. */
  function PositionChanges(closes: seq<real>, p: Params): (r: seq<Option<int>>)
    ensures |r| == |closes|
  {
    Diff(Signals(closes, p))
  }

  /** The signal is 1 exactly when bar `i` is past the short window, the long
      window is complete, and the short mean exceeds the long mean; it is
      never anything but 0 or 1. */
  lemma SignalIff(closes: seq<real>, p: Params, i: nat)
    requires i < |closes|
    ensures Signals(closes, p)[i] == 0 || Signals(closes, p)[i] == 1
    ensures i < p.shortWindow ==> Signals(closes, p)[i] == 0
    ensures i + 1 < p.longWindow ==> Signals(closes, p)[i] == 0
    ensures Signals(closes, p)[i] == 1 <==>
      && i >= p.shortWindow && i + 1 >= p.longWindow
      && Sum(closes[i + 1 - p.shortWindow..i + 1]) / (p.shortWindow as real)
         > Sum(closes[i + 1 - p.longWindow..i + 1]) / (p.longWindow as real)
  {
  }

  /** The position change is undefined on the first bar and lies in -1..1
      on every later bar. */
  lemma PositionChangeRange(closes: seq<real>, p: Params, i: nat)
    requires i < |closes|
    ensures PositionChanges(closes, p)[i].None? <==> i == 0
    ensures i > 0 ==> -1 <= PositionChanges(closes, p)[i].value <= 1
  {
    SignalIff(closes, p, i);
    if i > 0 {
      SignalIff(closes, p, i - 1);
    }
  }

  /** One live cycle as it is evidently meant to run, given the broker's
      answer to the bar request and its answer to the position lookup (None
      when it raised): a failed fetch raises (the call is unguarded), a
      short frame does nothing, otherwise the latest position change and the
      awaited holding decide. */
  function Run(p: Params, fetched: Fetch, positionLookup: Option<real>): (r: Outcome)
    ensures r == Raised <==> fetched.FetchFailed?
  {
    match fetched
    case FetchFailed(_) => Raised
    case Fetched(bars) =>
      if |bars| < p.longWindow then Skipped
      else
        var latest := PositionChanges(Closes(bars), p)[|bars| - 1];
        var current := HeldQuantity(positionLookup);
        if latest == Some(1) && current == 0.0 then Submitted(MarketBuy(1.0))
        else if latest == Some(-1) && current > 0.0 then Submitted(MarketSell(current))
        else NoOrder
  }

  /** Exactly one share is bought iff the latest change is +1 and nothing is
      held; the whole holding is sold iff the latest change is -1 and
      something is held; every other cycle with enough bars sends nothing. */
  lemma RunDecision(p: Params, fetched: Fetch, positionLookup: Option<real>)
    requires fetched.Fetched?
    ensures |fetched.bars| < p.longWindow <==> Run(p, fetched, positionLookup) == Skipped
    ensures |fetched.bars| >= p.longWindow ==>
      var bars, r := fetched.bars, Run(p, fetched, positionLookup);
      var latest := PositionChanges(Closes(bars), p)[|bars| - 1];
      var current := HeldQuantity(positionLookup);
      && (r == Submitted(MarketBuy(1.0)) <==> latest == Some(1) && current == 0.0)
      && (r.Submitted? && r.order.MarketSell? <==> latest == Some(-1) && current > 0.0)
      && (r.Submitted? && r.order.MarketSell? ==> r.order.qty == current)
      && (r == NoOrder <==> !(latest == Some(1) && current == 0.0) && !(latest == Some(-1) && current > 0.0))
  {
  }

  /** The live cycle as written: `get_position` is a coroutine that is never
      awaited, so `current_position == 0` is always false and
      `current_position > 0` raises a TypeError. The buy branch is never
      taken, the sell test raises on every -1 change, and no order is ever
      sent. */
  function RunAsWritten(p: Params, fetched: Fetch): (r: Outcome)
    ensures !r.Submitted?
    ensures r == Raised <==>
      || fetched.FetchFailed?
      || (|fetched.bars| >= p.longWindow && PositionChanges(Closes(fetched.bars), p)[|fetched.bars| - 1] == Some(-1))
  {
    match fetched
    case FetchFailed(_) => Raised
    case Fetched(bars) =>
      if |bars| < p.longWindow then Skipped
      else
        var latest := PositionChanges(Closes(bars), p)[|bars| - 1];
        if latest == Some(-1) then Raised
        else NoOrder
  }

  /** Every buy the intended cycle sends is silently dropped as written, and
      every sell it sends becomes a TypeError; whatever is held, the cycle as
      written never orders. */
  lemma AsWrittenDropsEveryOrder(p: Params, fetched: Fetch, positionLookup: Option<real>)
    ensures Run(p, fetched, positionLookup).Submitted? && Run(p, fetched, positionLookup).order.MarketBuy? ==>
      RunAsWritten(p, fetched) == NoOrder
    ensures Run(p, fetched, positionLookup).Submitted? && Run(p, fetched, positionLookup).order.MarketSell? ==>
      RunAsWritten(p, fetched) == Raised
    ensures !Run(p, fetched, positionLookup).Submitted? && RunAsWritten(p, fetched) == NoOrder ==>
      Run(p, fetched, positionLookup) == NoOrder
  {
  }

  /** The rise 10, 11 turns the signal on. */
  lemma RisingChange(closes: seq<real>)
    requires closes == [10.0, 11.0]
    ensures PositionChanges(closes, Params(1, 2))[1] == Some(1)
  {
    SignalIff(closes, Params(1, 2), 0);
    SignalOfPair(closes, 1);
  }

  /** Closes 10 then 11 with windows 1 and 2 give a +1 change: flat, the
      intended cycle buys one share, and the cycle as written sends
      nothing. */
  lemma UnawaitedLookupDropsBuy(b0: Bar, b1: Bar)
    requires b0.close == 10.0 && b1.close == 11.0
    ensures Run(Params(1, 2), Fetched([b0, b1]), None) == Submitted(MarketBuy(1.0))
    ensures RunAsWritten(Params(1, 2), Fetched([b0, b1])) == NoOrder
  {
    assert Closes([b0, b1]) == [10.0, 11.0];
    RisingChange([10.0, 11.0]);
  }

  /** Closes 10, 11, 10 with windows 1 and 2 give a -1 change on the last
      bar: holding some shares, the intended cycle sells them, and the
      cycle as written raises. */
  lemma UnawaitedLookupRaisesOnSell(b0: Bar, b1: Bar, b2: Bar, held: real)
    requires b0.close == 10.0 && b1.close == 11.0 && b2.close == 10.0 && held > 0.0
    ensures Run(Params(1, 2), Fetched([b0, b1, b2]), Some(held)) == Submitted(MarketSell(held))
    ensures RunAsWritten(Params(1, 2), Fetched([b0, b1, b2])) == Raised
  {
    assert Closes([b0, b1, b2]) == [10.0, 11.0, 10.0];
    FallingChange([10.0, 11.0, 10.0]);
  }

  /** The rise then fall 10, 11, 10 turns the signal on and off again. */
  lemma FallingChange(closes: seq<real>)
    requires closes == [10.0, 11.0, 10.0]
    ensures PositionChanges(closes, Params(1, 2))[2] == Some(-1)
  {
    SignalOfPair(closes, 1);
    SignalOfPair(closes, 2);
  }

  /** With windows 1 and 2, the signal on a later bar is 1 exactly when its
      close is above the mean of it and the close before it. */
  lemma SignalOfPair(closes: seq<real>, i: nat)
    requires 1 <= i < |closes|
    ensures Signals(closes, Params(1, 2))[i] == if closes[i] > (closes[i - 1] + closes[i]) / 2.0 then 1 else 0
  {
    assert closes[i..i + 1] == [closes[i]];
    assert closes[i - 1..i + 1] == [closes[i - 1], closes[i]];
    assert Sum([closes[i]]) == closes[i] by {
      assert [closes[i]][..0] == [];
    }
    SumOfTwo(closes[i - 1], closes[i]);
    SignalIff(closes, Params(1, 2), i);
  }

  /** Alternating closes 10, 11, 10, 11, ... with windows 2 and 4 keep both
      moving averages at 10.5, so the signal stays 0 and no order is sent,
      whatever is held. */
  lemma AlternatingClosesSendNothing(bars: seq<Bar>, positionLookup: Option<real>)
    requires |bars| == 20
    requires forall i :: 0 <= i < 20 ==> bars[i].close == if i % 2 == 0 then 10.0 else 11.0
    ensures Run(Params(2, 4), Fetched(bars), positionLookup) == NoOrder
  {
    var closes := Closes(bars);
    var p := Params(2, 4);
    forall i | 18 <= i < 20 ensures Signals(closes, p)[i] == 0 {
      assert closes[i - 1..i + 1] == [closes[i - 1], closes[i]];
      assert closes[i - 3..i + 1] == [closes[i - 3], closes[i - 2], closes[i - 1], closes[i]];
      SumOfTwo(closes[i - 1], closes[i]);
      SumOfFour(closes[i - 3], closes[i - 2], closes[i - 1], closes[i]);
      SignalIff(closes, p, i);
    }
  }

  lemma SumOfTwo(a: real, b: real)
    ensures Sum([a, b]) == a + b
  {
    assert [a][..0] == [];
    assert Sum([a]) == a;
    assert [a, b][..1] == [a];
  }

  lemma SumOfFour(a: real, b: real, c: real, d: real)
    ensures Sum([a, b, c, d]) == a + b + c + d
  {
    assert [a, b, c, d][..3] == [a, b, c];
    assert [a, b, c][..2] == [a, b];
    SumOfTwo(a, b);
  }
}
