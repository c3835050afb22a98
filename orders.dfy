/** What a strategy decides and what it sends to the broker. */
module Orders {
  import opened Series

  /** The outcome of a rule that only reports a direction. */
  datatype Decision = BuySignal | SellSignal | NoSignal

  /** An order a strategy submits to the broker. */
  datatype OrderIntent =
    | MarketBuy(qty: real)
    | BracketBuy(qty: real, takeProfit: real, stopLoss: real)
    | MarketSell(qty: real)
    | ClosePosition

  /** One live cycle of an order-submitting strategy: it returned early
      (too little data, no model), raised, or decided to send an order or
      not. */
  datatype Outcome = Skipped | Raised | NoOrder | Submitted(order: OrderIntent)

  /** One cycle of a strategy that only logs its decision. */
  datatype LogOutcome = LogSkipped | LogRaised | Logged(decision: Decision)

  /** A strategy's `get_position`: the broker's quantity for the symbol, or
      0 when the lookup raised (no position, or any other error). */
  function HeldQuantity(lookup: Option<real>): (q: real)
    ensures lookup.None? ==> q == 0.0
    ensures lookup.Some? ==> q == lookup.value
  {
    match lookup
    case None => 0.0
    case Some(qty) => qty
  }

  /** The signal a rule's decision amounts to. */
  function DecisionOf(s: Signal): Decision
  {
    if s == 1 then BuySignal else if s == -1 then SellSignal else NoSignal
  }

  /** An upward crossover between bar `prev` and bar `now`: `a` is above `b`
      now and was at or below it before (NaN on either bar: no crossover). */
  predicate CrossedAbove(aNow: Option<real>, bNow: Option<real>, aPrev: Option<real>, bPrev: Option<real>)
  {
    Gt(aNow, bNow) && Le(aPrev, bPrev)
  }

  /** A downward crossover: `a` is below `b` now and was at or above it. */
  predicate CrossedBelow(aNow: Option<real>, bNow: Option<real>, aPrev: Option<real>, bPrev: Option<real>)
  {
    Lt(aNow, bNow) && Ge(aPrev, bPrev)
  }

  /** The same pair of series cannot cross both ways at once, and with a
      NaN on either bar it crosses neither way. */
  lemma CrossingsExclusive(aNow: Option<real>, bNow: Option<real>, aPrev: Option<real>, bPrev: Option<real>)
    ensures !(CrossedAbove(aNow, bNow, aPrev, bPrev) && CrossedBelow(aNow, bNow, aPrev, bPrev))
    ensures aNow.None? || bNow.None? || aPrev.None? || bPrev.None? ==>
      !CrossedAbove(aNow, bNow, aPrev, bPrev) && !CrossedBelow(aNow, bNow, aPrev, bPrev)
  {
  }

  /** The if/elif a crossover strategy logs: buy on an upward crossover,
      else sell on a downward one. Since the two cannot hold together, each
      decision is exactly its own crossover. */
  function CrossoverDecision(aNow: Option<real>, bNow: Option<real>, aPrev: Option<real>, bPrev: Option<real>): (d: Decision)
    ensures d == BuySignal <==> CrossedAbove(aNow, bNow, aPrev, bPrev)
    ensures d == SellSignal <==> CrossedBelow(aNow, bNow, aPrev, bPrev)
    ensures d == NoSignal <==> !CrossedAbove(aNow, bNow, aPrev, bPrev) && !CrossedBelow(aNow, bNow, aPrev, bPrev)
  {
    CrossingsExclusive(aNow, bNow, aPrev, bPrev);
    if CrossedAbove(aNow, bNow, aPrev, bPrev) then BuySignal
    else if CrossedBelow(aNow, bNow, aPrev, bPrev) then SellSignal
    else NoSignal
  }

  /** A vectorised masked assignment on a frame column,
      `frame.loc[mask, column] = v`: every masked row takes `v`, every other
      row keeps its value. */
  method MaskedWrite(column: array<int>, mask: seq<bool>, v: int)
    requires |mask| == column.Length
    modifies column
    ensures forall i :: 0 <= i < column.Length ==> column[i] == if mask[i] then v else old(column[i])
  {
    forall i | 0 <= i < column.Length && mask[i] {
      column[i] := v;
    }
  }

  /** The column that `signal = 0`, then `loc[buyMask] = 1`, then
      `loc[sellMask] = -1` leaves: the later sell write wins where both
      masks hold. */
  function MaskedSignal(buyMask: seq<bool>, sellMask: seq<bool>): (r: seq<Signal>)
    requires |buyMask| == |sellMask|
    ensures |r| == |buyMask|
  {
    seq(|buyMask|, i requires 0 <= i < |buyMask| =>
      if sellMask[i] then -1 else if buyMask[i] then 1 else 0)
  }

  /** Each row is -1 exactly where the sell mask holds, 1 exactly where only
      the buy mask holds and 0 where neither does; when the masks never
      overlap, 1 is exactly the buy mask. */
  lemma MaskedSignalAt(buyMask: seq<bool>, sellMask: seq<bool>, i: nat)
    requires |buyMask| == |sellMask| && i < |buyMask|
    ensures MaskedSignal(buyMask, sellMask)[i] == -1 <==> sellMask[i]
    ensures MaskedSignal(buyMask, sellMask)[i] == 1 <==> buyMask[i] && !sellMask[i]
    ensures MaskedSignal(buyMask, sellMask)[i] == 0 <==> !buyMask[i] && !sellMask[i]
    ensures !(buyMask[i] && sellMask[i]) ==> (MaskedSignal(buyMask, sellMask)[i] == 1 <==> buyMask[i])
  {
  }

  /** Builds the `signal` column in the order the strategies write it: all
      zeros, then the buy rows, then the sell rows. */
  method WriteSignalColumn(buyMask: seq<bool>, sellMask: seq<bool>) returns (signal: array<int>)
    requires |buyMask| == |sellMask|
    ensures fresh(signal)
    ensures signal[..] == MaskedSignal(buyMask, sellMask)
  {
    signal := new int[|buyMask|](i => 0);
    MaskedWrite(signal, buyMask, 1);
    MaskedWrite(signal, sellMask, -1);
  }
}
