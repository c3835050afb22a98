/** Price bars, rolling statistics and the NaN-aware comparisons that every
    strategy shares. A pandas value that may be NaN is an `Option<real>`:
    `None` stands for NaN, and every comparison involving it is false, as in
    numpy. */
module Series {

  datatype Option<+T> = None | Some(value: T)

  /** A computation that either yields a value or fails with the message the
      source returns (`{"error": ...}`). */
  datatype Result<+T> = Ok(value: T) | Err(message: string)

  /** One OHLCV sample; `time` stands for the frame's timestamp index. */
  datatype Bar = Bar(time: int, open: real, high: real, low: real, close: real, volume: real)

  /** What the broker's bar request gave back: the bars, or the message of the
      exception it raised. */
  datatype Fetch = Fetched(bars: seq<Bar>) | FetchFailed(message: string)

  /** A rolling-window length in bars. */
  type Window = w: nat | w >= 1 witness 1

  /** A per-bar trading intent: 1 buy, -1 sell, 0 neutral. */
  type Signal = x: int | -1 <= x <= 1

  /** The `close` column of a frame. */
  function Closes(bars: seq<Bar>): (r: seq<real>)
    ensures |r| == |bars|
    ensures forall i :: 0 <= i < |bars| ==> r[i] == bars[i].close
  {
    seq(|bars|, i requires 0 <= i < |bars| => bars[i].close)
  }

  function Sum(xs: seq<real>): real
  {
    if |xs| == 0 then 0.0 else Sum(xs[..|xs| - 1]) + xs[|xs| - 1]
  }

  lemma {:induction false} SumNonNegative(xs: seq<real>)
    requires forall i :: 0 <= i < |xs| ==> xs[i] >= 0.0
    ensures Sum(xs) >= 0.0
  {
    if |xs| > 0 {
      SumNonNegative(xs[..|xs| - 1]);
    }
  }

  /** `xs.rolling(window=w).mean()`: undefined until a full window is
      available, then the mean of the last `w` values. */
  function RollingMean(xs: seq<real>, w: Window): (r: seq<Option<real>>)
    ensures |r| == |xs|
  {
    seq(|xs|, i requires 0 <= i < |xs| =>
      if i + 1 >= w then Some(Sum(xs[i + 1 - w..i + 1]) / (w as real)) else None)
  }

  /** Entry `i` of a rolling mean, unfolded. */
  lemma RollingMeanAt(xs: seq<real>, w: Window, i: nat)
    requires i < |xs|
    ensures i + 1 < w ==> RollingMean(xs, w)[i] == None
    ensures i + 1 >= w ==> RollingMean(xs, w)[i] == Some(Sum(xs[i + 1 - w..i + 1]) / (w as real))
  {
  }

  lemma RollingMeanDefinedIff(xs: seq<real>, w: Window, i: nat)
    requires i < |xs|
    ensures RollingMean(xs, w)[i].Some? <==> i >= w - 1
    ensures i >= w - 1 ==> RollingMean(xs, w)[i].value * (w as real) == Sum(xs[i + 1 - w..i + 1])
  {
  }

  lemma RollingMeanNonNegative(xs: seq<real>, w: Window, i: nat)
    requires i < |xs|
    requires forall k :: 0 <= k < |xs| ==> xs[k] >= 0.0
    requires RollingMean(xs, w)[i].Some?
    ensures RollingMean(xs, w)[i].value >= 0.0
  {
    var window := xs[i + 1 - w..i + 1];
    SumNonNegative(window);
    NonNegativeQuotient(Sum(window), w as real);
  }

  lemma NonNegativeQuotient(x: real, y: real)
    requires x >= 0.0 && y > 0.0
    ensures x / y >= 0.0
  {
  }

  /** The defined entries of a column, in order (pandas `dropna`, or a
      filter loop that keeps the entries it accepts). */
  function Somes<T>(xs: seq<Option<T>>): seq<T>
  {
    if |xs| == 0 then []
    else
      var kept := Somes(xs[..|xs| - 1]);
      if xs[|xs| - 1].Some? then kept + [xs[|xs| - 1].value] else kept
  }

  /** The positions of the defined entries, in order. */
  function SomeIndices<T>(xs: seq<Option<T>>): seq<nat>
  {
    if |xs| == 0 then []
    else SomeIndices(xs[..|xs| - 1]) + if xs[|xs| - 1].Some? then [|xs| - 1] else []
  }

  /** `Somes` is an order-preserving selection: entry `k` is the value at the
      strictly increasing position `SomeIndices[k]`, and a position is listed
      exactly when its entry is defined. */
  lemma SomesIsSubsequence<T>(xs: seq<Option<T>>)
    ensures var out, idx := Somes(xs), SomeIndices(xs);
      && |out| == |idx| <= |xs|
      && (forall k :: 0 <= k < |idx| ==> idx[k] < |xs| && xs[idx[k]] == Some(out[k]))
      && (forall k, l :: 0 <= k < l < |idx| ==> idx[k] < idx[l])
      && (forall i :: 0 <= i < |xs| ==> (xs[i].Some? <==> i in idx))
  {
    SomesAtIndices(xs);
    SomeIndicesIncreasing(xs);
    SomeIndicesComplete(xs);
  }

  lemma {:induction false} SomesAtIndices<T>(xs: seq<Option<T>>)
    ensures |Somes(xs)| == |SomeIndices(xs)| <= |xs|
    ensures forall k :: 0 <= k < |SomeIndices(xs)| ==> SomeIndices(xs)[k] < |xs| && xs[SomeIndices(xs)[k]] == Some(Somes(xs)[k])
  {
    if |xs| > 0 {
      var prefix, last := xs[..|xs| - 1], xs[|xs| - 1];
      SomesAtIndices(prefix);
      var out, idx := Somes(prefix), SomeIndices(prefix);
      if last.Some? {
        assert Somes(xs) == out + [last.value] && SomeIndices(xs) == idx + [|xs| - 1];
      } else {
        assert Somes(xs) == out && SomeIndices(xs) == idx;
      }
      forall k | 0 <= k < |idx|
        ensures xs[idx[k]] == Some(out[k])
      {
        assert prefix[idx[k]] == xs[idx[k]];
      }
    }
  }

  lemma {:induction false} SomeIndicesIncreasing<T>(xs: seq<Option<T>>)
    ensures forall k :: 0 <= k < |SomeIndices(xs)| ==> SomeIndices(xs)[k] < |xs|
    ensures forall k, l :: 0 <= k < l < |SomeIndices(xs)| ==> SomeIndices(xs)[k] < SomeIndices(xs)[l]
  {
    if |xs| > 0 {
      SomeIndicesIncreasing(xs[..|xs| - 1]);
    }
  }

  lemma {:induction false} SomeIndicesComplete<T>(xs: seq<Option<T>>)
    ensures forall i :: 0 <= i < |xs| ==> (xs[i].Some? <==> i in SomeIndices(xs))
  {
    if |xs| > 0 {
      var prefix := xs[..|xs| - 1];
      SomeIndicesComplete(prefix);
      SomeIndicesIncreasing(prefix);
      assert forall i :: 0 <= i < |prefix| ==> prefix[i] == xs[i];
    }
  }

  /** When the entries are undefined exactly before position `k`, `Somes`
      keeps the entries from `k` on: entry `j` is the one at `j + k`. */
  lemma {:induction false} SomesOfSuffix<T>(xs: seq<Option<T>>, k: nat)
    requires forall i :: 0 <= i < |xs| ==> (xs[i].Some? <==> i >= k)
    ensures |Somes(xs)| == if |xs| >= k then |xs| - k else 0
    ensures forall j :: 0 <= j < |Somes(xs)| ==> xs[j + k] == Some(Somes(xs)[j])
  {
    if |xs| > 0 {
      var prefix := xs[..|xs| - 1];
      assert forall i :: 0 <= i < |prefix| ==> prefix[i] == xs[i];
      SomesOfSuffix(prefix, k);
    }
  }

  /** `s.diff()`: undefined at index 0, then the difference of neighbours. */
  function Diff(s: seq<int>): (r: seq<Option<int>>)
    ensures |r| == |s|
  {
    seq(|s|, i requires 0 <= i < |s| => if i == 0 then None else Some(s[i] - s[i - 1]))
  }

  /** The difference of two consecutive signals always lies in -2..2, and in
      -1..1 when both are 0 or 1. */
  lemma DiffOfBinaryIsSignal(s: seq<int>, i: nat)
    requires i < |s|
    requires forall k :: 0 <= k < |s| ==> 0 <= s[k] <= 1
    ensures i == 0 <==> Diff(s)[i] == None
    ensures i > 0 ==> -1 <= Diff(s)[i].value <= 1
  {
  }

  // NaN-aware comparisons: false whenever either side is NaN.
  predicate Gt(a: Option<real>, b: Option<real>) { a.Some? && b.Some? && a.value > b.value }
  predicate Lt(a: Option<real>, b: Option<real>) { a.Some? && b.Some? && a.value < b.value }
  predicate Ge(a: Option<real>, b: Option<real>) { a.Some? && b.Some? && a.value >= b.value }
  predicate Le(a: Option<real>, b: Option<real>) { a.Some? && b.Some? && a.value <= b.value }

  function Abs(x: real): real { if x < 0.0 then -x else x }

  function Max(x: real, y: real): real { if x >= y then x else y }

  function Min(x: real, y: real): real { if x <= y then x else y }
}
