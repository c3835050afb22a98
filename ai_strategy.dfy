/** The machine-learning strategy (backend/app/strategies/ai_strategy.py).
    The classifier itself (fitting, prediction, scoring, persistence) is
    outside the model: whether a model is loaded is a field, and what it
    predicts is an input. Modelled are the feature and label construction,
    the training data guard, the backtest signal frame and the live
    decision with its risk-managed bracket order. */
module AiStrategy {
  import opened Series
  import opened Orders
  import RiskManager

  /** The longest feature window; rows before it have an undefined SMA. */
  const LongestWindow: Window := 50
  /** How far ahead a label looks. */
  const LabelHorizon: nat := 5
  /** Training needs at least this many bars. */
  const MinTrainingBars: nat := 100
  /** The live cycle asks the broker for this many bars. */
  const LiveBarLimit: nat := 100

  /** One row of the feature frame: its position in the bar frame and the
      four moving averages there. */
  datatype FeatureRow = FeatureRow(index: nat, sma5: real, sma10: real, sma20: real, sma50: real)

  /** The feature frame before `dropna`: a row is undefined while any of its
      moving averages is. */
  function RawFeatures(closes: seq<real>): (r: seq<Option<FeatureRow>>)
    ensures |r| == |closes|
  {
    var m5, m10, m20, m50 := RollingMean(closes, 5), RollingMean(closes, 10), RollingMean(closes, 20), RollingMean(closes, 50);
    seq(|closes|, i requires 0 <= i < |closes| =>
      if m5[i].Some? && m10[i].Some? && m20[i].Some? && m50[i].Some?
      then Some(FeatureRow(i, m5[i].value, m10[i].value, m20[i].value, m50[i].value))
      else None)
  }

  /** `_prepare_features`: the moving-average rows with `dropna` applied. */
  function PrepareFeatures(closes: seq<real>): seq<FeatureRow>
  {
    Somes(RawFeatures(closes))
  }

  /** How many feature rows `n` bars give: the first 49 rows are dropped. */
  function FeatureCount(n: nat): nat
  {
    if n >= LongestWindow then n - (LongestWindow - 1) else 0
  }

  /** A raw feature row is defined exactly from the 50th bar on. */
  lemma RawFeaturesDefinedIff(closes: seq<real>, i: nat)
    requires i < |closes|
    ensures RawFeatures(closes)[i].Some? <==> i >= LongestWindow - 1
    ensures RawFeatures(closes)[i].Some? ==> RawFeatures(closes)[i].value.index == i
  {
    RollingMeanDefinedIff(closes, 5, i);
    RollingMeanDefinedIff(closes, 10, i);
    RollingMeanDefinedIff(closes, 20, i);
    RollingMeanDefinedIff(closes, 50, i);
  }

  /** With `n` bars the features are the rows 49 .. n - 1 of the bar frame:
      none with fewer than 50 bars, and row `j` sits at bar `j + 49`. */
  lemma PrepareFeaturesRows(closes: seq<real>)
    ensures |PrepareFeatures(closes)| == FeatureCount(|closes|)
    ensures forall j :: 0 <= j < |PrepareFeatures(closes)| ==>
      && PrepareFeatures(closes)[j].index == j + (LongestWindow - 1)
      && RawFeatures(closes)[j + (LongestWindow - 1)] == Some(PrepareFeatures(closes)[j])
  {
    var raw := RawFeatures(closes);
    forall i | 0 <= i < |raw| ensures raw[i].Some? <==> i >= LongestWindow - 1 {
      RawFeaturesDefinedIff(closes, i);
    }
    SomesOfSuffix(raw, LongestWindow - 1);
    forall j | 0 <= j < |PrepareFeatures(closes)|
      ensures PrepareFeatures(closes)[j].index == j + (LongestWindow - 1)
    {
      RawFeaturesDefinedIff(closes, j + (LongestWindow - 1));
    }
  }

  /** `_prepare_labels`: 1 where the close five bars later is higher; the
      shifted close is NaN on the last five bars, which compares false. */
  function PrepareLabels(closes: seq<real>): (r: seq<int>)
    ensures |r| == |closes|
  {
    seq(|closes|, i requires 0 <= i < |closes| =>
      if i + LabelHorizon < |closes| && closes[i + LabelHorizon] > closes[i] then 1 else 0)
  }

  /** Labels are 0 or 1, are 1 exactly where the price rose over the next
      five bars, and are 0 on the last five bars. */
  lemma PrepareLabelsAt(closes: seq<real>, i: nat)
    requires i < |closes|
    ensures PrepareLabels(closes)[i] == 0 || PrepareLabels(closes)[i] == 1
    ensures PrepareLabels(closes)[i] == 1 <==> i + LabelHorizon < |closes| && closes[i + LabelHorizon] > closes[i]
    ensures i + LabelHorizon >= |closes| ==> PrepareLabels(closes)[i] == 0
  {
  }

  /** One training example after aligning features and labels on the
      feature frame's index. */
  datatype Sample = Sample(features: FeatureRow, target: int)

  /** The data `train` hands to the classifier, or its error message. */
  function TrainingSet(closes: seq<real>): Result<seq<Sample>>
  {
    if |closes| < MinTrainingBars then Err("Not enough data.")
    else
      var features := PrepareFeatures(closes);
      var labels := PrepareLabels(closes);
      if |features| == 0 then Err("Could not prepare features.")
      else Ok(seq(|features|, j requires 0 <= j < |features| =>
        Sample(features[j], if features[j].index < |labels| then labels[features[j].index] else 0)))
  }

  /** Fewer than 100 bars are refused; from 100 bars on there are n - 49
      samples, each pairing the features of bar j + 49 with its label, so
      the "Could not prepare features." branch is never taken. */
  lemma TrainingSetShape(closes: seq<real>)
    ensures |closes| < MinTrainingBars <==> TrainingSet(closes) == Err("Not enough data.")
    ensures TrainingSet(closes) != Err("Could not prepare features.")
    ensures |closes| >= MinTrainingBars ==>
      && TrainingSet(closes).Ok?
      && |TrainingSet(closes).value| == |closes| - (LongestWindow - 1)
      && forall j :: 0 <= j < |TrainingSet(closes).value| ==>
           && TrainingSet(closes).value[j].features.index == j + (LongestWindow - 1)
           && TrainingSet(closes).value[j].target == PrepareLabels(closes)[j + (LongestWindow - 1)]
  {
    PrepareFeaturesRows(closes);
  }

  /** The two columns `generate_signals` returns. */
  datatype SignalFrame = SignalFrame(signal: seq<int>, position: seq<Option<int>>)

  /** An all-zero frame of `n` rows. */
  function ZeroFrame(n: nat): (f: SignalFrame)
    ensures |f.signal| == n && |f.position| == n
  {
    SignalFrame(seq(n, i => 0), seq(n, i => Some(0)))
  }

  /** The live cycle's stop: 2 ATRs of 14 bars below the last close, or the
      fallback stop when that ATR is not usable. */
  function BuyStop(bars: seq<Bar>): real
    requires |bars| > 0
  {
    var last := bars[|bars| - 1].close;
    RiskManager.StopLoss(last, RiskManager.Atr(bars, RiskManager.DefaultAtrPeriod)[|bars| - 1], RiskManager.DefaultAtrMultiplier)
  }

  /** The live cycle's order size: the shares whose loss at `BuyStop`
      risks 1% of equity. */
  function BuySize(riskManager: RiskManager.RiskManager, bars: seq<Bar>): real
    requires |bars| > 0
  {
    RiskManager.PositionSize(riskManager, bars[|bars| - 1].close, BuyStop(bars), RiskManager.DefaultRiskPercentage)
  }

  /** The opening sentence of the message scikit-learn raises when an unfitted estimator predicts. */
  const NotFitted: string := "This LogisticRegression instance is not fitted yet."

  class AIStrategy {
    /** Whether a model is present (`self.model` is not None). */
    var hasModel: bool
    /** Whether that model has been fitted; an estimator whose `fit` raised
        stays in `self.model` unfitted. */
    var fitted: bool
    /** The risk manager the live cycle sizes its orders with. */
    const riskManager: RiskManager.RiskManager

    /** Only a present model can be fitted. */
    predicate Valid()
      reads this
    {
      fitted ==> hasModel
    }

    /** The constructor loads the model if one was saved to disk; a saved
        model is a fitted one. */
    constructor (riskManager: RiskManager.RiskManager, modelOnDisk: bool)
      ensures Valid()
      ensures hasModel == modelOnDisk && fitted == modelOnDisk && this.riskManager == riskManager
    {
      this.riskManager := riskManager;
      hasModel := modelOnDisk;
      fitted := modelOnDisk;
    }

    /** `train`, given the broker's answer and the outcome of the
        classifier's `fit` (None when it succeeds, else the message it
        raises). A failed fetch returns its message and fewer than 100 bars
        return "Not enough data.", both leaving the model as it was. From
        100 bars on a fresh estimator replaces the model before `fit` is
        called: a fit that raises returns its message and leaves that
        estimator unfitted, and a fit that succeeds returns "Training
        successful" with a fitted model. */
    method Train(fetched: Fetch, fitError: Option<string>) returns (r: Result<string>)
      requires Valid()
      modifies this
      ensures Valid()
      ensures fetched.FetchFailed? ==>
        r == Err(fetched.message) && hasModel == old(hasModel) && fitted == old(fitted)
      ensures fetched.Fetched? && |fetched.bars| < MinTrainingBars ==>
        r == Err("Not enough data.") && hasModel == old(hasModel) && fitted == old(fitted)
      ensures fetched.Fetched? && |fetched.bars| >= MinTrainingBars && fitError.Some? ==>
        r == Err(fitError.value) && hasModel && !fitted
      ensures fetched.Fetched? && |fetched.bars| >= MinTrainingBars && fitError.None? ==>
        r == Ok("Training successful") && hasModel && fitted
    {
      if fetched.FetchFailed? {
        return Err(fetched.message);
      }
      var data := TrainingSet(Closes(fetched.bars));
      TrainingSetShape(Closes(fetched.bars));
      if data.Err? {
        return Err(data.message);
      }
      hasModel := true;
      fitted := false;
      if fitError.Some? {
        return Err(fitError.value);
      }
      fitted := true;
      r := Ok("Training successful");
    }

    /** `generate_signals` for a frame of closes, given the model's
        prediction for each feature row. Without a model, or with no
        feature rows, both columns are all 0; an unfitted model raises when
        asked to predict; otherwise the signal is the prediction on feature
        rows and 0 elsewhere, and the position is its diff. */
    function GenerateSignals(closes: seq<real>, predictions: seq<int>): (r: Result<SignalFrame>)
      reads this
      requires |predictions| == FeatureCount(|closes|)
      ensures r.Ok? ==> |r.value.signal| == |closes| && |r.value.position| == |closes|
      ensures !hasModel || |closes| < LongestWindow ==> r == Ok(ZeroFrame(|closes|))
      ensures r.Err? <==> hasModel && !fitted && |closes| >= LongestWindow
    {
      if !hasModel || |closes| < LongestWindow then Ok(ZeroFrame(|closes|))
      else if !fitted then Err(NotFitted)
      else
        var signal := seq(|closes|, i requires 0 <= i < |closes| =>
          if i >= LongestWindow - 1 then predictions[i - (LongestWindow - 1)] else 0);
        Ok(SignalFrame(signal, Diff(signal)))
    }

    /** With a fitted model, every feature row carries its own prediction
        and every other row 0. */
    lemma GenerateSignalsWithModel(closes: seq<real>, predictions: seq<int>)
      requires |predictions| == FeatureCount(|closes|)
      requires hasModel && fitted && |closes| >= LongestWindow
      ensures var f, features := GenerateSignals(closes, predictions).value, PrepareFeatures(closes);
        && |features| == |predictions|
        && (forall j :: 0 <= j < |features| ==>
              features[j].index == j + (LongestWindow - 1) && f.signal[features[j].index] == predictions[j])
        && (forall i :: 0 <= i < LongestWindow - 1 ==> f.signal[i] == 0)
    {
      PrepareFeaturesRows(closes);
    }

    /** The position is the row-to-row change of the signal, undefined on the
        first row; with 0/1 predictions it lies in -1..1. */
    lemma GenerateSignalsPosition(closes: seq<real>, predictions: seq<int>, i: nat)
      requires |predictions| == FeatureCount(|closes|)
      requires hasModel && fitted && |closes| >= LongestWindow && i < |closes|
      ensures var f := GenerateSignals(closes, predictions).value;
        && (f.position[i].None? <==> i == 0)
        && (i > 0 ==> f.position[i] == Some(f.signal[i] - f.signal[i - 1]))
        && ((forall j :: 0 <= j < |predictions| ==> 0 <= predictions[j] <= 1) && i > 0 ==>
              -1 <= f.position[i].value <= 1)
    {
    }

    /** `run`: one live cycle, given the broker's answer to the bar request,
        the model's prediction for the last feature row and the broker's
        answer to the position lookup. Without a model, bars or feature
        rows nothing happens; a failed fetch raises (the call is unguarded)
        and so does an unfitted model asked to predict. A buy is a bracket
        order sized by `BuySize` with the stop `BuyStop`, and the
        take-profit twice as far above the entry as the stop is below it. */
    function Run(fetched: Fetch, prediction: int, positionLookup: Option<real>): (r: Outcome)
      reads this
      ensures !hasModel ==> r == Skipped
      ensures fetched.Fetched? && |fetched.bars| < LongestWindow ==> r == Skipped
      ensures r == Raised <==>
        hasModel && (fetched.FetchFailed? || (!fitted && |fetched.bars| >= LongestWindow))
    {
      if !hasModel then Skipped
      else match fetched
        case FetchFailed(_) => Raised
        case Fetched(bars) =>
          PrepareFeaturesRows(Closes(bars));
          if |bars| == 0 || |PrepareFeatures(Closes(bars))| == 0 then Skipped
          else if !fitted then Raised
          else
            var current := HeldQuantity(positionLookup);
            if prediction == 1 && current == 0.0 then
              var last, stop, qty := bars[|bars| - 1].close, BuyStop(bars), BuySize(riskManager, bars);
              if qty > 0.0 then Submitted(BracketBuy(qty, last + (last - stop) * 2.0, stop))
              else NoOrder
            else if prediction == 0 && current > 0.0 then Submitted(ClosePosition)
            else NoOrder
    }

    /** A bracket buy is sent exactly when a fitted model predicts 1 on at
        least 50 fetched bars with nothing held and a positive risk-managed
        size. Its stop is the 2-ATR stop below the last close, its quantity
        that size, so that a loss at the stop costs 1% of equity, and its
        take-profit twice as far above the close as the stop is below
        (2:1 reward to risk), with the stop strictly between 0 and the
        close. */
    lemma RunBracketOrder(fetched: Fetch, prediction: int, positionLookup: Option<real>)
      ensures var r := Run(fetched, prediction, positionLookup);
        r.Submitted? && r.order.BracketBuy? <==>
          && hasModel && fitted && fetched.Fetched? && |fetched.bars| >= LongestWindow
          && prediction == 1 && HeldQuantity(positionLookup) == 0.0
          && BuySize(riskManager, fetched.bars) > 0.0
      ensures var r := Run(fetched, prediction, positionLookup);
        r.Submitted? && r.order.BracketBuy? ==>
          var o, bars := r.order, fetched.bars;
          var last := bars[|bars| - 1].close;
          && o.stopLoss == RiskManager.StopLoss(last, RiskManager.Atr(bars, RiskManager.DefaultAtrPeriod)[|bars| - 1], RiskManager.DefaultAtrMultiplier)
          && o.qty == RiskManager.PositionSize(riskManager, last, o.stopLoss, RiskManager.DefaultRiskPercentage)
          && 0.0 < o.stopLoss < last
          && o.takeProfit - last == 2.0 * (last - o.stopLoss)
          && o.qty * (last - o.stopLoss) == riskManager.accountEquity * RiskManager.DefaultRiskPercentage
    {
      if hasModel && fetched.Fetched? {
        PrepareFeaturesRows(Closes(fetched.bars));
      }
    }

    /** The position is closed exactly on a sell prediction of a fitted
        model with something held, once bars and features are present. */
    lemma RunClosesPosition(fetched: Fetch, prediction: int, positionLookup: Option<real>)
      ensures Run(fetched, prediction, positionLookup) == Submitted(ClosePosition) <==>
        && hasModel && fitted && fetched.Fetched? && |fetched.bars| >= LongestWindow
        && prediction == 0 && HeldQuantity(positionLookup) > 0.0
    {
      if hasModel && fetched.Fetched? {
        PrepareFeaturesRows(Closes(fetched.bars));
      }
    }
  }
}
