/**
 * The display rules of src/components/InterpretabilityPage.tsx: the risk
 * tier shown for a confidence, the placeholder shown without analysis data,
 * the geometry of the signed bars of the SHAP and LIME charts (the canvas
 * calls themselves are not modelled) and the formatting of feature values.
 */
module Interpretability {
  import opened Wrappers
  import opened MockData

  // ---------------------------------------------------------------------------
  // Risk tier

  datatype RiskTier = HighRisk | MediumRisk | LowRisk

  function RiskTierOf(confidence: real): RiskTier
  {
    if confidence > 0.8 then HighRisk
    else if confidence > 0.6 then MediumRisk
    else LowRisk
  }

  /** Each tier holds on exactly one interval: (0.8, ..), (0.6, 0.8] and (.., 0.6]. */
  lemma RiskTierThresholds(confidence: real)
    ensures RiskTierOf(confidence) == HighRisk <==> confidence > 0.8
    ensures RiskTierOf(confidence) == MediumRisk <==> 0.6 < confidence <= 0.8
    ensures RiskTierOf(confidence) == LowRisk <==> confidence <= 0.6
  {
  }

  /** The label and the tier use different thresholds: a Bot label up to 0.8 reads as Medium Risk. */
  lemma BotLabelBelowHighRiskThreshold(confidence: real)
    requires LabelOf(confidence) == Bot && confidence <= 0.8
    ensures RiskTierOf(confidence) == MediumRisk
  {
  }

  // ---------------------------------------------------------------------------
  // Placeholder

  datatype View = Placeholder | Report(profile: Profile, result: Prediction)

  /** The page with its two props: the report needs both of them. */
  function ViewOf(profile: Option<Profile>, result: Option<Prediction>): View
  {
    if result.None? || profile.None? then Placeholder else Report(profile.value, result.value)
  }

  lemma PlaceholderExactlyWithoutData(profile: Option<Profile>, result: Option<Prediction>)
    ensures ViewOf(profile, result) == Placeholder <==> profile.None? || result.None?
    ensures ViewOf(profile, result).Report? ==>
      ViewOf(profile, result) == Report(profile.value, result.value)
  {
  }

  // ---------------------------------------------------------------------------
  // Bar geometry

  /** The constants of one chart: where the zero line stands, where rows begin, how wide the longest bar is. */
  datatype ChartLayout = ChartLayout(startX: real, startY: real, chartWidth: real, barHeight: real, barSpacing: real)

  const ShapLayout: ChartLayout := ChartLayout(250.0, 80.0, 350.0, 35.0, 60.0)
  const LimeLayout: ChartLayout := ChartLayout(280.0, 80.0, 300.0, 35.0, 60.0)

  /** A `fillRect(x, y, width, height)` call. */
  datatype Rect = Rect(x: real, y: real, width: real, height: real)

  function Abs(x: real): real
  {
    if x < 0.0 then -x else x
  }

  /** `Math.max(...values.map(Math.abs))`. */
  function MaxAbs(values: seq<real>): (m: real)
    requires |values| > 0
    ensures forall i :: 0 <= i < |values| ==> Abs(values[i]) <= m
    ensures exists i :: 0 <= i < |values| && Abs(values[i]) == m
  {
    if |values| == 1 then Abs(values[0])
    else
      var rest := MaxAbs(values[1..]);
      assert forall i :: 1 <= i < |values| ==> values[i] == values[1..][i - 1];
      if Abs(values[0]) >= rest then Abs(values[0]) else rest
  }

  function RowY(layout: ChartLayout, i: nat): real
  {
    layout.startY + i as real * layout.barSpacing
  }

  /** `(Math.abs(value) / maxValue) * chartWidth`. */
  function BarWidth(value: real, maxValue: real, chartWidth: real): real
    requires maxValue != 0.0
  {
    (Abs(value) / maxValue) * chartWidth
  }

  /**
   * The bar of row i: its width is |v| / max|v| of the chart width; a positive
   * value grows right from the zero line, any other value ends at it. When
   * every value is 0 the width is 0 / 0, which is NaN, and nothing is drawn.
   */
  function BarAt(layout: ChartLayout, values: seq<real>, i: nat): Option<Rect>
    requires i < |values|
  {
    var maxValue := MaxAbs(values);
    if maxValue == 0.0 then None
    else
      var value := values[i];
      var barWidth := BarWidth(value, maxValue, layout.chartWidth);
      var y := RowY(layout, i);
      if value > 0.0 then Some(Rect(layout.startX, y, barWidth, layout.barHeight))
      else Some(Rect(layout.startX - barWidth, y, barWidth, layout.barHeight))
  }

  /** A magnitude up to the maximum gives a width up to the chart width; the maximum gives the full width. */
  lemma BarWidthBounds(value: real, maxValue: real, chartWidth: real)
    requires 0.0 < maxValue && Abs(value) <= maxValue && 0.0 <= chartWidth
    ensures 0.0 <= BarWidth(value, maxValue, chartWidth) <= chartWidth
    ensures Abs(value) == maxValue ==> BarWidth(value, maxValue, chartWidth) == chartWidth
    ensures value == 0.0 ==> BarWidth(value, maxValue, chartWidth) == 0.0
  {
    var q := Abs(value) / maxValue;
    assert q * maxValue == Abs(value);
    assert 0.0 <= q <= 1.0;
    assert q * chartWidth <= 1.0 * chartWidth;
  }

  /** With some non-zero value, every bar is drawn in its row, within the chart width, on its side of the zero line. */
  lemma BarGeometry(layout: ChartLayout, values: seq<real>, i: nat)
    requires i < |values| && MaxAbs(values) > 0.0 && layout.chartWidth >= 0.0
    ensures BarAt(layout, values, i).Some?
    ensures var bar := BarAt(layout, values, i).value;
      && 0.0 <= bar.width <= layout.chartWidth
      && bar.y == RowY(layout, i) && bar.height == layout.barHeight
      && (values[i] > 0.0 ==> bar.x == layout.startX)
      && (values[i] <= 0.0 ==> bar.x + bar.width == layout.startX)
      && (values[i] == 0.0 ==> bar.width == 0.0)
  {
    BarWidthBounds(values[i], MaxAbs(values), layout.chartWidth);
  }

  /** The bar of a value with the largest magnitude spans the whole chart width. */
  lemma FullWidthBarExists(layout: ChartLayout, values: seq<real>)
    requires |values| > 0 && MaxAbs(values) > 0.0 && layout.chartWidth >= 0.0
    ensures exists i :: 0 <= i < |values| && BarAt(layout, values, i).Some? &&
                        BarAt(layout, values, i).value.width == layout.chartWidth
  {
    var m := MaxAbs(values);
    var i :| 0 <= i < |values| && Abs(values[i]) == m;
    BarWidthBounds(values[i], m, layout.chartWidth);
    assert BarAt(layout, values, i).value.width == layout.chartWidth;
  }

  /** Rows rise by the spacing, so bars shorter than the spacing never overlap. */
  lemma {:induction false} RowsDoNotOverlap(layout: ChartLayout, i: nat, j: nat)
    requires 0.0 <= layout.barHeight < layout.barSpacing
    requires i < j
    ensures RowY(layout, i) + layout.barHeight < RowY(layout, j)
  {
    var gap := (j - i) as real;
    assert gap >= 1.0;
    assert RowY(layout, j) - RowY(layout, i) == gap * layout.barSpacing;
    assert gap * layout.barSpacing >= 1.0 * layout.barSpacing;
  }

  /** Both charts use bars of height 35 on rows 60 apart. */
  lemma ChartRowsAreSeparated(i: nat, j: nat)
    requires i < j
    ensures RowY(ShapLayout, i) + ShapLayout.barHeight < RowY(ShapLayout, j)
    ensures RowY(LimeLayout, i) + LimeLayout.barHeight < RowY(LimeLayout, j)
  {
    RowsDoNotOverlap(ShapLayout, i, j);
    RowsDoNotOverlap(LimeLayout, i, j);
  }

  /** `Object.values(shapValues)`, in key order. */
  function ShapBarValues(shap: seq<Entry>): (r: seq<real>)
    ensures |r| == |shap| && forall i :: 0 <= i < |shap| ==> r[i] == shap[i].value
  {
    seq(|shap|, i requires 0 <= i < |shap| => shap[i].value)
  }

  /** The LIME weights, in list order. */
  function LimeBarValues(lime: seq<LimeFeature>): (r: seq<real>)
    ensures |r| == |lime| && forall i :: 0 <= i < |lime| ==> r[i] == lime[i].weight
  {
    seq(|lime|, i requires 0 <= i < |lime| => lime[i].weight)
  }

  /** For every generated prediction some SHAP value and some LIME weight is non-zero, so every bar is drawn. */
  lemma GeneratedChartsDrawEveryBar(profile: Profile, now: real, draw: real)
    ensures var p := PredictionOf(profile, now, draw);
      && |ShapBarValues(p.shapValues)| == 6 && MaxAbs(ShapBarValues(p.shapValues)) > 0.0
      && |LimeBarValues(p.limeExplanation)| == 4 && MaxAbs(LimeBarValues(p.limeExplanation)) > 0.0
  {
    var ind := IndicatorsOf(profile, now);
    ShapValuesShape(ind);
    LimeExplanationShape(ind);
    var shap := ShapBarValues(ShapValuesOf(ind));
    var lime := LimeBarValues(LimeExplanationOf(ind));
    assert Abs(shap[2]) > 0.0 && Abs(shap[2]) <= MaxAbs(shap);
    assert Abs(lime[1]) > 0.0 && Abs(lime[1]) <= MaxAbs(lime);
  }

  // ---------------------------------------------------------------------------
  // Feature values

  /**
   * What formatFeatureValue renders: a percentage with one decimal, a
   * rounded whole number, a word, or a number with three decimals. The
   * decimal text itself is not modelled.
   */
  datatype Display = Percent(amount: real) | WholeNumber(n: int) | Text(text: string) | Fixed3(value: real)

  function FormatFeatureValue(feature: string, value: real): Display
  {
    if feature == BioName || feature == CompletenessName then Percent(value * 100.0)
    else if feature == AgeName then WholeNumber((value + 0.5).Floor)
    else if feature == VerificationName then (if value > 0.5 then Text("Yes") else Text("No"))
    else Fixed3(value)
  }

  /** 'Verification Status' reads Yes exactly above 0.5 and No otherwise. */
  lemma VerificationStatusDisplay(value: real)
    ensures FormatFeatureValue(VerificationName, value) == Text("Yes") <==> value > 0.5
    ensures FormatFeatureValue(VerificationName, value) == Text("No") <==> value <= 0.5
  {
  }

  /** The verification feature of a prediction reads Yes exactly for a verified profile. */
  lemma VerificationShownAsProfileFlag(ind: Indicators)
    ensures var f := FeaturesOf(ind)[5];
      f.name == VerificationName &&
      (FormatFeatureValue(f.name, f.value) == Text("Yes") <==> ind.verified)
  {
  }

  /** Math.round: the whole number nearest to the value, halves rounded up. */
  lemma AgeRounding(value: real)
    ensures var n := FormatFeatureValue(AgeName, value).n;
      value - 0.5 < n as real <= value + 0.5
  {
  }
}
