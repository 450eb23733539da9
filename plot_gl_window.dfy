/**
 * The OpenGL plot window: one plot at a time, with its type, title, axis
 * labels and series. Each create call validates its series and, when it
 * accepts them, stores them with the title given or, for an empty title,
 * the type's default title. The window's OpenGL/ImGui setup is reduced to
 * its initialized flag.
 */
module PlotGLWindows {
  import opened Wrappers
  import opened PlotGeometry

  /** The window's plot types. */
  datatype PlotType = Scatter | TimeSeries | Residual | Importance | LearningCurve

  /** The plot the window holds: everything a create call may overwrite
      (the importance map as its entries in iteration order). */
  datatype Plot = Plot(
    plotType: PlotType, title: string, xLabel: string, yLabel: string,
    xValues: seq<real>, yValues: seq<real>, y2Values: seq<real>, importance: seq<Entry>,
    trainingSizes: seq<real>, trainingScores: seq<real>, validationScores: seq<real>)

  /** A new window: a scatter plot with no title, labels or data. */
  const Empty := Plot(Scatter, "", "", "", [], [], [], [], [], [], [])

  /** The given title, or the default when it is empty. */
  function TitleOr(title: string, fallback: string): (t: string)
    ensures title != "" ==> t == title
    ensures title == "" ==> t == fallback
  {
    if title == "" then fallback else title
  }

  /** The two-series check: equal lengths, and not empty. */
  predicate PairAccepted(x: seq<real>, y: seq<real>)
  {
    |x| == |y| && |x| > 0
  }

  function ScatterPlot(p: Plot, x: seq<real>, y: seq<real>, title: string, xl: string, yl: string): Plot
  {
    if PairAccepted(x, y)
    then p.(plotType := Scatter, title := TitleOr(title, "Scatter Plot"), xLabel := xl, yLabel := yl,
            xValues := x, yValues := y)
    else p
  }

  function TimeSeriesPlot(p: Plot, actual: seq<real>, predicted: seq<real>, title: string): Plot
  {
    if PairAccepted(actual, predicted)
    then p.(plotType := TimeSeries, title := TitleOr(title, "Time Series Plot"), xLabel := "Time",
            yLabel := "Value", xValues := TimeAxis(|actual|), yValues := actual, y2Values := predicted)
    else p
  }

  function ResidualPlot(p: Plot, predicted: seq<real>, residuals: seq<real>, title: string): Plot
  {
    if PairAccepted(predicted, residuals)
    then p.(plotType := Residual, title := TitleOr(title, "Residual Plot"), xLabel := "Predicted",
            yLabel := "Residual", xValues := predicted, yValues := residuals)
    else p
  }

  function ImportancePlot(p: Plot, importance: seq<Entry>, title: string): Plot
  {
    if |importance| > 0
    then p.(plotType := Importance, title := TitleOr(title, "Feature Importance"), xLabel := "Importance",
            yLabel := "Feature", importance := importance)
    else p
  }

  /** The learning curve's check: all three series non-empty and of one
      length (unlike the plot widget, the validation scores are required). */
  predicate CurveAccepted(sizes: seq<real>, scores: seq<real>, valid: seq<real>)
  {
    |sizes| > 0 && |scores| > 0 && |valid| > 0 && |sizes| == |scores| && |sizes| == |valid|
  }

  function LearningCurvePlot(p: Plot, sizes: seq<real>, scores: seq<real>, valid: seq<real>, title: string): Plot
  {
    if CurveAccepted(sizes, scores, valid)
    then p.(plotType := LearningCurve, title := TitleOr(title, "Learning Curve"), xLabel := "Training Examples",
            yLabel := "Score", trainingSizes := sizes, trainingScores := scores, validationScores := valid)
    else p
  }

  /**
   * A refused create leaves the plot as it was, type included; an
   * accepted one sets the matching type, and the title is never left
   * empty by a create: an empty one is replaced by the type's default.
   */
  lemma CreateOutcomes(p: Plot, x: seq<real>, y: seq<real>, v: seq<real>, m: seq<Entry>, title: string)
    ensures !PairAccepted(x, y) ==>
      ScatterPlot(p, x, y, title, "", "") == p && TimeSeriesPlot(p, x, y, title) == p
      && ResidualPlot(p, x, y, title) == p && LearningCurvePlot(p, x, y, v, title) == p
    ensures |m| == 0 ==> ImportancePlot(p, m, title) == p
    ensures PairAccepted(x, y) ==>
      ScatterPlot(p, x, y, title, "", "").plotType == Scatter && ScatterPlot(p, x, y, title, "", "").title != ""
      && ResidualPlot(p, x, y, "").title == "Residual Plot"
    ensures PairAccepted(x, y) ==>
      var t := TimeSeriesPlot(p, x, y, "");
      t.plotType == TimeSeries && t.title == "Time Series Plot" && t.yValues == x && t.y2Values == y
      && |t.xValues| == |x| && (forall i :: 0 <= i < |x| ==> t.xValues[i] == i as real)
    ensures |m| > 0 ==> ImportancePlot(p, m, "").title == "Feature Importance"
    ensures PairAccepted(x, y) ==> LearningCurvePlot(p, x, y, [], title) == p
    ensures CurveAccepted(x, y, v) ==> LearningCurvePlot(p, x, y, v, "").title == "Learning Curve"
  {
  }

  /** The y = x line the scatter renderer draws: only when both series are
      non-empty and of equal length, from (m, m) to (M, M) over both. */
  function ScatterLine(p: Plot): (line: Option<Segment>)
    ensures line.Some? <==> PairAccepted(p.xValues, p.yValues)
    ensures line.Some? ==> line == IdentityLine(p.xValues, p.yValues)
  {
    if |p.xValues| > 0 && |p.yValues| > 0 && |p.xValues| == |p.yValues| then IdentityLine(p.xValues, p.yValues)
    else None
  }

  class PlotGLWindow {
    /** Whether ImGui/ImPlot were set up; only drawing sets it. */
    var initialized: bool
    var plot: Plot

    constructor ()
      ensures !initialized && plot == Empty
    {
      initialized, plot := false, Empty;
    }

    /** createScatterPlot. */
    method CreateScatterPlot(x: seq<real>, y: seq<real>, title: string, xl: string, yl: string)
      modifies this
      ensures plot == ScatterPlot(old(plot), x, y, title, xl, yl) && initialized == old(initialized)
    {
      if |x| != |y| {
        return;
      }
      if |x| == 0 {
        return;
      }
      plot := plot.(title := if title == "" then "Scatter Plot" else title, xLabel := xl, yLabel := yl,
                    xValues := x, yValues := y, plotType := Scatter);
    }

    /** createTimeSeriesPlot: the actual values over 0..n-1, predictions as
        the second series. */
    method CreateTimeSeriesPlot(actual: seq<real>, predicted: seq<real>, title: string)
      modifies this
      ensures plot == TimeSeriesPlot(old(plot), actual, predicted, title) && initialized == old(initialized)
    {
      if |actual| != |predicted| {
        return;
      }
      if |actual| == 0 {
        return;
      }
      var indices := TimeIndices(|actual|);
      plot := plot.(title := if title == "" then "Time Series Plot" else title, xLabel := "Time", yLabel := "Value",
                    xValues := indices, yValues := actual, y2Values := predicted, plotType := TimeSeries);
    }

    /** createResidualPlot. */
    method CreateResidualPlot(predicted: seq<real>, residuals: seq<real>, title: string)
      modifies this
      ensures plot == ResidualPlot(old(plot), predicted, residuals, title) && initialized == old(initialized)
    {
      if |predicted| != |residuals| {
        return;
      }
      if |predicted| == 0 {
        return;
      }
      plot := plot.(title := if title == "" then "Residual Plot" else title, xLabel := "Predicted",
                    yLabel := "Residual", xValues := predicted, yValues := residuals, plotType := Residual);
    }

    /** createImportancePlot. */
    method CreateImportancePlot(importance: seq<Entry>, title: string)
      modifies this
      ensures plot == ImportancePlot(old(plot), importance, title) && initialized == old(initialized)
    {
      if |importance| == 0 {
        return;
      }
      plot := plot.(title := if title == "" then "Feature Importance" else title, xLabel := "Importance",
                    yLabel := "Feature", importance := importance, plotType := Importance);
    }

    /** createLearningCurvePlot. */
    method CreateLearningCurvePlot(sizes: seq<real>, scores: seq<real>, valid: seq<real>, title: string)
      modifies this
      ensures plot == LearningCurvePlot(old(plot), sizes, scores, valid, title) && initialized == old(initialized)
    {
      if |sizes| == 0 || |scores| == 0 || |valid| == 0 {
        return;
      }
      if |sizes| != |scores| || |sizes| != |valid| {
        return;
      }
      plot := plot.(title := if title == "" then "Learning Curve" else title, xLabel := "Training Examples",
                    yLabel := "Score", trainingSizes := sizes, trainingScores := scores,
                    validationScores := valid, plotType := LearningCurve);
    }

    /** The importance renderer's bars: the stored entries by
        non-increasing value, nothing when there are none. */
    method ImportanceBarsShown() returns (values: seq<real>, labels: seq<string>)
      ensures |values| == |labels| == |plot.importance|
      ensures exists order: seq<Entry> :: multiset(order) == multiset(plot.importance) && NonIncreasing(order)
                                          && values == Values(order) && labels == Labels(order)
    {
      values, labels := [], [];
      if |plot.importance| > 0 {
        values, labels := ImportanceBars(plot.importance);
      } else {
        assert values == Values([]) && labels == Labels([]);
      }
    }
  }
}
