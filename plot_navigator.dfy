/**
 * The plot navigator: an owned list of plot widgets, the index of the one
 * shown, and a cached count. Each createPlot overload makes a fresh
 * widget, titles it, fills it through the widget's own create call and
 * appends it.
 */
module PlotNavigators {
  import opened PlotGeometry
  import opened PlotWidgets

  /** The two-series overload adds a plot for these types when the series
      have equal length, even when both are empty. */
  predicate PairPlotAdded(plotType: PlotType, x: seq<real>, y: seq<real>)
  {
    (plotType == Scatter || plotType == TimeSeries || plotType == Residual) && |x| == |y|
  }

  /** What the new widget of the two-series overload stores. */
  function PairPlotData(plotType: PlotType, x: seq<real>, y: seq<real>): PlotData
  {
    match plotType
    case Scatter => ScatterData(Blank, x, y, "Actual", "Predicted")
    case TimeSeries => TimeSeriesData(Blank, x, y)
    case Residual => ResidualData(Blank, x, y)
    case _ => Blank
  }

  /** The three-series overload's own check, the same as the widget's. */
  predicate CurvePlotAdded(x: seq<real>, y: seq<real>, y2: seq<real>)
  {
    |x| > 0 && |y| > 0 && |x| == |y| && (|y2| == 0 || |x| == |y2|)
  }

  /** What the new widget of the three-series overload stores: a curve for
      the two curve types, nothing but its title for any other type. */
  function CurvePlotData(plotType: PlotType, x: seq<real>, y: seq<real>, y2: seq<real>): PlotData
  {
    match plotType
    case LearningCurve => LearningCurveData(Blank, x, y, y2)
    case LossCurve => LossCurveData(Blank, x, y, y2)
    case _ => Blank
  }

  /**
   * The navigator checks less than the widget for the two-series plots:
   * equal but empty series add a plot the widget then leaves blank. For
   * the curves the two checks agree, so every curve it adds is filled.
   */
  lemma NavigatorChecks(plotType: PlotType, x: seq<real>, y: seq<real>, y2: seq<real>)
    ensures PairPlotAdded(plotType, [], []) <==> plotType in {Scatter, TimeSeries, Residual}
    ensures PairPlotData(plotType, [], []) == Blank
    ensures PairPlotAdded(plotType, x, y) && |x| > 0 ==> PairPlotData(plotType, x, y).plotType == plotType
    ensures CurvePlotAdded(x, y, y2) <==> CurveAccepted(x, y, y2)
    ensures CurvePlotAdded(x, y, y2) && plotType in {LearningCurve, LossCurve} ==>
      CurvePlotData(plotType, x, y, y2).plotType == plotType
  {
  }

  class PlotNavigator {
    var plots: seq<PlotWidget>
    var currentPlotIndex: nat
    var numPlots: nat

    /** The index points at a plot, or is 0 when there is none, and the
        cached count is the list's length. */
    predicate Valid()
      reads this
    {
      (currentPlotIndex < |plots| || (plots == [] && currentPlotIndex == 0)) && numPlots == |plots|
    }

    constructor ()
      ensures Valid() && plots == [] && currentPlotIndex == 0
    {
      plots, currentPlotIndex, numPlots := [], 0, 0;
    }

    /** updatePlotCount. */
    method UpdatePlotCount()
      modifies this
      ensures numPlots == |plots|
      ensures plots == old(plots) && currentPlotIndex == old(currentPlotIndex)
    {
      numPlots := |plots|;
    }

    /** plots.push_back. */
    method Push(plot: PlotWidget)
      modifies this
      ensures plots == old(plots) + [plot]
      ensures currentPlotIndex == old(currentPlotIndex) && numPlots == old(numPlots)
    {
      plots := plots + [plot];
    }

    /**
     * createPlot for scatter, time-series and residual plots: one new
     * widget when PairPlotAdded, none otherwise; the count is refreshed
     * except on a length mismatch, where it is already right.
     */
    method CreatePairPlot(plotType: PlotType, title: string, x: seq<real>, y: seq<real>)
      requires Valid()
      modifies this
      ensures Valid() && currentPlotIndex == old(currentPlotIndex)
      ensures PairPlotAdded(plotType, x, y) ==> |plots| == |old(plots)| + 1 && plots[..|old(plots)|] == old(plots)
      ensures PairPlotAdded(plotType, x, y) ==>
        var p := plots[|plots| - 1]; fresh(p) && p.title == title && p.data == PairPlotData(plotType, x, y)
      ensures !PairPlotAdded(plotType, x, y) ==> plots == old(plots)
    {
      if plotType == Scatter {
        if |x| != |y| {
          return;
        }
        var plot := new PlotWidget();
        plot.SetTitle(title);
        plot.CreateScatterPlot(x, y, "Actual", "Predicted");
        Push(plot);
      } else if plotType == TimeSeries {
        if |x| != |y| {
          return;
        }
        var plot := new PlotWidget();
        plot.SetTitle(title);
        plot.CreateTimeSeriesPlot(x, y);
        Push(plot);
      } else if plotType == Residual {
        if |x| != |y| {
          return;
        }
        var plot := new PlotWidget();
        plot.SetTitle(title);
        plot.CreateResidualPlot(x, y);
        Push(plot);
      }
      UpdatePlotCount();
    }

    /** createPlot for an importance map: one new importance widget unless
        the map is empty; the plot type passed is not consulted. */
    method CreateImportancePlot(plotType: PlotType, title: string, values: seq<Entry>)
      requires Valid()
      modifies this
      ensures Valid() && currentPlotIndex == old(currentPlotIndex)
      ensures |values| > 0 ==> |plots| == |old(plots)| + 1 && plots[..|old(plots)|] == old(plots)
      ensures |values| > 0 ==>
        var p := plots[|plots| - 1]; fresh(p) && p.title == title && p.data == ImportanceData(Blank, values)
      ensures |values| == 0 ==> plots == old(plots)
    {
      if |values| == 0 {
        return;
      }
      var plot := new PlotWidget();
      plot.SetTitle(title);
      plot.CreateImportancePlot(values);
      Push(plot);
      UpdatePlotCount();
    }

    /**
     * createPlot for learning and loss curves: refused when x or y is
     * empty or the lengths disagree (an empty y2 is allowed); otherwise
     * one new widget, filled only for the two curve types.
     */
    method CreateCurvePlot(plotType: PlotType, title: string, x: seq<real>, y: seq<real>, y2: seq<real>)
      requires Valid()
      modifies this
      ensures Valid() && currentPlotIndex == old(currentPlotIndex)
      ensures CurvePlotAdded(x, y, y2) ==> |plots| == |old(plots)| + 1 && plots[..|old(plots)|] == old(plots)
      ensures CurvePlotAdded(x, y, y2) ==>
        var p := plots[|plots| - 1]; fresh(p) && p.title == title && p.data == CurvePlotData(plotType, x, y, y2)
      ensures !CurvePlotAdded(x, y, y2) ==> plots == old(plots)
    {
      if |x| == 0 || |y| == 0 {
        return;
      }
      if |x| != |y| || (|y2| != 0 && |x| != |y2|) {
        return;
      }
      var plot := new PlotWidget();
      plot.SetTitle(title);
      if plotType == LearningCurve {
        plot.CreateLearningCurvePlot(x, y, y2);
      } else if plotType == LossCurve {
        plot.CreateLossCurvePlot(x, y, y2);
      }
      Push(plot);
      UpdatePlotCount();
    }

    /** showPlot: moves to index when it names a plot, else nothing. */
    method ShowPlot(index: nat)
      requires Valid()
      modifies this
      ensures Valid() && plots == old(plots)
      ensures currentPlotIndex == if index < |plots| then index else old(currentPlotIndex)
    {
      if index < |plots| {
        currentPlotIndex := index;
      }
    }

    /** nextPlot: one step forward and true, unless already on the last
        plot (or there is none): false and nothing changes. */
    method NextPlot() returns (moved: bool)
      requires Valid()
      modifies this
      ensures Valid() && plots == old(plots)
      ensures moved <==> old(currentPlotIndex) + 1 < |plots|
      ensures currentPlotIndex == if moved then old(currentPlotIndex) + 1 else old(currentPlotIndex)
    {
      if |plots| == 0 {
        return false;
      }
      if currentPlotIndex < |plots| - 1 {
        currentPlotIndex := currentPlotIndex + 1;
        return true;
      }
      return false;
    }

    /** previousPlot: one step back and true, unless on the first plot (or
        there is none): false and nothing changes. */
    method PreviousPlot() returns (moved: bool)
      requires Valid()
      modifies this
      ensures Valid() && plots == old(plots)
      ensures moved <==> |plots| > 0 && old(currentPlotIndex) > 0
      ensures currentPlotIndex == if moved then old(currentPlotIndex) - 1 else old(currentPlotIndex)
    {
      if |plots| == 0 {
        return false;
      }
      if currentPlotIndex > 0 {
        currentPlotIndex := currentPlotIndex - 1;
        return true;
      }
      return false;
    }

    /** clearPlots: no plots, index 0, count 0. */
    method ClearPlots()
      modifies this
      ensures Valid() && plots == [] && currentPlotIndex == 0
    {
      plots := [];
      currentPlotIndex := 0;
      UpdatePlotCount();
    }

    /** getPlotCount. */
    method GetPlotCount() returns (n: nat)
      requires Valid()
      ensures n == |plots| == numPlots
    {
      n := |plots|;
    }

    /**
     * savePlotToFile(index, filename): false for an index past the list;
     * otherwise the widget's own save, which reports false. Creating the
     * directory is not modelled (it can only turn the result into false).
     */
    method SavePlotToFile(index: nat, filename: string) returns (saved: bool)
      requires Valid()
      ensures !saved
    {
      if index >= |plots| {
        return false;
      }
      var name;
      saved, name := plots[index].SavePlotToFile(filename);
    }
  }
}
