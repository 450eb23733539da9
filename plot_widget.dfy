/**
 * The ImGui/ImPlot plot widget: one plot's title, type, axis labels and
 * data series. The create calls validate their series and, when they
 * accept them, overwrite the stored series, labels and type; rendering
 * draws from what is stored and is reduced here to the reference lines
 * and bars it computes (see PlotGeometry).
 */
module PlotWidgets {
  import opened Wrappers
  import opened PlotGeometry
  import opened CharReplace

  /** The widget's plot types, NONE first. */
  datatype PlotType = NoPlot | Scatter | TimeSeries | Residual | Importance | LearningCurve | LossCurve

  /** Everything a create call may overwrite: the type, the axis labels
      and every stored series (the importance map as its entries in
      iteration order). */
  datatype PlotData = PlotData(
    plotType: PlotType, xLabel: string, yLabel: string,
    xValues: seq<real>, yValues: seq<real>, y2Values: seq<real>, importance: seq<Entry>,
    trainingSizes: seq<real>, trainingScores: seq<real>, validationScores: seq<real>,
    epochs: seq<real>, trainLoss: seq<real>, validLoss: seq<real>)

  /** What a new widget stores: no type, axes "X" and "Y", no data. */
  const Blank := PlotData(NoPlot, "X", "Y", [], [], [], [], [], [], [], [], [], [])

  /** The check every two-series create makes: both non-empty, equal length. */
  predicate PairAccepted(x: seq<real>, y: seq<real>)
  {
    |x| > 0 && |y| > 0 && |x| == |y|
  }

  /** The check of the learning and loss curves: the pair check, and the
      validation series is either absent (empty) or as long as the others. */
  predicate CurveAccepted(x: seq<real>, y: seq<real>, v: seq<real>)
  {
    PairAccepted(x, y) && (|v| == 0 || |v| == |x|)
  }

  /** What createScatterPlot leaves stored, from what was stored before. */
  function ScatterData(d: PlotData, x: seq<real>, y: seq<real>, xl: string, yl: string): PlotData
  {
    if PairAccepted(x, y) then d.(plotType := Scatter, xValues := x, yValues := y, xLabel := xl, yLabel := yl)
    else d
  }

  /** What createTimeSeriesPlot leaves stored. */
  function TimeSeriesData(d: PlotData, actual: seq<real>, predicted: seq<real>): PlotData
  {
    if PairAccepted(actual, predicted)
    then d.(plotType := TimeSeries, xValues := TimeAxis(|actual|), yValues := actual, y2Values := predicted,
            xLabel := "Time", yLabel := "Value")
    else d
  }

  /** What createResidualPlot leaves stored. */
  function ResidualData(d: PlotData, predicted: seq<real>, residuals: seq<real>): PlotData
  {
    if PairAccepted(predicted, residuals)
    then d.(plotType := Residual, xValues := predicted, yValues := residuals,
            xLabel := "Predicted", yLabel := "Residual")
    else d
  }

  /** What createImportancePlot leaves stored. */
  function ImportanceData(d: PlotData, importance: seq<Entry>): PlotData
  {
    if |importance| > 0
    then d.(plotType := Importance, importance := importance, xLabel := "Importance", yLabel := "Feature")
    else d
  }

  /** What createLearningCurvePlot leaves stored. */
  function LearningCurveData(d: PlotData, sizes: seq<real>, scores: seq<real>, valid: seq<real>): PlotData
  {
    if CurveAccepted(sizes, scores, valid)
    then d.(plotType := LearningCurve, trainingSizes := sizes, trainingScores := scores,
            validationScores := valid, xLabel := "Training Examples", yLabel := "Score")
    else d
  }

  /** What createLossCurvePlot leaves stored. */
  function LossCurveData(d: PlotData, epochs: seq<real>, train: seq<real>, valid: seq<real>): PlotData
  {
    if CurveAccepted(epochs, train, valid)
    then d.(plotType := LossCurve, epochs := epochs, trainLoss := train, validLoss := valid,
            xLabel := "Epoch", yLabel := "Loss")
    else d
  }

  /**
   * A refused create changes nothing, the plot type included; an accepted
   * one sets the matching type and that type's fixed axis labels. The
   * time series runs over 0..n-1. The curves take a missing (empty)
   * validation series but refuse one of another length.
   */
  lemma CreateOutcomes(d: PlotData, x: seq<real>, y: seq<real>, v: seq<real>, m: seq<Entry>)
    ensures !PairAccepted(x, y) ==>
      TimeSeriesData(d, x, y) == d && ResidualData(d, x, y) == d && LearningCurveData(d, x, y, v) == d
    ensures |m| == 0 ==> ImportanceData(d, m) == d
    ensures PairAccepted(x, y) ==>
      var t := TimeSeriesData(d, x, y);
      t.plotType == TimeSeries && (t.xLabel, t.yLabel) == ("Time", "Value") && t.yValues == x && t.y2Values == y
      && |t.xValues| == |x| && (forall i :: 0 <= i < |x| ==> t.xValues[i] == i as real)
    ensures PairAccepted(x, y) ==>
      ResidualData(d, x, y).plotType == Residual && ResidualData(d, x, y).xLabel == "Predicted"
    ensures |m| > 0 ==> ImportanceData(d, m).plotType == Importance && ImportanceData(d, m).importance == m
    ensures PairAccepted(x, y) ==> LearningCurveData(d, x, y, []).plotType == LearningCurve
    ensures PairAccepted(x, y) && |v| > 0 && |v| != |x| ==> LossCurveData(d, x, y, v) == d
  {
  }

  /** The title with every space, '/' and '\' turned into '_'. */
  function SafeTitle(title: string): string
  {
    Replaced(Replaced(Replaced(title, ' ', '_'), '/', '_'), '\\', '_')
  }

  /** The safe title keeps the title's length and every other character
      in place, holds no space or path separator, and is its own safe
      title. */
  lemma SafeTitleFacts(title: string)
    ensures |SafeTitle(title)| == |title|
    ensures ' ' !in SafeTitle(title) && '/' !in SafeTitle(title) && '\\' !in SafeTitle(title)
    ensures forall i :: 0 <= i < |title| ==>
      SafeTitle(title)[i] == (if title[i] in {' ', '/', '\\'} then '_' else title[i])
    ensures SafeTitle(SafeTitle(title)) == SafeTitle(title)
  {
    var a := Replaced(title, ' ', '_');
    var b := Replaced(a, '/', '_');
    ReplacedFacts(title, ' ', '_');
    ReplacedFacts(a, '/', '_');
    ReplacedFacts(b, '\\', '_');
    var s := SafeTitle(title);
    assert s == Replaced(b, '\\', '_');
    forall i | 0 <= i < |s| ensures s[i] != ' ' && s[i] != '/' && s[i] != '\\' {
    }
    forall i | 0 <= i < |s| ensures Replaced(s, ' ', '_')[i] == s[i] {
      assert s[i] != ' ';
    }
    assert Replaced(s, ' ', '_') == s;
    forall i | 0 <= i < |s| ensures Replaced(s, '/', '_')[i] == s[i] {
      assert s[i] != '/';
    }
    assert Replaced(s, '/', '_') == s;
    forall i | 0 <= i < |s| ensures Replaced(s, '\\', '_')[i] == s[i] {
      assert s[i] != '\\';
    }
    assert Replaced(s, '\\', '_') == s;
  }

  /** The name savePlotToFile writes to: the one given, or by default the
      safe title with ".png" appended. */
  function OutputFile(title: string, filename: string): (f: string)
    ensures filename != "" ==> f == filename
    ensures filename == "" ==> |f| == |title| + 4 && f[|title|..] == ".png"
  {
    if filename == "" then SafeTitle(title) + ".png" else filename
  }

  class PlotWidget {
    var title: string
    /** The type, the axis labels and the stored series. */
    var data: PlotData

    /** A new widget is titled "Plot" and stores nothing. */
    constructor ()
      ensures title == "Plot" && data == Blank
    {
      title, data := "Plot", Blank;
    }

    /** createScatterPlot: both series and the given labels are stored
        unless a series is empty or their lengths differ. */
    method CreateScatterPlot(x: seq<real>, y: seq<real>, xl: string, yl: string)
      modifies this
      ensures title == old(title)
      ensures data == ScatterData(old(data), x, y, xl, yl)
    {
      if |x| == 0 || |y| == 0 {
        return;
      }
      if |x| != |y| {
        return;
      }
      data := data.(xValues := x, yValues := y, xLabel := xl, yLabel := yl, plotType := Scatter);
    }

    /**
     * createTimeSeriesPlot: the actual values over the time axis 0..n-1,
     * with the predictions as the second series, under "Time" and "Value";
     * nothing changes when a series is empty or the lengths differ.
     */
    method CreateTimeSeriesPlot(actual: seq<real>, predicted: seq<real>)
      modifies this
      ensures title == old(title)
      ensures data == TimeSeriesData(old(data), actual, predicted)
    {
      if |actual| == 0 || |predicted| == 0 {
        return;
      }
      if |actual| != |predicted| {
        return;
      }
      var indices := TimeIndices(|actual|);
      data := data.(xValues := indices, yValues := actual, y2Values := predicted,
                    xLabel := "Time", yLabel := "Value", plotType := TimeSeries);
    }

    /** createResidualPlot: residuals over predictions, under "Predicted"
        and "Residual", unless a series is empty or the lengths differ. */
    method CreateResidualPlot(predicted: seq<real>, residuals: seq<real>)
      modifies this
      ensures title == old(title)
      ensures data == ResidualData(old(data), predicted, residuals)
    {
      if |predicted| == 0 || |residuals| == 0 {
        return;
      }
      if |predicted| != |residuals| {
        return;
      }
      data := data.(xValues := predicted, yValues := residuals, xLabel := "Predicted", yLabel := "Residual",
                    plotType := Residual);
    }

    /** createImportancePlot: the map, under "Importance" and "Feature",
        unless it is empty. */
    method CreateImportancePlot(importance: seq<Entry>)
      modifies this
      ensures title == old(title)
      ensures data == ImportanceData(old(data), importance)
    {
      if |importance| == 0 {
        return;
      }
      data := data.(importance := importance, xLabel := "Importance", yLabel := "Feature", plotType := Importance);
    }

    /** createLearningCurvePlot: the three series under "Training
        Examples" and "Score", when CurveAccepted; the validation scores
        may be empty. */
    method CreateLearningCurvePlot(sizes: seq<real>, scores: seq<real>, valid: seq<real>)
      modifies this
      ensures title == old(title)
      ensures data == LearningCurveData(old(data), sizes, scores, valid)
    {
      if |sizes| == 0 || |scores| == 0 {
        return;
      }
      if |sizes| != |scores| {
        return;
      }
      if |valid| != 0 && |sizes| != |valid| {
        return;
      }
      data := data.(trainingSizes := sizes, trainingScores := scores, validationScores := valid,
                    xLabel := "Training Examples", yLabel := "Score", plotType := LearningCurve);
    }

    /** createLossCurvePlot: the three series under "Epoch" and "Loss",
        when CurveAccepted; the validation loss may be empty. */
    method CreateLossCurvePlot(epochs: seq<real>, train: seq<real>, valid: seq<real>)
      modifies this
      ensures title == old(title)
      ensures data == LossCurveData(old(data), epochs, train, valid)
    {
      if |epochs| == 0 || |train| == 0 {
        return;
      }
      if |epochs| != |train| {
        return;
      }
      if |valid| != 0 && |epochs| != |valid| {
        return;
      }
      data := data.(epochs := epochs, trainLoss := train, validLoss := valid,
                    xLabel := "Epoch", yLabel := "Loss", plotType := LossCurve);
    }

    /** setTitle. */
    method SetTitle(t: string)
      modifies this
      ensures title == t && data == old(data)
    {
      title := t;
    }

    /**
     * savePlotToFile: works out the file name (see OutputFile, the safe
     * title made by three in-place replacements) and reports failure,
     * since writing the image is not implemented.
     */
    method SavePlotToFile(filename: string) returns (saved: bool, outputFile: string)
      ensures !saved
      ensures outputFile == OutputFile(title, filename)
    {
      outputFile := filename;
      if outputFile == "" {
        var safe := ToArray(title);
        ReplaceInPlace(safe, ' ', '_');
        ReplaceInPlace(safe, '/', '_');
        ReplaceInPlace(safe, '\\', '_');
        outputFile := safe[..] + ".png";
      }
      saved := false;
    }
  }
}
