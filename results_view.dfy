/**
 * The results screen's plot navigation and model handling: the index of
 * the plot type shown (cycled by the Previous and Next buttons), its
 * label, the model shown and the list of models being compared. The text
 * displays, the layout and the plotting back end are not modelled; what
 * the back end reports is passed in.
 */
module ResultsViews {

  /** C++ / on int: the quotient truncated toward zero. */
  function CQuot(a: int, b: int): int
    requires b > 0
  {
    if a >= 0 then a / b else -((-a) / b)
  }

  /** C++ % on int: the remainder of the truncating division, so it has
      the sign of the dividend. */
  function CRem(a: int, b: int): (r: int)
    requires b > 0
    ensures a == b * CQuot(a, b) + r
    ensures a >= 0 ==> 0 <= r < b
    ensures a < 0 ==> -b < r <= 0
  {
    if a >= 0 then a % b else -((-a) % b)
  }

  /** The labels of the five plot types, by index. */
  const PlotTypeNames: seq<string> :=
    ["Scatter Plot", "Time Series", "Residual Plot", "Importance Plot", "Learning Curve"]

  /** The plot type index after a step in a direction. */
  function Cycled(current: int, direction: int): int
  {
    CRem(current + direction + 5, 5)
  }

  /**
   * For the two directions the buttons pass, a step is the mathematical
   * (current + direction) mod 5 and stays in range; a step forward and one
   * back restore the index, and five steps forward come round again.
   */
  lemma {:induction false} CycleFacts(i: int)
    requires 0 <= i < 5
    ensures Cycled(i, 1) == (i + 1) % 5 && Cycled(i, -1) == (i - 1) % 5
    ensures 0 <= Cycled(i, 1) < 5 && 0 <= Cycled(i, -1) < 5
    ensures Cycled(Cycled(i, 1), -1) == i && Cycled(Cycled(i, -1), 1) == i
    ensures Cycled(Cycled(Cycled(Cycled(Cycled(i, 1), 1), 1), 1), 1) == i
  {
    assert Cycled(i, 1) == if i == 4 then 0 else i + 1;
    assert Cycled(i, -1) == if i == 0 then 4 else i - 1;
  }

  /** From index 0, direction -6 gives index -1, outside the label table. */
  lemma CycleOutOfTable()
    ensures Cycled(0, -6) == -1
  {
  }

  /** A step leaves the table exactly when current + direction + 5 is
      negative and not a multiple of 5; it never goes past the top. */
  lemma CycleNegativeExactly(current: int, direction: int)
    ensures Cycled(current, direction) < 5
    ensures Cycled(current, direction) < 0 <==>
      current + direction + 5 < 0 && (current + direction + 5) % 5 != 0
  {
  }

  /**
   * The residual loop of createPlots: actual minus predicted, position by
   * position, over the actual values (the predictions must reach at least
   * as far).
   */
  method Residuals(actual: seq<real>, predicted: seq<real>) returns (residuals: seq<real>)
    requires |predicted| >= |actual|
    ensures |residuals| == |actual|
    ensures forall i :: 0 <= i < |actual| ==> residuals[i] == actual[i] - predicted[i]
    ensures forall i :: 0 <= i < |actual| ==> predicted[i] + residuals[i] == actual[i]
  {
    residuals := [];
    var i := 0;
    while i < |actual|
      invariant 0 <= i <= |actual| && |residuals| == i
      invariant forall k :: 0 <= k < i ==> residuals[k] == actual[k] - predicted[k]
    {
      residuals := residuals + [actual[i] - predicted[i]];
      i := i + 1;
    }
  }

  /** A shared_ptr<Model>: null, or a model and whether getDataFrame
      returns a frame for it. */
  datatype ModelRef = Null | Model(id: nat, hasFrame: bool)

  class ResultsView {
    var plottingInitialized: bool
    var currentPlotType: int
    /** The plot type label's text. */
    var typeLabel: string
    /** The plot type last handed to the plotting back end. */
    var backendPlotType: int
    var model: ModelRef
    var hasFrame: bool
    var comparisonModels: seq<ModelRef>
    var currentModelIndex: nat
    var showModelNavigation: bool

    /** The plot type indexes the label table. */
    predicate Valid()
      reads this
    {
      0 <= currentPlotType < 5
    }

    function Models(): (ModelRef, bool, seq<ModelRef>, nat, bool)
      reads this
    {
      (model, hasFrame, comparisonModels, currentModelIndex, showModelNavigation)
    }

    function Plotting(): (bool, int, string, int)
      reads this
    {
      (plottingInitialized, currentPlotType, typeLabel, backendPlotType)
    }

    /** The view starts with no model, plotting not set up, the first plot
        type and the placeholder label. */
    constructor ()
      ensures Valid() && Plotting() == (false, 0, "Plot Type", 0)
      ensures Models() == (Null, false, [], 0, false)
    {
      plottingInitialized, currentPlotType, typeLabel, backendPlotType := false, 0, "Plot Type", 0;
      model, hasFrame, comparisonModels, currentModelIndex, showModelNavigation := Null, false, [], 0, false;
    }

    /** updatePlotTypeLabel: the label is the current type's name, and the
        back end is told the type. */
    method UpdatePlotTypeLabel()
      requires Valid()
      modifies this
      ensures Valid() && typeLabel == PlotTypeNames[currentPlotType] && backendPlotType == currentPlotType
      ensures plottingInitialized == old(plottingInitialized) && currentPlotType == old(currentPlotType)
      ensures Models() == old(Models())
    {
      typeLabel, backendPlotType := PlotTypeNames[currentPlotType], currentPlotType;
    }

    /**
     * cyclePlot: nothing before plotting is set up; otherwise the type
     * index steps by direction modulo 5 (C++ %) and the label follows. The
     * index must stay in the label table, which the buttons' +1 and -1
     * guarantee (CycleFacts).
     */
    method CyclePlot(direction: int)
      requires Valid() && CRem(currentPlotType + direction + 5, 5) >= 0
      modifies this
      ensures Valid() && Models() == old(Models())
      ensures !old(plottingInitialized) ==> Plotting() == old(Plotting())
      ensures old(plottingInitialized) ==>
        Plotting() == (true, Cycled(old(currentPlotType), direction),
                       PlotTypeNames[Cycled(old(currentPlotType), direction)],
                       Cycled(old(currentPlotType), direction))
    {
      if !plottingInitialized {
        return;
      }
      currentPlotType := CRem(currentPlotType + direction + 5, 5);
      UpdatePlotTypeLabel();
    }

    /**
     * setModel: a null model is ignored. Otherwise it becomes the model;
     * without a data frame nothing more happens. With one, the layout pass
     * sets plotting up once (backendStarts: whether the back end
     * initialises; plotsCreated: whether createPlots completes), and the
     * label is refreshed when the plots were created.
     */
    method SetModel(newModel: ModelRef, backendStarts: bool, plotsCreated: bool)
      requires Valid()
      modifies this
      ensures Valid() && currentPlotType == old(currentPlotType)
      ensures comparisonModels == old(comparisonModels) && currentModelIndex == old(currentModelIndex)
      ensures showModelNavigation == old(showModelNavigation)
      ensures newModel == Null ==> Models() == old(Models()) && Plotting() == old(Plotting())
      ensures newModel != Null ==> model == newModel && hasFrame == newModel.hasFrame
      ensures newModel != Null && !newModel.hasFrame ==> Plotting() == old(Plotting())
      ensures newModel != Null && newModel.hasFrame ==>
        plottingInitialized == (old(plottingInitialized) || backendStarts)
      ensures newModel != Null && newModel.hasFrame && !old(plottingInitialized) && backendStarts && plotsCreated ==>
        typeLabel == PlotTypeNames[currentPlotType] && backendPlotType == currentPlotType
      ensures !(newModel != Null && newModel.hasFrame && !old(plottingInitialized) && backendStarts && plotsCreated) ==>
        typeLabel == old(typeLabel) && backendPlotType == old(backendPlotType)
    {
      if newModel == Null {
        return;
      }
      model, hasFrame := newModel, newModel.hasFrame;
      if !hasFrame {
        return;
      }
      if !plottingInitialized && backendStarts {
        plottingInitialized := true;
        if plotsCreated {
          UpdatePlotTypeLabel();
        }
      }
    }

    /**
     * onModelComparisonSelected: an empty list is ignored. Otherwise the
     * list is kept, the first model becomes current (see SetModel), and
     * model navigation is shown exactly when there is more than one.
     */
    method OnModelComparisonSelected(models: seq<ModelRef>, backendStarts: bool, plotsCreated: bool)
      requires Valid()
      modifies this
      ensures Valid()
      ensures |models| == 0 ==> Models() == old(Models()) && Plotting() == old(Plotting())
      ensures |models| > 0 ==>
        comparisonModels == models && currentModelIndex == 0 && showModelNavigation == (|models| > 1)
      ensures |models| > 0 && models[0] != Null ==> model == models[0]
      ensures |models| > 0 && models[0] == Null ==> model == old(model) && Plotting() == old(Plotting())
    {
      if |models| == 0 {
        return;
      }
      comparisonModels, currentModelIndex, showModelNavigation := models, 0, |models| > 1;
      SetModel(models[0], backendStarts, plotsCreated);
    }
  }
}
