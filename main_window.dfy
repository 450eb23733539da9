/**
 * The main window's wizard: five screens (file, model, hyperparameters,
 * variables, results), the handlers that move between them, and what the
 * window shows for each. The widgets themselves are reduced to what the
 * handlers set on them: the set of visible panels, the header and status
 * texts, the model type handed to the hyperparameter screen and the
 * column names handed to the variable screen. Loading a CSV file and
 * fitting a model are external: their outcomes are parameters.
 */
module MainWindows {
  import opened Wrappers
  import opened Strings

  /** The workflow states, in wizard order. */
  datatype State = FileSelection | ModelSelection | HyperparameterSelection | VariableSelection | Results

  /** What the window keeps of a loaded CSV file: its row count and
      column names. */
  datatype Frame = Frame(rows: nat, names: seq<string>)

  /** The model classes createModel instantiates: every accepted name
      yields a LinearRegression, standing in for the model named. */
  datatype Model = LinearRegression

  const LinearRegressionName := "Linear Regression"

  /** The model types createModel accepts. */
  const ModelNames: seq<string> :=
    ["Linear Regression", "ElasticNet", "XGBoost", "Random Forest", "Neural Network", "Gradient Boosting"]

  /** createModel: a model for the six known type names, none for any other. */
  function CreateModel(modelType: string): (m: Option<Model>)
    ensures m.Some? <==> modelType in ModelNames
    ensures m.Some? ==> m.value == LinearRegression
  {
    if modelType == "Linear Regression" || modelType == "ElasticNet" || modelType == "XGBoost"
       || modelType == "Random Forest" || modelType == "Neural Network" || modelType == "Gradient Boosting"
    then Some(LinearRegression)
    else None
  }

  /** The screen after a model type is chosen: Linear Regression has no
      hyperparameters, so it goes straight to the variables. */
  function AfterModel(modelType: string): (s: State)
    ensures s == VariableSelection <==> modelType == LinearRegressionName
    ensures s == HyperparameterSelection <==> modelType != LinearRegressionName
  {
    if modelType != LinearRegressionName then HyperparameterSelection else VariableSelection
  }

  /** The screen the Back button leads to. */
  function Back(s: State, modelType: string): State
  {
    match s
    case FileSelection => FileSelection
    case ModelSelection => FileSelection
    case HyperparameterSelection => ModelSelection
    case VariableSelection => if modelType != LinearRegressionName then HyperparameterSelection else ModelSelection
    case Results => VariableSelection
  }

  /** Position of a state in the wizard. */
  function Step(s: State): nat
  {
    match s
    case FileSelection => 0
    case ModelSelection => 1
    case HyperparameterSelection => 2
    case VariableSelection => 3
    case Results => 4
  }

  /** Back never moves forward, and moves back from every screen but the
      first. */
  lemma BackMovesBack(s: State, modelType: string)
    ensures Step(Back(s, modelType)) <= Step(s)
    ensures s != FileSelection ==> Step(Back(s, modelType)) < Step(s)
  {
  }

  /** Choosing any model type and then pressing Back lands on the model
      screen again. */
  lemma SelectThenBack(modelType: string)
    ensures Back(AfterModel(modelType), modelType) == ModelSelection
  {
  }

  /** From the results, Back twice reaches the screen before the variables:
      the hyperparameters, or the model screen for Linear Regression. */
  lemma ResultsBackTwice(modelType: string)
    ensures Back(Back(Results, modelType), modelType) == (if modelType == LinearRegressionName then ModelSelection else HyperparameterSelection)
  {
  }

  /** The header updateUI shows for a state. */
  function Header(s: State, modelType: string): (h: string)
  {
    match s
    case FileSelection => "Step 1: Select CSV File"
    case ModelSelection => "Step 2: Select Model Type"
    case HyperparameterSelection => "Step 3: Configure Hyperparameters"
    case VariableSelection => if modelType != LinearRegressionName then "Step 4: Select Variables" else "Step 3: Select Variables"
    case Results => "Results"
  }

  /** The variable screen's header numbers it 3 for Linear Regression and 4
      otherwise; different screens have different headers. */
  lemma HeaderFacts(s: State, t: State, modelType: string)
    ensures Header(VariableSelection, modelType) ==
      (if modelType == LinearRegressionName then "Step 3: Select Variables" else "Step 4: Select Variables")
    ensures s != t ==> Header(s, modelType) != Header(t, modelType)
  {
  }

  /** The status text after a CSV file loads. */
  function LoadedMessage(f: Frame): string
  {
    "CSV file loaded successfully: " + NatToString(f.rows) + " rows, " + NatToString(|f.names|) + " columns"
  }

  /** The status text a fit leaves: success, a failed fit, or an exception
      while preparing the data or fitting. */
  function FitStatus(fitted: Result<bool>): string
  {
    match fitted
    case Ok(true) => "Model fitted successfully"
    case Ok(false) => "Failed to fit model"
    case Err(_) => "Error fitting model"
  }

  class MainWindow {
    var currentState: State
    var filePath: string
    var modelType: string
    var hyperparameters: map<string, string>
    var inputs: seq<string>
    var target: string
    var frame: Option<Frame>
    var model: Option<Model>

    /** What the widgets show: the visible panels, the header and status
        bar texts, the model type last handed to the hyperparameter screen
        and the column names last handed to the variable screen. */
    var visible: set<State>
    var header: string
    var status: string
    var selectorType: string
    var offered: seq<string>

    /** The choices the wizard has collected. */
    function Choices(): (string, string, map<string, string>, seq<string>, string, Option<Frame>, Option<Model>)
      reads this
    {
      (filePath, modelType, hyperparameters, inputs, target, frame, model)
    }

    /** Exactly the current screen's panel is shown, under its header. */
    predicate Valid()
      reads this
    {
      visible == {currentState} && header == Header(currentState, modelType)
    }

    /** The window opens on the file screen with nothing chosen. */
    constructor ()
      ensures Valid() && currentState == FileSelection && status == "Ready"
      ensures frame == None && model == None && filePath == "" && modelType == ""
      ensures hyperparameters == map[] && inputs == [] && target == ""
    {
      currentState, filePath, modelType, hyperparameters := FileSelection, "", "", map[];
      inputs, target, frame, model := [], "", None, None;
      visible, header, status := {FileSelection}, Header(FileSelection, ""), "Ready";
      selectorType, offered := "", [];
    }

    /**
     * updateUI: every panel hidden, then the current one shown under its
     * header; the variable screen is given the loaded frame's column names
     * when there is a frame.
     */
    method UpdateUI()
      modifies this
      ensures Valid()
      ensures currentState == old(currentState) && Choices() == old(Choices())
      ensures status == old(status) && selectorType == old(selectorType)
      ensures offered == (if currentState == VariableSelection && frame.Some? then frame.value.names else old(offered))
    {
      visible := {};
      header := Header(currentState, modelType);
      visible := visible + {currentState};
      if currentState == VariableSelection && frame.Some? {
        offered := frame.value.names;
      }
    }

    /**
     * handleFileSelected: the path is recorded; when the file loads (load
     * is the outcome of reading it) the frame is kept and the model screen
     * follows, otherwise the window stays where it is.
     */
    method HandleFileSelected(path: string, load: Result<Frame>)
      requires Valid()
      modifies this
      ensures Valid() && filePath == path
      ensures load.Ok? ==> currentState == ModelSelection && frame == Some(load.value) && status == LoadedMessage(load.value)
      ensures load.Err? ==> currentState == old(currentState) && frame == old(frame) && status == "Failed to load CSV file"
      ensures modelType == old(modelType) && hyperparameters == old(hyperparameters) && model == old(model)
      ensures inputs == old(inputs) && target == old(target)
    {
      filePath := path;
      status := "Loading CSV file...";
      if load.Err? {
        status := "Failed to load CSV file";
        return;
      }
      frame := Some(load.value);
      status := LoadedMessage(load.value);
      currentState := ModelSelection;
      UpdateUI();
    }

    /** handleModelSelected: the type is recorded and the wizard moves to
        the hyperparameters, which get the type, or for Linear Regression
        to the variables. */
    method HandleModelSelected(newType: string)
      modifies this
      ensures Valid() && modelType == newType && currentState == AfterModel(newType)
      ensures newType != LinearRegressionName ==> selectorType == newType
      ensures newType == LinearRegressionName ==> selectorType == old(selectorType)
      ensures filePath == old(filePath) && frame == old(frame) && hyperparameters == old(hyperparameters)
      ensures inputs == old(inputs) && target == old(target) && model == old(model) && status == old(status)
    {
      modelType := newType;
      if newType != LinearRegressionName {
        currentState := HyperparameterSelection;
        selectorType := newType;
      } else {
        currentState := VariableSelection;
      }
      UpdateUI();
    }

    /** handleHyperparametersSelected: the values are recorded and the
        variables come next. */
    method HandleHyperparametersSelected(values: map<string, string>)
      modifies this
      ensures Valid() && currentState == VariableSelection && status == old(status)
      ensures Choices() == old(Choices()).(2 := values)
    {
      hyperparameters := values;
      currentState := VariableSelection;
      UpdateUI();
    }

    /**
     * handleVariablesSelected: the choice is recorded and a model created;
     * an unknown type leaves no model and the screen as it was. Otherwise
     * the fit (fitted: its outcome, an error when the data cannot be
     * prepared) leads to the results only when it succeeds.
     */
    method HandleVariablesSelected(newInputs: seq<string>, newTarget: string, fitted: Result<bool>)
      requires Valid()
      modifies this
      ensures Valid() && Choices() == old(Choices()).(3 := newInputs, 4 := newTarget, 6 := CreateModel(modelType))
      ensures currentState == (if model.Some? && fitted == Ok(true) then Results else old(currentState))
      ensures status == (if model.Some? then FitStatus(fitted) else old(status))
    {
      var created := CreateModel(modelType);
      inputs, target, model := newInputs, newTarget, created;
      if created.None? {
        return;
      }
      if fitted == Ok(true) {
        currentState, status := Results, FitStatus(fitted);
        UpdateUI();
      } else {
        status := FitStatus(fitted);
      }
    }

    /** handleBackButton: one screen back, see Back. */
    method HandleBackButton()
      modifies this
      ensures Valid() && currentState == Back(old(currentState), modelType)
      ensures Choices() == old(Choices()) && status == old(status)
    {
      match currentState {
        case FileSelection =>
        case ModelSelection => currentState := FileSelection;
        case HyperparameterSelection => currentState := ModelSelection;
        case VariableSelection =>
          if modelType != LinearRegressionName {
            currentState := HyperparameterSelection;
          } else {
            currentState := ModelSelection;
          }
        case Results => currentState := VariableSelection;
      }
      UpdateUI();
    }

    /** handleStartOver: back to the file screen with the frame, the model
        and every choice cleared. */
    method HandleStartOver()
      modifies this
      ensures Valid() && currentState == FileSelection && status == "Started new analysis"
      ensures Choices() == ("", "", map[], [], "", None, None)
    {
      currentState, frame, model, filePath, modelType, hyperparameters, inputs, target :=
        FileSelection, None, None, "", "", map[], [], "";
      UpdateUI();
      status := "Started new analysis";
    }
  }
}
