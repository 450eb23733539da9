/**
 * The hyperparameter screen: for the chosen model type, a column of
 * parameter rows (slider, integer slider, choice, check box or text
 * input), each with an "Auto" toggle, and the name-to-text map the Next
 * button hands on. A widget is reduced to its typed value; a row to its
 * name, value, vertical position, whether it has a toggle, whether
 * the toggle is on and whether the widget is active.
 */
module HyperparameterSelectors {
  import opened Wrappers
  import opened Strings

  /** The value a parameter widget holds. A choice holds the index of its
      shown option, none when no option is shown. */
  datatype Control =
    | Slider(min: real, max: real, value: real, step: real)
    | IntSlider(imin: int, imax: int, ivalue: int)
    | Choice(options: seq<string>, picked: Option<nat>)
    | Check(checked: bool)
    | Text(text: string)

  /** One parameter row. */
  datatype Entry = Entry(name: string, control: Control, y: int,
                         toggle: bool, autoOn: bool, active: bool)

  /** The arguments of one add*Param call. */
  datatype Spec =
    | SliderSpec(name: string, min: real, max: real, value: real, step: real)
    | IntSliderSpec(name: string, imin: int, imax: int, ivalue: int)
    | ChoiceSpec(name: string, options: seq<string>, defaultIndex: int)
    | CheckSpec(name: string, initially: bool)
    | TextSpec(name: string, text: string)

  /** The step addSliderParam uses when none is given. */
  const DefaultStep: real := 0.01

  // ---------------------------------------------------------------------
  // The parameter lists of the create*UI methods
  // ---------------------------------------------------------------------

  function ElasticNetSpecs(): seq<Spec>
  {
    [SliderSpec("alpha", 0.0, 1.0, 0.5, DefaultStep),
     SliderSpec("lambda", 0.0, 10.0, 1.0, DefaultStep),
     IntSliderSpec("max_iter", 100, 10000, 1000),
     SliderSpec("tol", 0.0001, 0.1, 0.0001, 0.0001)]
  }

  function XGBoostSpecs(): seq<Spec>
  {
    [SliderSpec("learning_rate", 0.01, 1.0, 0.1, DefaultStep),
     IntSliderSpec("max_depth", 1, 15, 6),
     IntSliderSpec("n_estimators", 50, 1000, 100),
     SliderSpec("subsample", 0.1, 1.0, 1.0, DefaultStep),
     SliderSpec("colsample_bytree", 0.1, 1.0, 1.0, DefaultStep),
     IntSliderSpec("min_child_weight", 1, 10, 1),
     SliderSpec("gamma", 0.0, 10.0, 0.0, DefaultStep)]
  }

  function RandomForestSpecs(): seq<Spec>
  {
    [IntSliderSpec("n_estimators", 10, 500, 100),
     IntSliderSpec("max_depth", 1, 30, 10),
     IntSliderSpec("min_samples_split", 2, 20, 2),
     IntSliderSpec("min_samples_leaf", 1, 20, 1),
     ChoiceSpec("max_features", ["auto", "sqrt", "log2", "all"], 0),
     CheckSpec("bootstrap", true)]
  }

  function NeuralNetworkSpecs(): seq<Spec>
  {
    [TextSpec("hidden_layer_sizes", "10,10"),
     ChoiceSpec("activation", ["relu", "tanh", "sigmoid", "identity"], 0),
     SliderSpec("learning_rate", 0.001, 0.1, 0.01, 0.001),
     IntSliderSpec("max_iter", 100, 10000, 1000),
     IntSliderSpec("batch_size", 8, 256, 32),
     ChoiceSpec("solver", ["adam", "sgd", "lbfgs"], 0),
     SliderSpec("alpha", 0.0001, 0.01, 0.0001, 0.0001)]
  }

  function GradientBoostingSpecs(): seq<Spec>
  {
    [SliderSpec("learning_rate", 0.01, 1.0, 0.1, DefaultStep),
     IntSliderSpec("n_estimators", 50, 500, 100),
     IntSliderSpec("max_depth", 1, 15, 3),
     IntSliderSpec("min_samples_split", 2, 20, 2),
     IntSliderSpec("min_samples_leaf", 1, 20, 1),
     SliderSpec("subsample", 0.1, 1.0, 1.0, DefaultStep),
     ChoiceSpec("loss", ["squared_error", "absolute_error", "huber", "quantile"], 0)]
  }

  /** The model types with a parameter list. */
  datatype Kind = ElasticNetKind | XGBoostKind | RandomForestKind | NeuralNetworkKind | GradientBoostingKind

  /** buildUIForModelType's dispatch on the type name: Linear Regression
      only shows an information box, and an unknown type shows nothing. */
  function KindOf(modelType: string): Option<Kind>
  {
    if modelType == "ElasticNet" then Some(ElasticNetKind)
    else if modelType == "XGBoost" then Some(XGBoostKind)
    else if modelType == "Random Forest" then Some(RandomForestKind)
    else if modelType == "Neural Network" then Some(NeuralNetworkKind)
    else if modelType == "Gradient Boosting" then Some(GradientBoostingKind)
    else None
  }

  function KindSpecs(kind: Kind): seq<Spec>
  {
    match kind
    case ElasticNetKind => ElasticNetSpecs()
    case XGBoostKind => XGBoostSpecs()
    case RandomForestKind => RandomForestSpecs()
    case NeuralNetworkKind => NeuralNetworkSpecs()
    case GradientBoostingKind => GradientBoostingSpecs()
  }

  /** The parameter list of a model type's screen. */
  function Specs(modelType: string): seq<Spec>
  {
    match KindOf(modelType)
    case None => []
    case Some(kind) => KindSpecs(kind)
  }

  /** The parameter names each model type's screen offers, as its model
      reads them. */
  const ElasticNetNames: seq<string> := ["alpha", "lambda", "max_iter", "tol"]
  const XGBoostNames: seq<string> :=
    ["learning_rate", "max_depth", "n_estimators", "subsample", "colsample_bytree", "min_child_weight", "gamma"]
  const RandomForestNames: seq<string> :=
    ["n_estimators", "max_depth", "min_samples_split", "min_samples_leaf", "max_features", "bootstrap"]
  const NeuralNetworkNames: seq<string> :=
    ["hidden_layer_sizes", "activation", "learning_rate", "max_iter", "batch_size", "solver", "alpha"]
  const GradientBoostingNames: seq<string> :=
    ["learning_rate", "n_estimators", "max_depth", "min_samples_split", "min_samples_leaf", "subsample", "loss"]

  function Names(specs: seq<Spec>): seq<string>
  {
    seq(|specs|, i requires 0 <= i < |specs| => specs[i].name)
  }

  lemma ElasticNetNamed()
    ensures Names(ElasticNetSpecs()) == ElasticNetNames
  {
  }

  lemma ElasticNetDistinct()
    ensures Distinct(Names(ElasticNetSpecs()))
  {
    ElasticNetNamed();
  }

  lemma XGBoostNamed()
    ensures Names(XGBoostSpecs()) == XGBoostNames
  {
  }

  lemma XGBoostDistinct()
    ensures Distinct(Names(XGBoostSpecs()))
  {
    XGBoostNamed();
  }

  lemma RandomForestNamed()
    ensures Names(RandomForestSpecs()) == RandomForestNames
  {
  }

  lemma RandomForestDistinct()
    ensures Distinct(Names(RandomForestSpecs()))
  {
    RandomForestNamed();
  }

  lemma NeuralNetworkNamed()
    ensures Names(NeuralNetworkSpecs()) == NeuralNetworkNames
  {
  }

  lemma NeuralNetworkDistinct()
    ensures Distinct(Names(NeuralNetworkSpecs()))
  {
    NeuralNetworkNamed();
  }

  lemma GradientBoostingNamed()
    ensures Names(GradientBoostingSpecs()) == GradientBoostingNames
  {
  }

  lemma GradientBoostingDistinct()
    ensures Distinct(Names(GradientBoostingSpecs()))
  {
    GradientBoostingNamed();
  }

  // ---------------------------------------------------------------------
  // Rows
  // ---------------------------------------------------------------------

  /** The vertical position of the row added after `count` others. */
  function RowY(groupY: int, count: nat): int
  {
    groupY + 20 + count * 60
  }

  /** addChoiceParam's default: shown only when it indexes an option. */
  function ChoiceDefault(options: seq<string>, defaultIndex: int): (p: Option<nat>)
    ensures p.Some? <==> 0 <= defaultIndex < |options|
    ensures p.Some? ==> p.value == defaultIndex && p.value < |options|
  {
    if 0 <= defaultIndex < |options| then Some(defaultIndex) else None
  }

  /** The widget value an add*Param call creates. */
  function Initial(spec: Spec): Control
  {
    match spec
    case SliderSpec(_, min, max, value, step) => Slider(min, max, value, step)
    case IntSliderSpec(_, imin, imax, ivalue) => IntSlider(imin, imax, ivalue)
    case ChoiceSpec(_, options, d) => Choice(options, ChoiceDefault(options, d))
    case CheckSpec(_, initially) => Check(initially)
    case TextSpec(_, text) => Text(text)
  }

  /** The row an add*Param call appends at position y: active, no toggle. */
  function NewEntry(spec: Spec, y: int): Entry
  {
    Entry(spec.name, Initial(spec), y, false, false, true)
  }

  /** Rows sit 60 apart from the group's top + 20, and only a row with a
      toggle can have it on. */
  predicate Rowed(ps: seq<Entry>, groupY: int)
  {
    forall i :: 0 <= i < |ps| ==> ps[i].y == RowY(groupY, i) && (ps[i].autoOn ==> ps[i].toggle)
  }

  /** The rows a screen builds from its parameter list: one per entry, in
      order, each at its row position with its toggle attached and off. */
  predicate Built(ps: seq<Entry>, specs: seq<Spec>, groupY: int)
  {
    |ps| == |specs| && forall i :: 0 <= i < |ps| ==> ps[i] == NewEntry(specs[i], RowY(groupY, i)).(toggle := true)
  }

  /** Row positions strictly increase down the list. */
  lemma RowsIncrease(ps: seq<Entry>, groupY: int, i: nat, j: nat)
    requires Rowed(ps, groupY) && i < j < |ps|
    ensures ps[i].y + 60 <= ps[j].y
  {
    assert ps[i].y == RowY(groupY, i) && ps[j].y == RowY(groupY, j);
  }

  /** Index of the first row named `name` that satisfies the search's
      toggle condition: any row (Any), one without a toggle (Untoggled) or
      one with a toggle (Toggled); |ps| when there is none. */
  datatype Search = Any | Untoggled | Toggled

  predicate Matches(e: Entry, name: string, search: Search)
  {
    e.name == name && match search
      case Any => true
      case Untoggled => !e.toggle
      case Toggled => e.toggle
  }

  function First(ps: seq<Entry>, name: string, search: Search): (r: nat)
    ensures r <= |ps|
    ensures r < |ps| ==> Matches(ps[r], name, search)
    ensures forall k :: 0 <= k < r ==> !Matches(ps[k], name, search)
  {
    if ps == [] then 0
    else if Matches(ps[0], name, search) then 0
    else 1 + First(ps[1..], name, search)
  }

  /** addAutoToggle's effect on the rows. */
  function WithToggle(ps: seq<Entry>, name: string): seq<Entry>
  {
    var j := First(ps, name, Untoggled);
    if j < |ps| then ps[j := ps[j].(toggle := true)] else ps
  }

  /** updateParamVisibility's effect on the rows. */
  function WithActive(ps: seq<Entry>, name: string, autoEnabled: bool): seq<Entry>
  {
    var j := First(ps, name, Any);
    if j < |ps| then ps[j := ps[j].(active := !autoEnabled)] else ps
  }

  /** A toggle is only ever added to a row of that name that had none, to
      one row at most, and nothing else about any row changes. */
  lemma WithToggleFacts(ps: seq<Entry>, name: string)
    ensures |WithToggle(ps, name)| == |ps|
    ensures forall k :: 0 <= k < |ps| && WithToggle(ps, name)[k] != ps[k] ==>
      k == First(ps, name, Untoggled) && ps[k].name == name && !ps[k].toggle
      && WithToggle(ps, name)[k] == ps[k].(toggle := true)
    ensures (exists k :: 0 <= k < |ps| && ps[k].name == name && !ps[k].toggle) ==> WithToggle(ps, name) != ps
  {
    if exists k :: 0 <= k < |ps| && ps[k].name == name && !ps[k].toggle {
      var k :| 0 <= k < |ps| && ps[k].name == name && !ps[k].toggle;
      var j := First(ps, name, Untoggled);
      assert j <= k;
      assert WithToggle(ps, name)[j].toggle != ps[j].toggle;
    }
  }

  /** The rows after a click on row i's toggle: the toggle flips, then
      the first toggled row of that name decides the first row of that
      name's activation. */
  function Clicked(ps: seq<Entry>, i: nat): seq<Entry>
    requires i < |ps| && ps[i].toggle
  {
    var flipped := ps[i := ps[i].(autoOn := !ps[i].autoOn)];
    var k := First(flipped, ps[i].name, Toggled);
    if k < |flipped| then WithActive(flipped, ps[i].name, flipped[k].autoOn) else flipped
  }

  /**
   * A click flips the row's toggle; when the row is the first of its name,
   * turning the toggle on deactivates its widget and turning it off
   * reactivates it. Apart from that only the first row of the name can
   * change, and only in its activation.
   */
  lemma ClickFacts(ps: seq<Entry>, i: nat)
    requires i < |ps| && ps[i].toggle
    ensures |Clicked(ps, i)| == |ps|
    ensures Clicked(ps, i)[i] == ps[i].(autoOn := !ps[i].autoOn, active := Clicked(ps, i)[i].active)
    ensures First(ps, ps[i].name, Any) == i ==> Clicked(ps, i)[i].active == !Clicked(ps, i)[i].autoOn
    ensures forall k :: 0 <= k < |ps| && k != i ==>
              Clicked(ps, i)[k] == ps[k].(active := Clicked(ps, i)[k].active)
              && (k != First(ps, ps[i].name, Any) ==> Clicked(ps, i)[k] == ps[k])
  {
    var name := ps[i].name;
    var flipped := ps[i := ps[i].(autoOn := !ps[i].autoOn)];
    assert Matches(flipped[i], name, Toggled);
    var k := First(flipped, name, Toggled);
    assert k <= i;
    var j := First(flipped, name, Any);
    assert j <= k;
    assert forall m :: 0 <= m < |ps| ==> (Matches(ps[m], name, Any) <==> Matches(flipped[m], name, Any));
    assert j == First(ps, name, Any);
    if j == i {
      assert k == i;
    }
  }

  // ---------------------------------------------------------------------
  // Collecting the values
  // ---------------------------------------------------------------------

  /** The text a row contributes: "auto" when its toggle is on; otherwise
      the slider value as the stream formats it (fmt), the shown option,
      "true"/"false", or the input text. */
  function ValueText(e: Entry, fmt: real -> string): string
  {
    if e.toggle && e.autoOn then "auto"
    else match e.control
      case Slider(_, _, value, _) => fmt(value)
      case IntSlider(_, _, ivalue) => fmt(ivalue as real)
      case Choice(options, picked) => if picked.Some? && picked.value < |options| then options[picked.value] else ""
      case Check(checked) => if checked then "true" else "false"
      case Text(text) => text
  }

  /** The map collectParameters builds: rows in order, a later row
      overwriting an earlier one of the same name. */
  function Collected(ps: seq<Entry>, fmt: real -> string): map<string, string>
  {
    if ps == [] then map[] else Collected(ps[..|ps| - 1], fmt)[ps[|ps| - 1].name := ValueText(ps[|ps| - 1], fmt)]
  }

  /** The rows' names, in order. */
  function EntryNames(ps: seq<Entry>): seq<string>
  {
    seq(|ps|, i requires 0 <= i < |ps| => ps[i].name)
  }

  /** One key per parameter name, and no other. */
  lemma {:induction false} CollectedKeys(ps: seq<Entry>, fmt: real -> string)
    ensures forall n :: n in Collected(ps, fmt) <==> n in EntryNames(ps)
  {
    if ps != [] {
      var init := ps[..|ps| - 1];
      CollectedKeys(init, fmt);
      assert EntryNames(ps) == EntryNames(init) + [ps[|ps| - 1].name];
    }
  }

  /**
   * The value under a row's name is that row's own when no later row has
   * the name: "auto" when its toggle is on, "true" or "false" for a check
   * box, and the shown option (or "") for a choice.
   */
  lemma {:induction false} CollectedAt(ps: seq<Entry>, fmt: real -> string, i: nat)
    requires i < |ps| && forall j :: i < j < |ps| ==> ps[j].name != ps[i].name
    ensures ps[i].name in Collected(ps, fmt)
    ensures Collected(ps, fmt)[ps[i].name] == ValueText(ps[i], fmt)
    ensures ps[i].toggle && ps[i].autoOn ==> Collected(ps, fmt)[ps[i].name] == "auto"
    ensures ps[i].control.Check? && !(ps[i].toggle && ps[i].autoOn) ==>
      Collected(ps, fmt)[ps[i].name] == (if ps[i].control.checked then "true" else "false")
  {
    if i < |ps| - 1 {
      var init := ps[..|ps| - 1];
      CollectedAt(init, fmt, i);
      assert init[i] == ps[i];
    }
  }

  // ---------------------------------------------------------------------
  // The toggle callback
  // ---------------------------------------------------------------------

  /** What a widget's one user-data slot can hold here: the selector, or a
      copy of a parameter name. */
  datatype UserData = SelectorData | NameData(name: string)

  /** An Auto check button, reduced to its user-data slot; registering a
      callback with data and setting the user data write the same slot. */
  datatype ToggleButton = ToggleButton(userData: UserData)

  function RegisterCallback(b: ToggleButton, data: UserData): ToggleButton
  {
    b.(userData := data)
  }

  function SetUserData(b: ToggleButton, data: UserData): ToggleButton
  {
    b.(userData := data)
  }

  /** addAutoToggle as written: the callback is registered with the
      selector, then the slot is overwritten with the name copy. */
  function AttachAsWritten(b: ToggleButton, name: string): (r: ToggleButton)
    ensures r.userData == NameData(name)
  {
    SetUserData(RegisterCallback(b, SelectorData), NameData(name))
  }

  /** autoToggleCallback as written: it receives the slot as its data and
      uses it as the selector, and reads the name from the same slot. It
      reaches handleAutoToggle with a name only when the slot is both the
      selector and a name, which it never is. */
  function DispatchAsWritten(b: ToggleButton): (r: Option<string>)
  {
    var selfIsSelector := b.userData == SelectorData;
    var name := if b.userData.NameData? then Some(b.userData.name) else None;
    if selfIsSelector && name.Some? then name else None
  }

  /** As written, no click on an Auto toggle reaches handleAutoToggle on a
      real selector: the callback's data is the name string. */
  lemma AutoToggleClickLost(b: ToggleButton, name: string)
    ensures AttachAsWritten(b, name).userData != SelectorData
    ensures DispatchAsWritten(AttachAsWritten(b, name)) == None
  {
  }

  class HyperparameterSelector {
    var currentModelType: string
    var title: string
    /** The parameter group's top edge. */
    const groupY: int
    var params: seq<Entry>

    predicate Valid()
      reads this
    {
      Rowed(params, groupY)
    }

    /** The screen opens with no model type and no parameter rows; the group
        starts 110 below the screen's top. */
    constructor (x: int, y: int, w: int, h: int)
      ensures Valid() && currentModelType == "" && params == [] && groupY == y + 110
      ensures title == "Model Hyperparameters"
    {
      currentModelType, title, params := "", "Model Hyperparameters", [];
      groupY := y + 20 + 90;
    }

    /** clearUI: every row removed. */
    method ClearUI()
      modifies this
      ensures Valid() && params == []
      ensures currentModelType == old(currentModelType) && title == old(title)
    {
      params := [];
    }

    /** add*Param: one active row without toggle is appended 60 below the
        previous one. */
    method AddParam(spec: Spec)
      requires Valid()
      modifies this
      ensures Valid() && params == old(params) + [NewEntry(spec, RowY(groupY, |old(params)|))]
      ensures currentModelType == old(currentModelType) && title == old(title)
    {
      var count := |params|;
      var y := groupY + 20 + count * 60;
      params := params + [NewEntry(spec, y)];
    }

    /** addAutoToggle: the first row of that name without a toggle gets one. */
    method AddAutoToggle(name: string)
      requires Valid()
      modifies this
      ensures Valid() && params == WithToggle(old(params), name)
      ensures currentModelType == old(currentModelType) && title == old(title)
    {
      var i := 0;
      while i < |params|
        invariant 0 <= i <= |params|
        invariant forall k :: 0 <= k < i ==> !Matches(params[k], name, Untoggled)
      {
        if params[i].name == name && !params[i].toggle {
          assert i == First(params, name, Untoggled);
          params := params[i := params[i].(toggle := true)];
          return;
        }
        i := i + 1;
      }
    }

    /** updateParamVisibility: the first row of that name is deactivated
        when auto is enabled and activated otherwise. */
    method UpdateParamVisibility(name: string, autoEnabled: bool)
      requires Valid()
      modifies this
      ensures Valid() && params == WithActive(old(params), name, autoEnabled)
      ensures currentModelType == old(currentModelType) && title == old(title)
    {
      var i := 0;
      while i < |params|
        invariant 0 <= i <= |params|
        invariant forall k :: 0 <= k < i ==> !Matches(params[k], name, Any)
      {
        if params[i].name == name {
          assert i == First(params, name, Any);
          params := params[i := params[i].(active := !autoEnabled)];
          return;
        }
        i := i + 1;
      }
    }

    /** handleAutoToggle: the first row of that name with a toggle decides
        whether the widget is deactivated. */
    method HandleAutoToggle(name: string)
      requires Valid()
      modifies this
      ensures Valid()
      ensures var k := First(old(params), name, Toggled);
        params == if k < |old(params)| then WithActive(old(params), name, old(params)[k].autoOn) else old(params)
      ensures currentModelType == old(currentModelType) && title == old(title)
    {
      var i := 0;
      while i < |params|
        invariant 0 <= i <= |params|
        invariant forall k :: 0 <= k < i ==> !Matches(params[k], name, Toggled)
      {
        if params[i].name == name && params[i].toggle {
          assert i == First(params, name, Toggled);
          UpdateParamVisibility(name, params[i].autoOn);
          return;
        }
        i := i + 1;
      }
    }

    /** A click on row i's Auto toggle, dispatched as the callback
        evidently intends; see Clicked and ClickFacts. */
    method ClickAutoToggle(i: nat)
      requires Valid() && i < |params| && params[i].toggle
      modifies this
      ensures Valid() && params == Clicked(old(params), i)
      ensures currentModelType == old(currentModelType) && title == old(title)
    {
      var name := params[i].name;
      params := params[i := params[i].(autoOn := !params[i].autoOn)];
      HandleAutoToggle(name);
    }

    /** The rows for a model type: every parameter of its list, in order,
        each with its toggle. */
    method AddAll(specs: seq<Spec>)
      requires Valid() && params == [] && Distinct(Names(specs))
      modifies this
      ensures Valid() && Built(params, specs, groupY)
      ensures currentModelType == old(currentModelType) && title == old(title)
    {
      var i := 0;
      while i < |specs|
        invariant 0 <= i <= |specs| && Valid() && |params| == i
        invariant forall k :: 0 <= k < i ==> params[k] == NewEntry(specs[k], RowY(groupY, k)).(toggle := true)
        invariant currentModelType == old(currentModelType) && title == old(title)
      {
        AddParam(specs[i]);
        AddOwnToggle(specs, i);
        i := i + 1;
      }
    }

    /** The toggle added right after row i lands on row i, since no earlier
        row shares its name. */
    method AddOwnToggle(specs: seq<Spec>, i: nat)
      requires Valid() && Distinct(Names(specs)) && i < |specs| && |params| == i + 1
      requires forall k :: 0 <= k < i ==> params[k].name == specs[k].name && params[k].toggle
      requires params[i] == NewEntry(specs[i], RowY(groupY, i))
      modifies this
      ensures Valid() && params == old(params)[i := old(params)[i].(toggle := true)]
      ensures currentModelType == old(currentModelType) && title == old(title)
    {
      assert Names(specs)[i] == specs[i].name;
      forall k | 0 <= k < i ensures !Matches(params[k], specs[i].name, Untoggled) {
        assert Names(specs)[k] == specs[k].name;
      }
      assert First(params, specs[i].name, Untoggled) == i;
      AddAutoToggle(specs[i].name);
    }

    /** buildUIForModelType: the title names the type and the type's
        parameter rows are created. */
    method BuildUIForModelType()
      requires Valid() && params == []
      modifies this
      ensures Valid() && title == "Configure " + currentModelType + " Hyperparameters"
      ensures Built(params, Specs(currentModelType), groupY)
      ensures currentModelType == old(currentModelType)
    {
      title := "Configure " + currentModelType + " Hyperparameters";
      match KindOf(currentModelType) {
        case None =>
        case Some(ElasticNetKind) => CreateElasticNetUI();
        case Some(XGBoostKind) => CreateXGBoostUI();
        case Some(RandomForestKind) => CreateRandomForestUI();
        case Some(NeuralNetworkKind) => CreateNeuralNetworkUI();
        case Some(GradientBoostingKind) => CreateGradientBoostingUI();
      }
    }

    /** create*UI: the model type's parameter list, whose names are
        distinct, becomes the rows. */
    method CreateElasticNetUI()
      requires Valid() && params == []
      modifies this
      ensures Valid() && Built(params, ElasticNetSpecs(), groupY)
      ensures currentModelType == old(currentModelType) && title == old(title)
    {
      ElasticNetDistinct();
      AddAll(ElasticNetSpecs());
    }

    method CreateXGBoostUI()
      requires Valid() && params == []
      modifies this
      ensures Valid() && Built(params, XGBoostSpecs(), groupY)
      ensures currentModelType == old(currentModelType) && title == old(title)
    {
      XGBoostDistinct();
      AddAll(XGBoostSpecs());
    }

    method CreateRandomForestUI()
      requires Valid() && params == []
      modifies this
      ensures Valid() && Built(params, RandomForestSpecs(), groupY)
      ensures currentModelType == old(currentModelType) && title == old(title)
    {
      RandomForestDistinct();
      AddAll(RandomForestSpecs());
    }

    method CreateNeuralNetworkUI()
      requires Valid() && params == []
      modifies this
      ensures Valid() && Built(params, NeuralNetworkSpecs(), groupY)
      ensures currentModelType == old(currentModelType) && title == old(title)
    {
      NeuralNetworkDistinct();
      AddAll(NeuralNetworkSpecs());
    }

    method CreateGradientBoostingUI()
      requires Valid() && params == []
      modifies this
      ensures Valid() && Built(params, GradientBoostingSpecs(), groupY)
      ensures currentModelType == old(currentModelType) && title == old(title)
    {
      GradientBoostingDistinct();
      AddAll(GradientBoostingSpecs());
    }

    /** setModelType: the same type again changes nothing; a new one clears
        the rows and builds that type's. */
    method SetModelType(modelType: string)
      requires Valid()
      modifies this
      ensures Valid() && currentModelType == modelType
      ensures modelType == old(currentModelType) ==> params == old(params) && title == old(title)
      ensures modelType != old(currentModelType) ==>
                Built(params, Specs(modelType), groupY) && title == "Configure " + modelType + " Hyperparameters"
    {
      if currentModelType != modelType {
        currentModelType := modelType;
        ClearUI();
        BuildUIForModelType();
      }
    }

    /** collectParameters: the name-to-text map of the rows, see Collected. */
    method CollectParameters(fmt: real -> string) returns (values: map<string, string>)
      ensures values == Collected(params, fmt)
    {
      values := map[];
      var i := 0;
      while i < |params|
        invariant 0 <= i <= |params| && values == Collected(params[..i], fmt)
      {
        assert params[..i + 1][..i] == params[..i];
        values := values[params[i].name := ValueText(params[i], fmt)];
        i := i + 1;
      }
      assert params[..i] == params;
    }
  }

  /** Right after a screen is built from a list of parameters with
      distinct names, Next hands on one value per listed name, that
      parameter's default, as no toggle is on yet. */
  lemma {:induction false} FreshScreenCollects(specs: seq<Spec>, groupY: int, ps: seq<Entry>, fmt: real -> string, i: nat)
    requires Distinct(Names(specs)) && Built(ps, specs, groupY) && i < |ps|
    ensures forall n :: n in Collected(ps, fmt) <==> n in Names(specs)
    ensures specs[i].name in Collected(ps, fmt) && Collected(ps, fmt)[specs[i].name] == ValueText(NewEntry(specs[i], 0), fmt)
  {
    CollectedKeys(ps, fmt);
    assert EntryNames(ps) == Names(specs);
    forall j | i < j < |ps| ensures ps[j].name != ps[i].name {
      assert Names(specs)[j] != Names(specs)[i];
    }
    CollectedAt(ps, fmt, i);
  }
}
