/**
 * The bookkeeping of the feed-forward network regressor: the activation
 * names the string constructor understands, the layer architecture and
 * the weight and bias shapes fit creates, the mini-batch schedule of each
 * epoch with its early stop, the getParameters map with its parameter
 * count, and the guards of predict. The floating-point training itself
 * (initial weights, forward and backward passes, normalisation) is not
 * modelled: the epoch losses and the trained network's output are given
 * as functions.
 */
module NeuralNetworks {
  import opened Wrappers
  import opened Strings
  import opened ModelCommon

  // ---------------------------------------------------------------------
  // Activations
  // ---------------------------------------------------------------------

  /** The activation enum, in declaration order. */
  datatype Activation = RELU | SIGMOID | TANH | LINEAR

  /** static_cast<double> of the enum: its position in the declaration. */
  function Code(a: Activation): (c: real)
    ensures c in {0.0, 1.0, 2.0, 3.0}
  {
    match a
    case RELU => 0.0
    case SIGMOID => 1.0
    case TANH => 2.0
    case LINEAR => 3.0
  }

  /** Different activations report different codes. */
  lemma CodeInjective(a: Activation, b: Activation)
    ensures Code(a) == Code(b) ==> a == b
  {
  }

  /** The activation named by the string constructor's argument: relu,
      sigmoid, tanh and identity, and ReLU for any other name. */
  function ParseActivation(name: string): (a: Activation)
    ensures a == SIGMOID <==> name == "sigmoid"
    ensures a == TANH <==> name == "tanh"
    ensures a == LINEAR <==> name == "identity"
    ensures a == RELU <==> name != "sigmoid" && name != "tanh" && name != "identity"
  {
    if name == "relu" then RELU
    else if name == "sigmoid" then SIGMOID
    else if name == "tanh" then TANH
    else if name == "identity" then LINEAR
    else RELU
  }

  /** The name under which the string constructor accepts an activation. */
  function ActivationName(a: Activation): string
  {
    match a
    case RELU => "relu"
    case SIGMOID => "sigmoid"
    case TANH => "tanh"
    case LINEAR => "identity"
  }

  /** Every activation can be chosen by name. */
  lemma ParseActivationName(a: Activation)
    ensures ParseActivation(ActivationName(a)) == a
  {
  }

  /** The name getDescription prints for an activation. */
  function DisplayName(a: Activation): string
  {
    match a
    case RELU => "ReLU"
    case SIGMOID => "Sigmoid"
    case TANH => "Tanh"
    case LINEAR => "Linear"
  }

  /** The description tells the four activations apart. */
  lemma DisplayNameInjective(a: Activation, b: Activation)
    ensures DisplayName(a) == DisplayName(b) <==> a == b
  {
  }

  // ---------------------------------------------------------------------
  // getDescription
  // ---------------------------------------------------------------------

  /** What getDescription prints for hidden layer k (counted from 0). */
  function LayerPhrase(size: int, k: nat): string
  {
    IntToString(size) + " neurons in hidden layer " + NatToString(k + 1)
  }

  /** What comes before hidden layer k's phrase: nothing for the first. */
  function Separator(k: nat): string
  {
    if k == 0 then "" else ", "
  }

  /** The hidden layers' phrases, separated by ", ". */
  function HiddenList(sizes: seq<int>): string
  {
    if |sizes| == 0 then ""
    else HiddenList(sizes[..|sizes| - 1]) + Separator(|sizes| - 1) + LayerPhrase(sizes[|sizes| - 1], |sizes| - 1)
  }

  /** What getDescription prints before the hidden layers. */
  function DescriptionHead(n: nat): string
  {
    "Neural Network with " + NatToString(n) + " input features, "
  }

  /** What getDescription prints after the hidden layers. */
  function DescriptionTail(hidden: Activation, output: Activation): string
  {
    " and 1 output neuron (hidden: " + DisplayName(hidden) + ", output: " + DisplayName(output) + ")"
  }

  /** The text after the hidden layers names both activations, so two
      networks that differ in either are described differently. */
  lemma DescriptionTailInjective(h1: Activation, o1: Activation, h2: Activation, o2: Activation)
    ensures DescriptionTail(h1, o1) == DescriptionTail(h2, o2) <==> h1 == h2 && o1 == o2
  {
    if DescriptionTail(h1, o1) == DescriptionTail(h2, o2) {
      NamesAgree(h1, o1, h2, o2);
    }
  }

  /** The four display names begin with four different letters. */
  lemma InitialsDiffer(a: Activation, b: Activation)
    ensures |DisplayName(a)| > 0 && |DisplayName(b)| > 0
    ensures DisplayName(a)[0] == DisplayName(b)[0] ==> a == b
  {
  }

  /** Reading the tail from the front: the letter after "(hidden: " names
      the hidden activation, and the letter ten places after that name
      names the output activation. */
  lemma NamesAgree(h1: Activation, o1: Activation, h2: Activation, o2: Activation)
    requires DescriptionTail(h1, o1) == DescriptionTail(h2, o2)
    ensures h1 == h2 && o1 == o2
  {
    var t1, t2 := DescriptionTail(h1, o1), DescriptionTail(h2, o2);
    InitialsDiffer(h1, h2);
    assert t1[30] == DisplayName(h1)[0] && t2[30] == DisplayName(h2)[0];
    var n := |DisplayName(h1)|;
    InitialsDiffer(o1, o2);
    assert t1[n + 40] == DisplayName(o1)[0] && t2[n + 40] == DisplayName(o2)[0];
  }

  /** The loop of getDescription: after the separator before layer i,
      layer i's phrase completes the list of the first i + 1 layers. */
  lemma HiddenListPrefixStep(sizes: seq<int>, i: nat)
    requires i < |sizes|
    ensures HiddenList(sizes[..i]) + Separator(i) + LayerPhrase(sizes[i], i) == HiddenList(sizes[..i + 1])
  {
    assert sizes[..i + 1] == sizes[..i] + [sizes[i]];
    HiddenListSnoc(sizes[..i], sizes[i]);
  }

  /** The loop of getDescription over the hidden layers: each layer's
      phrase, followed by ", " unless it is the last. */
  method JoinHiddenLayers(sizes: seq<int>) returns (layers: string)
    ensures layers == HiddenList(sizes)
  {
    layers := "";
    var i := 0;
    while i < |sizes|
      invariant 0 <= i <= |sizes|
      invariant layers == HiddenList(sizes[..i]) + (if i < |sizes| then Separator(i) else "")
    {
      HiddenListPrefixStep(sizes, i);
      layers := layers + LayerPhrase(sizes[i], i);
      if i < |sizes| - 1 {
        layers := layers + ", ";
      }
      i := i + 1;
    }
    assert sizes[..i] == sizes;
  }

  /** The whole description of a network with n inputs. */
  function DescriptionText(n: nat, sizes: seq<int>, hidden: Activation, output: Activation): string
  {
    DescriptionHead(n) + HiddenList(sizes) + DescriptionTail(hidden, output)
  }

  /** The default single hidden layer of 10 units reads as such. */
  lemma DefaultHiddenList()
    ensures HiddenList([10]) == "10 neurons in hidden layer 1"
  {
    assert [10][..0] == [];
    assert HiddenList([10]) == LayerPhrase(10, 0);
    TenAndOne();
  }

  /** The decimal texts of 10 and 1. */
  lemma TenAndOne()
    ensures IntToString(10) == "10" && NatToString(1) == "1"
  {
    assert NatToString(1) == "1";
    assert NatToString(10) == NatToString(1) + [DigitChar(0)];
  }

  /** Each hidden layer adds its own phrase, after a ", " unless it is the
      first. */
  lemma HiddenListSnoc(sizes: seq<int>, size: int)
    ensures HiddenList(sizes + [size])
            == HiddenList(sizes) + Separator(|sizes|) + LayerPhrase(size, |sizes|)
  {
    assert (sizes + [size])[..|sizes|] == sizes;
  }

  // ---------------------------------------------------------------------
  // Architecture and layer shapes
  // ---------------------------------------------------------------------

  /** The layer widths of fit: the inputs, the hidden layers, one output. */
  function Architecture(nFeatures: nat, layerSizes: seq<int>): (arch: seq<int>)
    ensures |arch| == |layerSizes| + 2
    ensures arch[0] == nFeatures && arch[|arch| - 1] == 1
    ensures forall k :: 0 <= k < |layerSizes| ==> arch[k + 1] == layerSizes[k]
  {
    [nFeatures as int] + layerSizes + [1]
  }

  /** The shape of an Eigen matrix. */
  datatype Dims = Dims(rows: int, cols: int)

  /** Weight matrix i maps layer i to layer i + 1 (arch[i+1] rows, arch[i]
      columns) and bias i has one entry per unit of layer i + 1. */
  ghost predicate Layered(weights: seq<Dims>, biases: seq<int>, arch: seq<int>)
  {
    |arch| >= 1 && |weights| == |biases| == |arch| - 1
    && (forall i :: 0 <= i < |weights| ==> weights[i] == Dims(arch[i + 1], arch[i]))
    && (forall i :: 0 <= i < |biases| ==> biases[i] == arch[i + 1])
  }

  /** The weight and bias initialisation loop of fit, shapes only (the
      values are random draws and zeros). */
  method InitLayers(arch: seq<int>) returns (weights: seq<Dims>, biases: seq<int>)
    requires |arch| >= 1
    ensures Layered(weights, biases, arch)
  {
    weights, biases := [], [];
    var i := 0;
    while i < |arch| - 1
      invariant 0 <= i <= |arch| - 1 && |weights| == |biases| == i
      invariant forall j :: 0 <= j < i ==> weights[j] == Dims(arch[j + 1], arch[j])
      invariant forall j :: 0 <= j < i ==> biases[j] == arch[j + 1]
    {
      weights := weights + [Dims(arch[i + 1], arch[i])];
      biases := biases + [arch[i + 1]];
      i := i + 1;
    }
  }

  /** Entries of weights[..k] and biases[..k] together (Eigen's size() is
      rows times columns). */
  function ParameterCount(weights: seq<Dims>, biases: seq<int>, k: nat): int
    requires k <= |weights| && k <= |biases|
  {
    if k == 0 then 0
    else ParameterCount(weights, biases, k - 1) + weights[k - 1].rows * weights[k - 1].cols + biases[k - 1]
  }

  /** Parameters of the first k layer transitions of an architecture: for
      each, arch[i+1] * arch[i] weights and arch[i+1] biases. */
  function ArchitectureParameters(arch: seq<int>, k: nat): int
    requires k < |arch|
  {
    if k == 0 then 0 else ArchitectureParameters(arch, k - 1) + arch[k] * arch[k - 1] + arch[k]
  }

  /** The count over the layers fit creates is the count the architecture
      determines. */
  lemma {:induction false} LayeredParameters(weights: seq<Dims>, biases: seq<int>, arch: seq<int>, k: nat)
    requires Layered(weights, biases, arch) && k < |arch|
    ensures ParameterCount(weights, biases, k) == ArchitectureParameters(arch, k)
  {
    if k > 0 {
      LayeredParameters(weights, biases, arch, k - 1);
    }
  }

  /** With non-negative widths each transition adds at least its biases,
      so a network ending in one output unit has at least one parameter. */
  lemma {:induction false} ArchitectureParametersAtLeast(arch: seq<int>, k: nat)
    requires k < |arch| && forall i :: 0 <= i < |arch| ==> arch[i] >= 0
    ensures ArchitectureParameters(arch, k) >= (if k == 0 then 0 else arch[k])
  {
    if k > 0 {
      ArchitectureParametersAtLeast(arch, k - 1);
      assert arch[k] * arch[k - 1] >= 0;
    }
  }

  /** The default network, one hidden layer of ten units over n inputs,
      has 10 n + 21 parameters. */
  lemma DefaultParameters(n: nat)
    ensures ArchitectureParameters(Architecture(n, [10]), 2) == 10 * n + 21
  {
    var arch := Architecture(n, [10]);
    assert arch == [n as int, 10, 1];
    assert ArchitectureParameters(arch, 1) == 10 * n + 10;
  }

  // ---------------------------------------------------------------------
  // Mini-batches
  // ---------------------------------------------------------------------

  /** The batches of one epoch: consecutive slices of the shuffled indices,
      each of batchSize entries except a shorter last one. */
  function Chunks(s: seq<nat>, b: int): seq<seq<nat>>
    requires b > 0 || s == []
    decreases |s|
  {
    if s == [] then [] else
      var k := if b < |s| then b else |s|;
      [s[..k]] + Chunks(s[k..], b)
  }

  /** The batches one after the other. */
  function Flatten(bs: seq<seq<nat>>): seq<nat>
  {
    if bs == [] then [] else bs[0] + Flatten(bs[1..])
  }

  /** The batches together are the index list, in order. */
  lemma {:induction false} ChunksFlatten(s: seq<nat>, b: int)
    requires b > 0 || s == []
    ensures Flatten(Chunks(s, b)) == s
    decreases |s|
  {
    if s != [] {
      var k := if b < |s| then b else |s|;
      ChunksFlatten(s[k..], b);
      assert s[..k] + s[k..] == s;
    }
  }

  /** Every batch holds min(batchSize, n - i) indices: none is empty, none
      exceeds batchSize, and only the last is short. So there are
      ceil(n / batchSize) of them: the batches before the last fall short
      of n, all of them reach it. */
  lemma {:induction false} ChunksSizes(s: seq<nat>, b: int)
    requires b > 0
    ensures forall k :: 0 <= k < |Chunks(s, b)| ==> 0 < |Chunks(s, b)[k]| <= b
    ensures forall k :: 0 <= k < |Chunks(s, b)| - 1 ==> |Chunks(s, b)[k]| == b
    ensures s == [] <==> Chunks(s, b) == []
    ensures s != [] ==> (|Chunks(s, b)| - 1) * b < |s| <= |Chunks(s, b)| * b
    decreases |s|
  {
    if s != [] {
      var k := if b < |s| then b else |s|;
      ChunksSizes(s[k..], b);
      var c := Chunks(s, b);
      assert c == [s[..k]] + Chunks(s[k..], b);
      if b < |s| {
        var m := |Chunks(s[k..], b)|;
        assert (m - 1) * b < |s| - b <= m * b;
        assert (m - 1) * b + b == m * b;
        assert m * b + b == (m + 1) * b;
      } else {
        assert Chunks(s[k..], b) == [];
      }
    }
  }

  /** A permutation of 0..n-1 holds every index below n. */
  lemma PermutationCovers(order: seq<nat>, n: nat, s: nat)
    requires IsPermutation(order, n) && s < n
    ensures s in order
  {
    var present := set i | 0 <= i < |order| :: order[i];
    var range := Range(n);
    DistinctCard(order);
    RangeCard(n);
    RangeMembers(n);
    assert present <= range;
    if s !in present {
      assert present <= range - {s};
      assert |range - {s}| == n - 1;
      SubsetCard(present, range - {s});
      assert false;
    }
  }

  /** The values of a list without repeats are as many as its entries. */
  lemma {:induction false} DistinctCard(order: seq<nat>)
    requires Distinct(order)
    ensures |set i | 0 <= i < |order| :: order[i]| == |order|
    decreases |order|
  {
    if order != [] {
      var init := order[..|order| - 1];
      assert Distinct(init);
      DistinctCard(init);
      var last := order[|order| - 1];
      var before := set i | 0 <= i < |init| :: init[i];
      assert (set i | 0 <= i < |order| :: order[i]) == before + {last};
      assert last !in before;
    }
  }

  /** The set 0..n-1. */
  function Range(n: nat): set<nat>
  {
    if n == 0 then {} else Range(n - 1) + {n - 1}
  }

  lemma {:induction false} RangeMembers(n: nat)
    ensures forall v: nat :: v in Range(n) <==> v < n
  {
    if n > 0 {
      RangeMembers(n - 1);
    }
  }

  /** 0..n-1 has n values. */
  lemma {:induction false} RangeCard(n: nat)
    ensures |Range(n)| == n
  {
    if n > 0 {
      RangeCard(n - 1);
      RangeMembers(n - 1);
      assert n - 1 !in Range(n - 1);
    }
  }

  /** A subset has at most as many elements. */
  lemma {:induction false} SubsetCard(a: set<nat>, b: set<nat>)
    requires a <= b
    ensures |a| <= |b|
    decreases |b|
  {
    if a != {} {
      var x :| x in a;
      SubsetCard(a - {x}, b - {x});
    }
  }

  /** One epoch's batches, built from a shuffle of 0..n-1, use every sample
      exactly once and nothing else. */
  lemma BatchesCoverOnce(order: seq<nat>, n: nat, b: int, s: nat)
    requires IsPermutation(order, n) && b > 0
    ensures multiset(Flatten(Chunks(order, b)))[s] == (if s < n then 1 else 0)
  {
    ChunksFlatten(order, b);
    if s < n {
      PermutationCovers(order, n, s);
      var i :| 0 <= i < |order| && order[i] == s;
      OnlyOnce(order, i);
    } else {
      assert s !in order;
    }
  }

  /** A value at position i of a list without repeats occurs once. */
  lemma {:induction false} OnlyOnce(order: seq<nat>, i: nat)
    requires Distinct(order) && i < |order|
    ensures multiset(order)[order[i]] == 1
    decreases |order|
  {
    var init := order[..|order| - 1];
    assert order == init + [order[|order| - 1]];
    assert Distinct(init);
    if i == |order| - 1 {
      assert order[i] !in init;
    } else {
      OnlyOnce(init, i);
      assert init[i] == order[i];
    }
  }

  /** The batch loop of one epoch: i runs over 0, batchSize, 2 batchSize,
      ... below n, each batch taking min(batchSize, n - i) indices from
      position i. */
  method MiniBatches(indices: seq<nat>, batchSize: int) returns (batches: seq<seq<nat>>)
    requires batchSize > 0 || indices == []
    ensures batches == Chunks(indices, batchSize)
  {
    batches := [];
    var i := 0;
    while i < |indices|
      invariant 0 <= i && (i < |indices| ==> batches + Chunks(indices[i..], batchSize) == Chunks(indices, batchSize))
      invariant i >= |indices| ==> batches == Chunks(indices, batchSize)
      decreases |indices| - i
    {
      var actual := if batchSize < |indices| - i then batchSize else |indices| - i;
      var batch := indices[i..i + actual];
      assert indices[i..][..actual] == batch;
      assert indices[i..][actual..] == indices[i + actual..];
      batches := batches + [batch];
      if i + actual == |indices| {
        assert Chunks(indices[i + actual..], batchSize) == [];
      }
      i := i + batchSize;
    }
  }

  // ---------------------------------------------------------------------
  // Epochs and the early stop
  // ---------------------------------------------------------------------

  /** std::numeric_limits<double>::max(), the loss before the first epoch. */
  const DoubleMax: real := 179769313486231570814527423731704356798070567525844996598917476803157260780028538760589558632766878171540458953514382464234321326889464182768467546703537516986049910576551282076245490090389328944075868508455133942304583236903222948165808559332123348274797826204144723168738177180919299881250404026184124858368.0

  function Abs(r: real): real { if r < 0.0 then -r else r }

  /** The loss the epoch's improvement is measured against. */
  function PreviousLoss(loss: nat -> real, k: nat): real
  {
    if k == 0 then DoubleMax else loss(k - 1)
  }

  /** Training stops after epoch k when its loss moved by less than tol. */
  predicate Converged(loss: nat -> real, tol: real, k: nat)
  {
    Abs(PreviousLoss(loss, k) - loss(k)) < tol
  }

  /** The number of epochs run from epoch k on: up to `epochs`, stopping
      after the first that converged. */
  function EpochsRun(loss: nat -> real, epochs: int, tol: real, k: nat): nat
    decreases epochs - k
  {
    if k >= epochs then k
    else if Converged(loss, tol, k) then k + 1
    else EpochsRun(loss, epochs, tol, k + 1)
  }

  /** The epoch count: never more than `epochs`, at least one when epochs
      is positive, no epoch before the last converged, and the last
      converged unless all epochs ran. */
  lemma {:induction false} EpochsRunFacts(loss: nat -> real, epochs: int, tol: real, k: nat)
    requires k <= epochs || k == 0
    ensures var r := EpochsRun(loss, epochs, tol, k);
      (if epochs > k then k < r <= epochs else r == k)
      && (forall j :: k <= j < r - 1 ==> !Converged(loss, tol, j))
      && (k < r < epochs ==> Converged(loss, tol, r - 1))
    decreases epochs - k
  {
    if k < epochs && !Converged(loss, tol, k) {
      EpochsRunFacts(loss, epochs, tol, k + 1);
    }
  }

  // ---------------------------------------------------------------------
  // The model
  // ---------------------------------------------------------------------

  class NeuralNetwork {
    var layerSizes: seq<int>
    var hiddenActivation: Activation
    var outputActivation: Activation
    var learningRate: real
    var epochs: int
    var batchSize: int
    var tol: real

    var isFitted: bool
    var nSamples: nat
    var nFeatures: nat
    var names: seq<string>
    var target: string
    var weights: seq<Dims>
    var biases: seq<int>

    /** Before fit there are no layers; after it, one weight matrix and one
        bias vector per layer transition of the architecture. */
    ghost predicate Valid()
      reads this
    {
      if isFitted then Layered(weights, biases, Architecture(nFeatures, layerSizes))
      else weights == [] && biases == []
    }

    /** The hyperparameters, which nothing but a constructor sets. */
    function Settings(): (seq<int>, Activation, Activation, real, int, int, real)
      reads this
    {
      (layerSizes, hiddenActivation, outputActivation, learningRate, epochs, batchSize, tol)
    }

    /** The default constructor: one hidden layer of 10 ReLU units, a linear
        output, learning rate 0.01, 1000 epochs, batches of 32, tol 1e-4. */
    constructor ()
      ensures Valid() && !isFitted
      ensures Settings() == ([10], RELU, LINEAR, 0.01, 1000, 32, 0.0001)
    {
      layerSizes, hiddenActivation, outputActivation := [10], RELU, LINEAR;
      learningRate, epochs, batchSize, tol := 0.01, 1000, 32, 0.0001;
      isFitted, nSamples, nFeatures, names, target := false, 0, 0, [], "";
      weights, biases := [], [];
    }

    /** The constructor taking the activations as enums. */
    constructor WithActivations(hiddenLayers: seq<int>, activation: Activation, outputActivation: Activation,
                                learningRate: real, epochs: int, batchSize: int, tol: real)
      ensures Valid() && !isFitted
      ensures Settings() == (hiddenLayers, activation, outputActivation, learningRate, epochs, batchSize, tol)
    {
      layerSizes, hiddenActivation, this.outputActivation := hiddenLayers, activation, outputActivation;
      this.learningRate, this.epochs, this.batchSize, this.tol := learningRate, epochs, batchSize, tol;
      isFitted, nSamples, nFeatures, names, target := false, 0, 0, [], "";
      weights, biases := [], [];
    }

    /** The constructor taking the activation by name: the hidden layers use
        the named activation and the output is always linear; tol is 1e-4,
        and the solver name and alpha only ever produce a warning. */
    constructor WithNames(hiddenLayers: seq<int>, activation: string, learningRate: real, epochs: int,
                          batchSize: int, solver: string, alpha: real)
      ensures Valid() && !isFitted
      ensures Settings() == (hiddenLayers, ParseActivation(activation), LINEAR, learningRate, epochs, batchSize, 0.0001)
    {
      layerSizes, hiddenActivation, outputActivation := hiddenLayers, ParseActivation(activation), LINEAR;
      this.learningRate, this.epochs, this.batchSize, tol := learningRate, epochs, batchSize, 0.0001;
      isFitted, nSamples, nFeatures, names, target := false, 0, 0, [], "";
      weights, biases := [], [];
    }

    /**
     * The training loop of fit, batch bookkeeping only: epoch k shuffles
     * 0..n-1 (the engine's shuffle k), cuts it into mini-batches, and
     * training stops early after the first epoch whose loss (loss(k))
     * moved by less than tol.
     */
    method Train(n: nat, e: Engine, loss: nat -> real) returns (schedule: seq<seq<seq<nat>>>)
      requires Sound(e) && (epochs > 0 && n > 0 ==> batchSize > 0)
      ensures |schedule| == EpochsRun(loss, epochs, tol, 0)
      ensures forall k :: 0 <= k < |schedule| ==> schedule[k] == Chunks(e.shuffle(k, n), batchSize)
    {
      schedule := [];
      var epoch := 0;
      while epoch < epochs
        invariant 0 <= epoch && |schedule| == epoch
        invariant EpochsRun(loss, epochs, tol, epoch) == EpochsRun(loss, epochs, tol, 0)
        invariant forall k :: 0 <= k < epoch ==> schedule[k] == Chunks(e.shuffle(k, n), batchSize)
        decreases epochs - epoch
      {
        var indices := e.shuffle(epoch, n);
        assert IsPermutation(indices, n);
        var batches := MiniBatches(indices, batchSize);
        schedule := schedule + [batches];
        var improvement := Abs(PreviousLoss(loss, epoch) - loss(epoch));
        epoch := epoch + 1;
        if improvement < tol {
          return;
        }
      }
    }

    /**
     * fit: false, with nothing changed, when X and y differ in their number
     * of rows. Otherwise the shape and the names are recorded, one weight
     * matrix and bias vector is created per layer transition, the epochs
     * run (schedule: the batches of each) and the model is fitted.
     */
    method Fit(X: seq<seq<real>>, cols: nat, y: seq<real>, variableNames: seq<string>, targetName: string,
               e: Engine, loss: nat -> real)
      returns (ok: bool, ghost schedule: seq<seq<seq<nat>>>)
      requires Shaped(X, cols) && Sound(e) && Valid()
      requires epochs > 0 && |X| == |y| && |X| > 0 ==> batchSize > 0
      modifies this
      ensures Settings() == old(Settings()) && Valid()
      ensures ok <==> |X| == |y|
      ensures !ok ==> unchanged(this)
      ensures ok ==> isFitted && nSamples == |X| && nFeatures == cols
      ensures ok ==> names == InputNames(variableNames, cols) && target == TargetName(targetName)
      ensures ok ==> Layered(weights, biases, Architecture(cols, layerSizes))
      ensures ok ==> |schedule| == EpochsRun(loss, epochs, tol, 0)
      ensures ok ==> forall k :: 0 <= k < |schedule| ==> schedule[k] == Chunks(e.shuffle(k, |X|), batchSize)
    {
      if |X| != |y| {
        return false, [];
      }
      var arch := Architecture(cols, layerSizes);
      var w, b := InitLayers(arch);
      Record(|X|, cols, InputNames(variableNames, cols), TargetName(targetName), w, b);
      schedule := Train(|X|, e, loss);
      ok := true;
    }

    /** The state fit leaves: shape, names, layers, and the fitted flag. */
    method Record(m: nat, n: nat, newNames: seq<string>, newTarget: string, w: seq<Dims>, b: seq<int>)
      modifies this
      ensures Settings() == old(Settings())
      ensures nSamples == m && nFeatures == n && names == newNames && target == newTarget
      ensures weights == w && biases == b && isFitted
    {
      nSamples, nFeatures, names, target := m, n, newNames, newTarget;
      weights, biases, isFitted := w, b, true;
    }

    /**
     * predict: a runtime_error before fit, an invalid_argument when X does
     * not have the training number of columns, otherwise one output per
     * row; net stands for the normalise, forward and denormalise pipeline.
     */
    function Predict(X: seq<seq<real>>, cols: nat, net: seq<real> -> real): (r: Result<seq<real>>)
      reads this
      ensures r.Err? <==> !isFitted || cols != nFeatures
      ensures !isFitted ==> r == Err(RuntimeError(NotFitted))
      ensures isFitted && cols != nFeatures ==> r == Err(InvalidArgument(FeatureMismatch(cols, nFeatures)))
      ensures r.Ok? ==> |r.value| == |X| && forall i :: 0 <= i < |X| ==> r.value[i] == net(X[i])
    {
      if !isFitted then Err(RuntimeError(NotFitted))
      else if cols != nFeatures then Err(InvalidArgument(FeatureMismatch(cols, nFeatures)))
      else Ok(seq(|X|, i requires 0 <= i < |X| => net(X[i])))
    }

    /** The total_parameters loop of getParameters. */
    method TotalParameters() returns (total: int)
      requires Valid()
      ensures total == ParameterCount(weights, biases, |weights|)
      ensures isFitted ==> total == ArchitectureParameters(Architecture(nFeatures, layerSizes), |layerSizes| + 1)
      ensures !isFitted ==> total == 0
    {
      total := 0;
      var i := 0;
      while i < |weights|
        invariant 0 <= i <= |weights| && total == ParameterCount(weights, biases, i)
      {
        total := total + weights[i].rows * weights[i].cols + biases[i];
        i := i + 1;
      }
      if isFitted {
        LayeredParameters(weights, biases, Architecture(nFeatures, layerSizes), |layerSizes| + 1);
      }
    }

    /** getDescription: the input count, each hidden layer's width and
        number, the output neuron and the two activations' names. */
    method Description() returns (r: string)
      ensures r == DescriptionText(nFeatures, layerSizes, hiddenActivation, outputActivation)
    {
      var layers := JoinHiddenLayers(layerSizes);
      r := DescriptionHead(nFeatures) + layers + DescriptionTail(hiddenActivation, outputActivation);
    }

    /**
     * getParameters: the four training settings, the input and output
     * layer sizes, one hidden_layer_<k>_size per hidden layer (k from 1),
     * the two activation codes and the total parameter count.
     */
    method Parameters() returns (params: map<string, real>)
      requires Valid()
      ensures params.Keys == FixedKeys() + HiddenKeys(|layerSizes|)
      ensures params["learning_rate"] == learningRate && params["epochs"] == epochs as real
      ensures params["batch_size"] == batchSize as real && params["tolerance"] == tol
      ensures params["input_layer_size"] == nFeatures as real && params["output_layer_size"] == 1.0
      ensures params["hidden_activation"] == Code(hiddenActivation) && params["output_activation"] == Code(outputActivation)
      ensures forall k :: 0 <= k < |layerSizes| ==> params[HiddenKey(k)] == layerSizes[k] as real
      ensures params["total_parameters"] == ParameterCount(weights, biases, |weights|) as real
    {
      var settings := map["learning_rate" := learningRate, "epochs" := epochs as real, "batch_size" := batchSize as real,
                          "tolerance" := tol, "input_layer_size" := nFeatures as real];
      HiddenKeysNotFixed(|layerSizes|);
      SummaryKeysFresh();
      params := AddHiddenSizes(settings, layerSizes);
      var total := TotalParameters();
      params := AddSummary(params, Code(hiddenActivation), Code(outputActivation), total as real);
    }
  }

  /** The last entries of getParameters: the output layer size, the two
      activation codes and the parameter count, the others kept. */
  method AddSummary(base: map<string, real>, hidden: real, output: real, total: real) returns (params: map<string, real>)
    requires "output_layer_size" !in base && "hidden_activation" !in base
    requires "output_activation" !in base && "total_parameters" !in base
    ensures params.Keys == base.Keys + {"output_layer_size", "hidden_activation", "output_activation", "total_parameters"}
    ensures forall key :: key in base ==> params[key] == base[key]
    ensures params["output_layer_size"] == 1.0 && params["total_parameters"] == total
    ensures params["hidden_activation"] == hidden && params["output_activation"] == output
  {
    params := base["output_layer_size" := 1.0]["hidden_activation" := hidden];
    params := params["output_activation" := output]["total_parameters" := total];
  }

  /** The keys getParameters sets last are none of those it sets first. */
  lemma SummaryKeysFresh()
    ensures "output_layer_size" !in {"learning_rate", "epochs", "batch_size", "tolerance", "input_layer_size"}
    ensures "hidden_activation" !in {"learning_rate", "epochs", "batch_size", "tolerance", "input_layer_size"}
    ensures "output_activation" !in {"learning_rate", "epochs", "batch_size", "tolerance", "input_layer_size"}
    ensures "total_parameters" !in {"learning_rate", "epochs", "batch_size", "tolerance", "input_layer_size"}
    ensures FixedKeys() == {"learning_rate", "epochs", "batch_size", "tolerance", "input_layer_size"}
      + {"output_layer_size", "hidden_activation", "output_activation", "total_parameters"}
  {
  }

  /** The hidden-layer loop of getParameters: hidden_layer_<k+1>_size set to
      sizes[k], the entries already there kept. */
  method AddHiddenSizes(base: map<string, real>, sizes: seq<int>) returns (params: map<string, real>)
    requires forall key :: key in HiddenKeys(|sizes|) ==> key !in base
    ensures params.Keys == base.Keys + HiddenKeys(|sizes|)
    ensures forall key :: key in base ==> params[key] == base[key]
    ensures forall k :: 0 <= k < |sizes| ==> params[HiddenKey(k)] == sizes[k] as real
  {
    params := base;
    var i := 0;
    while i < |sizes|
      invariant 0 <= i <= |sizes|
      invariant params.Keys == base.Keys + HiddenKeys(i)
      invariant forall key :: key in base ==> params[key] == base[key]
      invariant forall k :: 0 <= k < i ==> params[HiddenKey(k)] == sizes[k] as real
    {
      assert HiddenKey(i) in HiddenKeys(|sizes|);
      HiddenKeysDiffer(i);
      params := params[HiddenKey(i) := sizes[i] as real];
      assert HiddenKeys(i + 1) == HiddenKeys(i) + {HiddenKey(i)};
      i := i + 1;
    }
  }

  // ---------------------------------------------------------------------
  // getParameters keys
  // ---------------------------------------------------------------------

  /** The key of hidden layer k (counted from 0): hidden_layer_<k+1>_size. */
  function HiddenKey(k: nat): string
  {
    "hidden_layer_" + NatToString(k + 1) + "_size"
  }

  function HiddenKeys(n: nat): set<string>
  {
    set k | 0 <= k < n :: HiddenKey(k)
  }

  function FixedKeys(): set<string>
  {
    {"learning_rate", "epochs", "batch_size", "tolerance", "input_layer_size", "output_layer_size",
     "hidden_activation", "output_activation", "total_parameters"}
  }

  /** No hidden-layer key is one of the fixed keys. */
  lemma HiddenKeyNotFixed(k: nat)
    ensures HiddenKey(k) !in FixedKeys()
  {
    var h := HiddenKey(k);
    assert h[..13] == "hidden_layer_";
    assert h[0] == 'h' && h[7] == 'l';
  }

  lemma HiddenKeysNotFixed(n: nat)
    ensures forall key :: key in HiddenKeys(n) ==> key !in FixedKeys()
  {
    forall key | key in HiddenKeys(n) ensures key !in FixedKeys() {
      var k :| 0 <= k < n && key == HiddenKey(k);
      HiddenKeyNotFixed(k);
    }
  }

  /** Hidden layer k's key is not the key of an earlier hidden layer. */
  lemma HiddenKeysDiffer(k: nat)
    ensures HiddenKey(k) !in HiddenKeys(k)
  {
    if HiddenKey(k) in HiddenKeys(k) {
      var j :| 0 <= j < k && HiddenKey(j) == HiddenKey(k);
      HiddenKeyInjective(j, k);
    }
  }

  /** Different hidden layers have different keys. */
  lemma HiddenKeyInjective(j: nat, k: nat)
    ensures HiddenKey(j) == HiddenKey(k) ==> j == k
  {
    var a, b := HiddenKey(j), HiddenKey(k);
    if a == b {
      assert a[13..|a| - 5] == NatToString(j + 1);
      assert b[13..|b| - 5] == NatToString(k + 1);
      NatToStringInjective(j + 1, k + 1);
    }
  }
}
