/**
 * The playground's own rules: the editor of the hidden-layer list, the network
 * it builds from that list, and the training history that every epoch extends.
 * The editor and the history are pure: each edit or step builds a new value
 * from the old one.
 */
module Playground {
  import opened Activations
  import opened Data
  import opened Backprop
  import opened NeuralNetworks

  // ------------------------------------------------------------ layer editor

  const MaxLayers: nat := 5
  const MinNeurons: nat := 1
  const MaxNeurons: nat := 10

  /** The hidden layers the playground starts with. */
  const InitialLayers: seq<LayerDefinition> := [LayerDefinition(4, Relu), LayerDefinition(2, Relu)]

  /** The layer added by the editor. */
  const NewLayerDefinition: LayerDefinition := LayerDefinition(4, Relu)

  /** A list the editor can reach: 1 to MaxLayers layers, each of MinNeurons to MaxNeurons neurons. */
  predicate Editable(layers: seq<LayerDefinition>) {
    && 1 <= |layers| <= MaxLayers
    && forall i | 0 <= i < |layers| :: MinNeurons <= layers[i].neurons <= MaxNeurons
  }

  /** Adding a layer appends a 4-neuron ReLU layer, unless the list already has MaxLayers layers. */
  function AddLayer(layers: seq<LayerDefinition>): (r: seq<LayerDefinition>)
    ensures |layers| < MaxLayers ==> |r| == |layers| + 1 && r[|layers|] == NewLayerDefinition
    ensures |layers| >= MaxLayers ==> r == layers
    ensures |r| <= MaxLayers || r == layers
    ensures r[..|layers|] == layers
  {
    if |layers| < MaxLayers then layers + [NewLayerDefinition] else layers
  }

  /** The entries of `layers` at every position but `index`, in order (the list's `filter`). */
  function Without(layers: seq<LayerDefinition>, index: int): (r: seq<LayerDefinition>)
    ensures |r| <= |layers|
  {
    if |layers| == 0 then []
    else
      var last := |layers| - 1;
      Without(layers[..last], index) + if last != index then [layers[last]] else []
  }

  /** Dropping an index in range splices that one entry out; any other index drops nothing. */
  lemma {:induction false} WithoutSplices(layers: seq<LayerDefinition>, index: int)
    ensures 0 <= index < |layers| ==> Without(layers, index) == layers[..index] + layers[index + 1..]
    ensures !(0 <= index < |layers|) ==> Without(layers, index) == layers
  {
    if |layers| > 0 {
      var last := |layers| - 1;
      WithoutSplices(layers[..last], index);
      if index == last {
        assert layers[index + 1..] == [];
      } else if 0 <= index < last {
        assert layers[..last][..index] == layers[..index];
        assert layers[index + 1..] == layers[..last][index + 1..] + [layers[last]];
      } else {
        assert layers == layers[..last] + [layers[last]];
      }
    }
  }

  /** Removing deletes exactly the entry at `index`, and only while more than one layer is left. */
  function RemoveLayer(layers: seq<LayerDefinition>, index: int): (r: seq<LayerDefinition>)
    ensures |layers| > 1 && 0 <= index < |layers| ==> r == layers[..index] + layers[index + 1..]
    ensures !(|layers| > 1 && 0 <= index < |layers|) ==> r == layers
  {
    WithoutSplices(layers, index);
    if |layers| > 1 then Without(layers, index) else layers
  }

  /** The neuron count an edit asks for, clamped to [MinNeurons, MaxNeurons]. */
  function Clamp(value: int): (n: nat)
    ensures MinNeurons <= n <= MaxNeurons
    ensures MinNeurons <= value <= MaxNeurons ==> n == value
    ensures value < MinNeurons ==> n == MinNeurons
    ensures value > MaxNeurons ==> n == MaxNeurons
  {
    if value < MinNeurons then MinNeurons else if value > MaxNeurons then MaxNeurons else value
  }

  /** A change to one field of one layer: its neuron count, or its activation. */
  datatype Edit = SetNeurons(value: int) | SetActivation(kind: Activation)

  /** The list with the layer at `index` edited; no other layer and no other field changes. */
  function ChangeLayer(layers: seq<LayerDefinition>, index: nat, edit: Edit): (r: seq<LayerDefinition>)
    requires index < |layers|
    ensures |r| == |layers|
    ensures forall i | 0 <= i < |layers| && i != index :: r[i] == layers[i]
    ensures edit.SetNeurons? ==>
              r[index].neurons == Clamp(edit.value) && r[index].activation == layers[index].activation
    ensures edit.SetActivation? ==>
              r[index].activation == edit.kind && r[index].neurons == layers[index].neurons
  {
    match edit
    case SetNeurons(value) => layers[index := layers[index].(neurons := Clamp(value))]
    case SetActivation(kind) => layers[index := layers[index].(activation := kind)]
  }

  /** The starting list can be edited, and every edit keeps a list editable. */
  lemma EditsKeepEditable(layers: seq<LayerDefinition>, index: int, edit: Edit)
    requires Editable(layers)
    ensures Editable(InitialLayers)
    ensures Editable(AddLayer(layers))
    ensures Editable(RemoveLayer(layers, index))
    ensures 0 <= index < |layers| ==> Editable(ChangeLayer(layers, index, edit))
  {
    var r := RemoveLayer(layers, index);
    if |layers| > 1 && 0 <= index < |layers| {
      forall i | 0 <= i < |r| ensures MinNeurons <= r[i].neurons <= MaxNeurons {
        if i < index {
          assert r[i] == layers[i];
        } else {
          assert r[i] == layers[i + 1];
        }
      }
    }
  }

  // -------------------------------------------------------- building the network

  /** The definitions the network is built from: the hidden layers, then one sigmoid output neuron. */
  function NetworkLayers(hidden: seq<LayerDefinition>): (defs: seq<LayerDefinition>)
    ensures |defs| == |hidden| + 1
    ensures defs[..|hidden|] == hidden
    ensures defs[|hidden|] == LayerDefinition(1, Sigmoid)
  {
    hidden + [LayerDefinition(1, Sigmoid)]
  }

  /** The input dimension: that of the first point, or 2 when there is no point or it has no inputs. */
  function InputSize(data: seq<DataPoint>): (n: nat)
    ensures n >= 1
    ensures |data| > 0 && |data[0].inputs| > 0 ==> n == |data[0].inputs|
    ensures |data| == 0 ==> n == 2
    ensures |data| > 0 && |data[0].inputs| == 0 ==> n == 2
  {
    if |data| > 0 && |data[0].inputs| > 0 then |data[0].inputs| else 2
  }

  /**
   * The network for the current layer list: one layer per hidden definition and
   * a single sigmoid output; its last layer has one neuron, so it can be trained.
   */
  method BuildNetwork(hidden: seq<LayerDefinition>, data: seq<DataPoint>, learningRate: real,
                      math: Transcendentals, noise: Noise) returns (nn: NeuralNetwork)
    ensures nn.Valid() && nn.inputSize == InputSize(data) && nn.learningRate == learningRate
    ensures |nn.layers| == |hidden| + 1
    ensures forall i | 0 <= i < |hidden| ::
              nn.Params()[i].activation == hidden[i].activation && |nn.Params()[i].weights| == hidden[i].neurons
    ensures nn.Params()[|hidden|].activation == Sigmoid
    ensures Trainable(nn.Params(), nn.inputSize)
    ensures fresh(nn) && fresh(nn.Repr)
  {
    var defs := NetworkLayers(hidden);
    nn := new NeuralNetwork(InputSize(data), defs, learningRate, math, noise);
    assert nn.layers[|hidden|].Shaped(1, FanIn(defs, InputSize(data), |hidden|));
    forall i | 0 <= i < |hidden|
      ensures nn.Params()[i].activation == hidden[i].activation && |nn.Params()[i].weights| == hidden[i].neurons
    {
      assert defs[i] == hidden[i];
      assert nn.layers[i].Shaped(defs[i].neurons, FanIn(defs, InputSize(data), i));
    }
  }

  // -------------------------------------------------------- training history

  /** One point of a chart: the epoch it is tagged with, and the value. */
  datatype Entry = Entry(epoch: nat, value: real)

  datatype History = History(loss: seq<Entry>, accuracy: seq<Entry>)

  /** What one epoch of training reports. */
  datatype Performance = Performance(averageLoss: real, accuracy: real)

  datatype Algorithm = NeuralNetworkAlgorithm | KnnAlgorithm | SvmAlgorithm

  /** The epoch counter and the history the charts draw. */
  datatype Session = Session(epoch: nat, history: History)

  /** The state a reset leaves: epoch 0 and no history. */
  const Reset: Session := Session(0, History([], []))

  /**
   * The entries are the epochs 1 to `epoch`, in order, one loss and one
   * accuracy entry each.
   */
  predicate Consistent(s: Session) {
    && |s.history.loss| == s.epoch && |s.history.accuracy| == s.epoch
    && (forall i | 0 <= i < s.epoch :: s.history.loss[i].epoch == i + 1)
    && (forall i | 0 <= i < s.epoch :: s.history.accuracy[i].epoch == i + 1)
  }

  /**
   * One training step whose history entries are tagged `tag + 1`, where `tag` is
   * the epoch counter as the step reads it. A network or SVM step counts one more
   * epoch and appends one loss and one accuracy entry; a KNN step reports nothing.
   */
  function StepTagged(s: Session, tag: nat, algorithm: Algorithm, performance: Performance): (r: Session)
    ensures algorithm == KnnAlgorithm ==> r == s
    ensures algorithm != KnnAlgorithm ==>
              && r.epoch == s.epoch + 1
              && r.history.loss == s.history.loss + [Entry(tag + 1, performance.averageLoss)]
              && r.history.accuracy == s.history.accuracy + [Entry(tag + 1, performance.accuracy)]
  {
    if algorithm == KnnAlgorithm then s
    else
      Session(s.epoch + 1, History(s.history.loss + [Entry(tag + 1, performance.averageLoss)],
                                   s.history.accuracy + [Entry(tag + 1, performance.accuracy)]))
  }

  /**
   * A run of the animation loop as written: the loop calls the same step again
   * and again, and that step reads the epoch counter as it was when the loop started.
   */
  function RunAsWritten(s: Session, tag: nat, algorithm: Algorithm, reports: seq<Performance>): (r: Session)
    ensures algorithm == KnnAlgorithm ==> r == s
    ensures algorithm != KnnAlgorithm ==> r.epoch == s.epoch + |reports|
    ensures algorithm != KnnAlgorithm ==> |r.history.loss| == |s.history.loss| + |reports|
    ensures algorithm != KnnAlgorithm ==> |r.history.accuracy| == |s.history.accuracy| + |reports|
    ensures algorithm != KnnAlgorithm ==> r.history.loss[..|s.history.loss|] == s.history.loss
    ensures algorithm != KnnAlgorithm ==> r.history.accuracy[..|s.history.accuracy|] == s.history.accuracy
    ensures algorithm != KnnAlgorithm ==>
              forall i | |s.history.loss| <= i < |r.history.loss| :: r.history.loss[i].epoch == tag + 1
    ensures algorithm != KnnAlgorithm ==>
              forall i | |s.history.accuracy| <= i < |r.history.accuracy| :: r.history.accuracy[i].epoch == tag + 1
  {
    if |reports| == 0 then s
    else
      var n := |reports| - 1;
      StepTagged(RunAsWritten(s, tag, algorithm, reports[..n]), tag, algorithm, reports[n])
  }

  /** A training step tagged with the current epoch counter plus one. */
  function TrainStep(s: Session, algorithm: Algorithm, performance: Performance): (r: Session)
  {
    StepTagged(s, s.epoch, algorithm, performance)
  }

  /** A run of the loop where every step reads the current epoch counter. */
  function Run(s: Session, algorithm: Algorithm, reports: seq<Performance>): (r: Session)
    ensures algorithm != KnnAlgorithm ==> r.epoch == s.epoch + |reports|
    ensures algorithm == KnnAlgorithm ==> r == s
  {
    if |reports| == 0 then s
    else
      var n := |reports| - 1;
      TrainStep(Run(s, algorithm, reports[..n]), algorithm, reports[n])
  }

  /** A reset session is consistent, and each step keeps a session consistent. */
  lemma TrainStepKeepsConsistent(s: Session, algorithm: Algorithm, performance: Performance)
    requires Consistent(s)
    ensures Consistent(Reset)
    ensures Consistent(TrainStep(s, algorithm, performance))
  {
    var r := TrainStep(s, algorithm, performance);
    if algorithm != KnnAlgorithm {
      forall i | 0 <= i < r.epoch ensures r.history.loss[i].epoch == i + 1 && r.history.accuracy[i].epoch == i + 1 {
        if i < s.epoch {
          assert r.history.loss[i] == s.history.loss[i];
          assert r.history.accuracy[i] == s.history.accuracy[i];
        }
      }
    }
  }

  /** After any run from a reset, the entries are tagged 1, 2, ..., one per epoch. */
  lemma {:induction false} RunConsistent(algorithm: Algorithm, reports: seq<Performance>)
    ensures Consistent(Run(Reset, algorithm, reports))
  {
    if |reports| > 0 {
      var n := |reports| - 1;
      RunConsistent(algorithm, reports[..n]);
      TrainStepKeepsConsistent(Run(Reset, algorithm, reports[..n]), algorithm, reports[n]);
    }
  }

  /**
   * The network branch of one training step: the network trains one epoch on
   * the data (in the order `shuffled`), and the session records the epoch's
   * mean loss and accuracy, tagged with the next epoch number.
   */
  method NetworkTrainStep(nn: NeuralNetwork, data: seq<DataPoint>, shuffled: seq<DataPoint>, s: Session)
    returns (s': Session)
    requires nn.Valid() && Trainable(nn.Params(), nn.inputSize)
    requires |data| > 0 && multiset(shuffled) == multiset(data) && Dimensioned(data, nn.inputSize)
    modifies nn.Repr
    ensures nn.Valid() && Trainable(nn.Params(), nn.inputSize)
    ensures (ReorderedKeepsDimensions(data, shuffled, nn.inputSize);
             var r := Epoch(old(nn.Params()), nn.inputSize, shuffled, nn.learningRate, nn.math);
             && nn.Params() == r.params
             && s' == TrainStep(s, NeuralNetworkAlgorithm, Performance(Mean(r.loss, |data|), Fraction(r.correct, |data|))))
    ensures Consistent(s) ==> Consistent(s')
  {
    ghost var before := nn.Params();
    var averageLoss, accuracy := nn.TrainEpoch(data, shuffled);
    SameShapeKeepsWidths(before, nn.Params(), nn.inputSize);
    s' := TrainStep(s, NeuralNetworkAlgorithm, Performance(averageLoss, accuracy));
    if Consistent(s) {
      TrainStepKeepsConsistent(s, NeuralNetworkAlgorithm, Performance(averageLoss, accuracy));
    }
  }

  /**
   * Choosing the network: the model is rebuilt from the layer list, the epoch
   * counter and the history are reset, and the first training step runs.
   */
  method StartNetworkTraining(hidden: seq<LayerDefinition>, data: seq<DataPoint>, shuffled: seq<DataPoint>,
                              learningRate: real, math: Transcendentals, noise: Noise)
    returns (nn: NeuralNetwork, s: Session)
    requires |data| > 0 && multiset(shuffled) == multiset(data) && Dimensioned(data, InputSize(data))
    ensures fresh(nn) && nn.Valid() && nn.inputSize == InputSize(data)
    ensures s.epoch == 1 && Consistent(s)
    ensures s.history.loss[0].value >= 0.0 && 0.0 <= s.history.accuracy[0].value <= 1.0
  {
    nn := BuildNetwork(hidden, data, learningRate, math, noise);
    s := NetworkTrainStep(nn, data, shuffled, Reset);
  }

  /**
   * As written, any run of two or more network or SVM epochs after a reset
   * tags every entry 1, so its history is never consistent.
   */
  lemma StaleRunInconsistent(algorithm: Algorithm, reports: seq<Performance>)
    requires algorithm != KnnAlgorithm && |reports| >= 2
    ensures var r := RunAsWritten(Reset, Reset.epoch, algorithm, reports);
            && (forall i | 0 <= i < |r.history.loss| :: r.history.loss[i].epoch == 1)
            && !Consistent(r)
  {
    var r := RunAsWritten(Reset, Reset.epoch, algorithm, reports);
    assert r.history.loss[1].epoch != 1 + 1;
  }

  /**
   * As written, two network epochs after a reset are both charted at epoch 1,
   * although the counter reaches 2.
   */
  lemma StaleTags(p: Performance, q: Performance)
    ensures var r := RunAsWritten(Reset, Reset.epoch, NeuralNetworkAlgorithm, [p, q]);
            r.epoch == 2 && r.history.loss[0].epoch == 1 && r.history.loss[1].epoch == 1 && !Consistent(r)
    ensures var r := Run(Reset, NeuralNetworkAlgorithm, [p, q]);
            r.history.loss[0].epoch == 1 && r.history.loss[1].epoch == 2
  {
    assert [p, q][..1] == [p];
    assert [p][..0] == [];
    var r := RunAsWritten(Reset, Reset.epoch, NeuralNetworkAlgorithm, [p, q]);
    assert r.history.loss[1].epoch != 1 + 1;
    assert Run(Reset, NeuralNetworkAlgorithm, []) == Reset;
    var first := Run(Reset, NeuralNetworkAlgorithm, [p]);
    assert first == TrainStep(Reset, NeuralNetworkAlgorithm, p);
    assert Run(Reset, NeuralNetworkAlgorithm, [p, q]) == TrainStep(first, NeuralNetworkAlgorithm, q);
  }
}
