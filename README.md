# Neural-network playground: a verified model of its learning core

The playground is a browser application that trains three classifiers on
labelled 2-D point sets and charts their progress:

- a small feed-forward neural network trained online by back-propagation;
- a linear support vector machine trained by stochastic sub-gradient descent on
  the hinge loss;
- a k-nearest-neighbours classifier.

It also has an editor for the network's hidden layers and a training loop that
appends one loss and one accuracy entry per epoch to a history.

This project models that core in Dafny and proves what each operation computes.

| file | module | models |
|---|---|---|
| `activations.dfy` | `Activations` | the activation table and the derivative table, derivatives written through the activation's output |
| `data.dfy` | `Data` | samples, layer definitions, the random stream, the dot product, mean and fraction |
| `backprop.dfy` | `Backprop` | the network's mathematics as pure functions: forward trace, gradients, error signals, the update of one sample, one epoch as a fold |
| `network.dfy` | `NeuralNetworks` | the `Layer` and `NeuralNetwork` classes, updated in place, each method proved to compute the functions of `Backprop` |
| `svm.dfy` | `Svm` | the SVM class and the pure step and epoch functions it is proved to compute |
| `knn.dfy` | `Knn` | the distance, the stable sort, the first k, the vote and its tie-break, the KNN class |
| `app.dfy` | `Playground` | the layer editor, the building of the network from the editor's list, and the training history |

How the model represents what it cannot compute:

- Numbers are `real`.
- `Math.exp` and `Math.tanh` are functions the caller supplies (`Transcendentals`). The only thing assumed about `exp` is that its values are positive.
- `Math.random` is a caller-supplied stream `Noise` of values in [0, 1).
- The shuffle `sort(() => Math.random() - 0.5)` is a caller-supplied reordering `shuffled` with `multiset(shuffled) == multiset(data)`. Only "some permutation" is promised, because that comparator is not a uniform shuffle.
- The Euclidean distance is replaced by the squared distance. The square root is strictly increasing, so both give the same order and the same ties.

The SVM and network objects are classes whose methods update fields in place. Each method's
postcondition ties the new state to a pure function of the old state (for
example `Params() == Epoch(old(Params()), ...).params`). The properties that the
source promises are then proved about those functions.

## Model

| member | source | states |
|---|---|---|
| Activations.Logistic | services/neuralNetwork.ts:6 | the sigmoid 1/(1+e^-x) lies strictly between 0 and 1 for every x |
| Activations.Activate | services/neuralNetwork.ts:5-9 | relu is x for x >= 0 and 0 for x <= 0; sigmoid is in (0,1) and solves y*(1+e^-x) = 1; tanh is the supplied tanh |
| Activations.Derivative | services/neuralNetwork.ts:11-15 | relu's derivative is 1 exactly on positive outputs and 0 otherwise; sigmoid's is 1/4 - (y - 1/2)^2; tanh's is 1 - y^2 |
| Activations.SigmoidDerivativeFromOutput | services/neuralNetwork.ts:6-12 | y(1-y) at y = sigmoid(x) equals e^-x/(1+e^-x)^2, the true derivative of the sigmoid at x |
| Activations.SigmoidDerivativeBounds | services/neuralNetwork.ts:6-12 | the sigmoid derivative at any sigmoid output lies in (0, 1/4] |
| Activations.ReluDerivativeFromOutput | services/neuralNetwork.ts:7-13 | relu's derivative taken at relu's output is the step function of the input |
| Data.ReorderedKeepsDimensions | services/neuralNetwork.ts:74 | a reordering of the data has the same length and the same input dimension as the data |
| Data.DotPrefix | services/neuralNetwork.ts:38 | the weighted-sum fold reads only the first \|a\| entries of its second operand |
| Data.Dot | services/neuralNetwork.ts:38 | the weighted sum of a neuron's inputs, folded from the front; the same fold scores an SVM sample at services/svm.ts:28 and 48 (no contract: Data.DotPrefix states which weights it reads) |
| Data.Fraction | services/svm.ts:81-91 | count/n lies in [0,1], is 0 for n = 0, times n gives count, and is 1 only when count = n |
| Data.Mean | services/neuralNetwork.ts:112 | mean times n is the total, and the mean of a non-negative total is non-negative |
| Backprop.SameShapeKeepsWidths | services/neuralNetwork.ts:93-109 | networks of the same shape have the same layer widths, so well-shapedness and trainability carry over |
| Backprop.SameShapeTransitive | services/neuralNetwork.ts:93-109 | sameness of shape composes over successive updates |
| Backprop.LayerOutput | services/neuralNetwork.ts:37-40 | a layer yields one output per neuron |
| Backprop.LayerInput | services/neuralNetwork.ts:61-65 | the vector entering layer l has that layer's input width |
| Backprop.Trace | services/neuralNetwork.ts:78-81 | the forward pass has \|layers\|+1 vectors, each of the width its layer reads |
| Backprop.TraceStep | services/neuralNetwork.ts:78-81 | trace entry i+1 is layer i's output on trace entry i |
| Backprop.Output | services/neuralNetwork.ts:61-67 | the prediction, element 0 of the last forward vector, lies strictly between 0 and 1 behind a sigmoid output layer |
| Backprop.SampleError | services/neuralNetwork.ts:85 | the error of one sample is its label minus the network's output (no contract: Backprop.TallyStep and Data.Squared state what the epoch does with it) |
| Backprop.Gradients | services/neuralNetwork.ts:95 | one gradient per neuron: the error reaching it times the derivative at its output |
| Backprop.PartialError | services/neuralNetwork.ts:101 | the error for input k summed over the first j neurons, in neuron order (no contract: Backprop.NoGradientNoError and Backprop.ErrorsBack state its properties) |
| Backprop.NoGradientNoError | services/neuralNetwork.ts:95-101 | neurons whose gradient is zero send no error back to input k, whatever their weights |
| Backprop.ErrorsBack | services/neuralNetwork.ts:97-101 | the error handed back has one entry per input of the layer |
| Backprop.UpdatedRow | services/neuralNetwork.ts:103 | an updated weight row keeps its length |
| Backprop.UpdatedLayer | services/neuralNetwork.ts:98-107 | an updated layer keeps its activation, its neuron count and every row length |
| Backprop.UpdatedLayerFrom | services/neuralNetwork.ts:98-107 | rows and biases that each hold their neuron's update form exactly the updated layer |
| Backprop.Signal | services/neuralNetwork.ts:92-108 | the output layer receives [error] and every other layer gets one error entry per neuron |
| Backprop.Gradient | services/neuralNetwork.ts:95 | layer i gets one gradient per neuron |
| Backprop.Backward | services/neuralNetwork.ts:93-109 | back-propagation keeps the shape of every layer and keeps the network trainable |
| Backprop.SampleStep | services/neuralNetwork.ts:78-109 | training on one sample keeps the network's shape and trainability |
| Data.Squared | services/neuralNetwork.ts:86 | the squared error is non-negative |
| Backprop.Round | services/neuralNetwork.ts:87 | Math.round as floor(v + 1/2) (no contract: Backprop.RoundIsNearest states its bounds) |
| Backprop.RoundIsNearest | services/neuralNetwork.ts:87 | Math.round picks the integer within a half of v, the upper one at a tie |
| Backprop.TallyStep | services/neuralNetwork.ts:76-109 | one sample keeps the shape, never lowers the summed loss, and adds at most one correct prediction |
| Backprop.EpochFrom | services/neuralNetwork.ts:76-110 | continuing an epoch keeps the network trainable, never lowers the loss, and adds at most one hit per remaining sample |
| Backprop.Epoch | services/neuralNetwork.ts:69-110 | an epoch's loss is non-negative and its hit count is at most the number of samples |
| Backprop.EpochFromKeepsShape | services/neuralNetwork.ts:93-109 | continuing an epoch never changes any layer's dimensions or activation |
| Backprop.EpochKeepsShape | services/neuralNetwork.ts:69-115 | training for an epoch never changes any layer's dimensions or activation |
| Backprop.ChainedPrefix | services/neuralNetwork.ts:76-110 | appending tallies after a chain of per-sample tallies keeps it a chain |
| Backprop.ChainedExtend | services/neuralNetwork.ts:76-110 | the tally after sample k extends a chain of k samples to k+1 |
| Backprop.ChainedFrom | services/neuralNetwork.ts:76-110 | every tally of a chain continues the epoch begun at its first tally towards the same end |
| Backprop.ChainedEpoch | services/neuralNetwork.ts:76-110 | a chain over all samples ends in the tally of the whole epoch |
| NeuralNetworks.Layer.constructor | services/neuralNetwork.ts:26-33 | outputSize rows of inputSize weights and outputSize biases, each 2r-1 for successive draws r of the random stream, hence in [-1, 1); empty caches |
| NeuralNetworks.Layer.Forward | services/neuralNetwork.ts:35-42 | each output is the activation of the weighted input sum plus bias; the input and the outputs are cached; weights and biases are untouched |
| NeuralNetworks.Layer.Backpropagate | services/neuralNetwork.ts:93-108 | the error handed back is computed from the weights before their update, and the layer becomes its updated layer |
| NeuralNetworks.UpdateLayer | services/neuralNetwork.ts:97-107 | the neuron loop yields the updated layer and the error for the previous layer from the old weights |
| NeuralNetworks.UpdateNeuron | services/neuralNetwork.ts:99-104 | each weight is first added (times the gradient) to the back error, then moved by lr*g*input |
| NeuralNetworks.NewLayer | services/neuralNetwork.ts:55 | a fresh layer of the definition's neuron count and activation, with empty caches and weights in [-1, 1) |
| NeuralNetworks.BuildLayers | services/neuralNetwork.ts:52-58 | one distinct fresh layer per definition, in order, each reading the previous layer's neuron count |
| NeuralNetworks.FanIn | services/neuralNetwork.ts:52-57 | layer i reads the network's input width when i = 0 and the previous definition's neuron count otherwise (no contract: NeuralNetworks.BuildLayers and NeuralNetworks.NeuralNetwork.constructor state the shapes it yields) |
| NeuralNetworks.NeuralNetwork.ParamsFrom | services/neuralNetwork.ts:46 | the parameters of layers k onward, one per layer |
| NeuralNetworks.NeuralNetwork.Params | services/neuralNetwork.ts:46 | the parameters of every layer, in order |
| NeuralNetworks.NeuralNetwork.constructor | services/neuralNetwork.ts:49-59 | one fresh layer per definition with that definition's activation and shape, chained through the neuron counts, and a well-shaped network |
| NeuralNetworks.NeuralNetwork.ForwardStep | services/neuralNetwork.ts:64 | layer l reads trace entry l, caches it, and yields entry l+1; the other layers are untouched |
| NeuralNetworks.NeuralNetwork.ForwardPass | services/neuralNetwork.ts:62-65 | the result is the network's forward output; the parameters are unchanged and every cache holds its trace entry |
| NeuralNetworks.NeuralNetwork.Predict | services/neuralNetwork.ts:61-67 | returns element 0 of the output of the forward pass, and the weights are unchanged |
| NeuralNetworks.NeuralNetwork.BackStep | services/neuralNetwork.ts:94-108 | layer i becomes its updated layer, the others are untouched, and the signal for layer i-1 is handed back |
| NeuralNetworks.NeuralNetwork.BackwardPass | services/neuralNetwork.ts:92-109 | from output to input each layer is updated with gradients from the weights above it before their update; the result is Backward |
| NeuralNetworks.NeuralNetwork.TrainSample | services/neuralNetwork.ts:78-109 | the network becomes SampleStep of itself; the loss is the squared error and the hit is whether the rounded output equals the label |
| NeuralNetworks.NeuralNetwork.EpochStep | services/neuralNetwork.ts:76-109 | running totals and network advance by exactly one TallyStep |
| NeuralNetworks.NeuralNetwork.TrainEpoch | services/neuralNetwork.ts:69-115 | the network becomes Epoch over the shuffled data; it returns the mean squared error (>= 0) and the fraction of hits (in [0,1]); the shape is unchanged |
| NeuralNetworks.NeuralNetwork.GetState | services/neuralNetwork.ts:117-125 | one entry per layer: its cached outputs as neuron activations, its weights and its biases |
| Svm.Decision | services/svm.ts:28 | the score reads only the weights at the inputs' own positions, plus the bias |
| Svm.Predicted | services/svm.ts:26-30 | the class is 1 exactly when the input has no more coordinates than there are weights and the score is non-negative, else 0 |
| Svm.Target | services/svm.ts:46 | label 1 maps to +1 and every other label to -1 |
| Svm.Hinge | services/svm.ts:55 | the loss is max(0, 1 - t*d): non-negative, 0 exactly when t*d >= 1 |
| Svm.Initialized | services/svm.ts:16-20 | existing weights are kept; otherwise inputSize weights in [0, 0.01) |
| Svm.InitializedBy | services/svm.ts:81-92 | predicting a run of points keeps existing weights; the weights stay as they are when no point has more coordinates than them |
| Svm.StepWeight | services/svm.ts:58-68 | one weight's step: on a loss w + lr*(C*t*x_i - w/n), otherwise w - lr*w/n (no contract: Svm.WeightUpdate and Svm.NoLossOnlyDecays state its properties) |
| Svm.StepBias | services/svm.ts:63 | the bias moves by lr*C*t on a loss and is kept otherwise (no contract: Svm.NoLossOnlyDecays states that it is kept without a loss) |
| Svm.StepWeights | services/svm.ts:58-69 | every weight gets its own step, and the length is kept |
| Svm.SampleUpdate | services/svm.ts:54-69 | one sample step keeps the number of weights |
| Svm.EpochFrom | services/svm.ts:44-70 | continuing an epoch keeps the weight count and never lowers the summed loss |
| Svm.Epoch | services/svm.ts:35-70 | an epoch keeps the weight count and has a non-negative summed loss |
| Svm.Hits | services/svm.ts:85-90 | at most one hit per point, for points of any dimension |
| Svm.HitsOnEmptyInputs | services/svm.ts:28-29 | points without coordinates are scored by the bias alone, so their hits do not depend on the weights |
| Svm.Accuracy | services/svm.ts:81-92 | accuracy lies in [0, 1] |
| Svm.NoLossIsCorrect | services/svm.ts:50-58 | a sample with no hinge loss is strictly on its side of the boundary and predicted correctly |
| Svm.WrongSideHasLoss | services/svm.ts:50-55 | a sample on the wrong side, or exactly on the boundary, has loss at least 1 |
| Svm.NoLossOnlyDecays | services/svm.ts:64-68 | with no loss the weights only shrink by the factor 1 - lr/n and the bias is kept |
| Svm.WeightUpdate | services/svm.ts:61-67 | both branches of the weight update are decay by 1 - lr/n plus the pull times x_i |
| Svm.AllHits | services/svm.ts:85-91 | the hit count equals the number of points exactly when every point is predicted correctly |
| Svm.SVM.constructor | services/svm.ts:9-14 | stores the learning rate and C, with no weights and zero bias |
| Svm.SVM.InitializeWeights | services/svm.ts:16-20 | weights are drawn only when there are none; the bias is untouched |
| Svm.SVM.Predict | services/svm.ts:26-30 | creates the weights if needed, then returns the class of the current model; an input longer than the weights is class 0 |
| Svm.SVM.ApplyStep | services/svm.ts:58-69 | the weight loop and bias update compute StepWeights and StepBias, on the loss branch and on the regularisation-only branch |
| Svm.SVM.GetAccuracy | services/svm.ts:81-92 | 0 on no data; otherwise the fraction of points predicted correctly; the weights become InitializedBy of the points, so the first point with coordinates creates them when there are none |
| Svm.SVM.TrainEpoch | services/svm.ts:35-76 | no data: zeros and nothing changes; otherwise the model becomes Epoch over the shuffled data, and the result is the mean hinge loss and the accuracy on the whole data afterwards |
| Knn.SquaredDistance | services/knn.ts:7-9 | the summed squared coordinate differences are non-negative |
| Knn.SquaredZero | services/knn.ts:8 | a squared difference is 0 exactly when the coordinates agree |
| Knn.DistanceZero | services/knn.ts:7-9 | the distance is 0 exactly when the point starts with the query's coordinates |
| Knn.Distances | services/knn.ts:35-38 | one distance per stored point, in data order |
| Knn.Insert | services/knn.ts:41 | insertion adds exactly the one position to the sequence |
| Knn.InsertOrdered | services/knn.ts:41 | inserting a new position into a sorted ranking keeps it sorted |
| Knn.Sort | services/knn.ts:41 | the sort is a permutation of its input |
| Knn.SortOrdered | services/knn.ts:41 | the sort of distinct positions is ordered nearest first, ties by data order (stable) |
| Knn.Ranked | services/knn.ts:41 | every position exactly once, nearest first, ties in data order |
| Knn.RankedHasAll | services/knn.ts:41 | every stored point appears in the ranking |
| Knn.Nearest | services/knn.ts:41-42 | min(k, n) positions, sorted, and every point left out is farther, or as far and later in the data |
| Knn.Count | services/knn.ts:45-48 | a label's vote count is positive exactly when some neighbour carries it |
| Knn.Votes | services/knn.ts:45-48 | the vote table has exactly the neighbours' labels as keys, each mapped to its count |
| Knn.KeysBelow | services/knn.ts:51 | the vote-table keys listed once each in ascending order, as Object.entries lists integer keys |
| Knn.Leader | services/knn.ts:51-54 | the head of the entries after the descending stable sort by votes is one of the keys |
| Knn.LeaderIsFirstMost | services/knn.ts:51-54 | no key has more votes than the head, and no earlier key has as many |
| Knn.Winner | services/knn.ts:51-54 | the returned label is one of the neighbours' labels |
| Knn.WinnerIsMostVoted | services/knn.ts:45-54 | the returned label is among the neighbours' labels, has the most votes, and is the smallest among ties |
| Knn.LabelsAt | services/knn.ts:35-42 | one label per chosen neighbour |
| Knn.Classify | services/knn.ts:29-55 | 0 with no stored points, otherwise the Winner of the labels of the Nearest positions (no contract: Knn.ClassifyVotes and Knn.FirstExactMatch state its properties) |
| Knn.ClassifyVotes | services/knn.ts:29-55 | with stored points, the prediction is a label of one of the k nearest, with the most votes among them, the smallest among ties |
| Knn.NearestAtZero | services/knn.ts:41-42 | with k = 1, the only neighbour is the first point at distance 0 |
| Knn.FirstExactMatch | services/knn.ts:29-55 | with k = 1, a query equal to a stored point gets the label of the first such point |
| Knn.Hits | services/knn.ts:64-69 | at most one hit per test point |
| Knn.AllHits | services/knn.ts:60-71 | the hit count equals the number of test points exactly when every test point is predicted correctly |
| Knn.FullHitsAllCorrect | services/knn.ts:64-69 | a full hit count means every test point was predicted correctly |
| Knn.AllCorrectFullHits | services/knn.ts:64-69 | when every test point is predicted correctly the hit count is the number of test points |
| Knn.KNN.constructor | services/knn.ts:15-17 | k becomes max(1, k), and nothing is stored |
| Knn.KNN.Fit | services/knn.ts:22-24 | the data is stored, and nothing else changes |
| Knn.KNN.Predict | services/knn.ts:29-55 | 0 with no stored points; otherwise a label of one of the k nearest stored points with the most votes among them |
| Knn.KNN.GetAccuracy | services/knn.ts:60-71 | 0 on no data; otherwise the fraction of test points whose prediction equals their label |
| Playground.AddLayer | App.tsx:131-135 | below MaxLayers a {4, relu} layer is appended after the unchanged list; at MaxLayers the list is unchanged; never more than MaxLayers |
| Playground.Without | App.tsx:139 | the filter never lengthens the list |
| Playground.WithoutSplices | App.tsx:139 | filtering out an index in range removes exactly that entry, keeping the order; any other index removes nothing |
| Playground.RemoveLayer | App.tsx:137-141 | with more than one layer, exactly the entry at the index is removed; otherwise the list is unchanged |
| Playground.Clamp | App.tsx:146 | the count lies in [1, 10], equals the value when that is in range, and saturates at the nearer bound |
| Playground.ChangeLayer | App.tsx:143-152 | a neuron edit sets that layer's count to the clamped value; an activation edit sets only its activation; every other layer is unchanged |
| Playground.EditsKeepEditable | App.tsx:22-25 | the starting list has 1 to 5 layers of 1 to 10 neurons, and add, remove and edit keep that |
| Playground.NetworkLayers | App.tsx:65 | the hidden layers, unchanged, followed by exactly one {1, sigmoid} layer |
| Playground.InputSize | App.tsx:64 | the first point's input length, or 2 when there is no point or its input is empty |
| Playground.BuildNetwork | App.tsx:63-66 | a newly allocated valid network, its layers new as well, of one layer per hidden definition plus the sigmoid output, over InputSize inputs, which is trainable |
| Playground.StartNetworkTraining | App.tsx:59-67 | a reset followed by building the network and one training step: a new valid network over InputSize inputs, epoch 1, a consistent history whose first loss is non-negative and whose first accuracy lies in [0, 1] |
| Playground.StepTagged | App.tsx:103-108 | a network or SVM step adds one epoch and appends exactly one loss and one accuracy entry, both tagged tag + 1; a KNN step changes nothing |
| Playground.TrainStep | App.tsx:103-108 | the corrected step: on a network or SVM result the epoch advances and one loss and one accuracy entry are appended, tagged with the new epoch (no contract: Playground.StepTagged and Playground.TrainStepKeepsConsistent state its properties) |
| Playground.NetworkTrainStep | App.tsx:96-108 | one network epoch over a reordering of the data: the network becomes Epoch of its old parameters, the session becomes TrainStep with the epoch's mean loss and accuracy, and a consistent session stays consistent |
| Playground.RunAsWritten | App.tsx:91-112 | the loop as written: n network or SVM steps add n epochs, keep the earlier entries and append n loss and n accuracy entries, every one tagged with the epoch at the start plus one; KNN steps change nothing |
| Playground.Run | App.tsx:103-108 | n network or SVM steps add n epochs; KNN steps change nothing |
| Playground.TrainStepKeepsConsistent | App.tsx:59-61 | the reset session (epoch 0, empty histories) is consistent, and a step tagged with the current epoch keeps the entries tagged 1..epoch |
| Playground.RunConsistent | App.tsx:103-108 | after any run from a reset, entry i of both histories is tagged i + 1, one per epoch |
| Playground.StaleRunInconsistent | App.tsx:104-111 | as written, any run of two or more network or SVM epochs after a reset tags every entry 1, so its history is inconsistent |
| Playground.StaleTags | App.tsx:104-111 | as written, two network epochs after a reset are both tagged 1 while the counter reaches 2; the corrected step tags them 1 and 2 |

## Left out

- Floating point: numbers are reals. Rounding, overflow, NaN and Infinity are not modelled.
- Inputs whose dimension differs from the model's are excluded by preconditions, except where the source's result is still a plain number. Case by case:
- KNN requires every stored point to have at least as many coordinates as the query. With a shorter stored point the source's distance reads a missing coordinate and is NaN, and the sort's order is then unspecified. Longer stored points are modelled: only the query's coordinates are read.
- SVM prediction and accuracy take points of any dimension. A point with more coordinates than weights scores NaN in the source, and NaN >= 0 is false, so it is class 0; the model says exactly that.
- Svm.SVM.TrainEpoch: requires every point to have exactly as many coordinates as the weights. In the source, a longer point makes the score and the loss NaN. A shorter point with a positive loss reads a missing coordinate and makes the weights NaN. A shorter point with zero loss reads no coordinate on the update and would work; the model excludes it too.
- NeuralNetworks.NeuralNetwork.Predict: requires inputs of exactly the input dimension. In the source, longer inputs work: each neuron's sum reads only its own weights' positions. Training on longer inputs would grow the first layer's weight rows with NaN entries. No caller in the playground passes longer inputs.
- NeuralNetworks.NeuralNetwork.TrainEpoch: requires a network whose last layer has exactly one neuron (`Trainable`). In the source, a wider output layer reads missing entries of the error vector, which makes its gradients NaN. The playground always builds a single sigmoid output neuron, as Playground.BuildNetwork proves.
- NeuralNetworks.NeuralNetwork.TrainEpoch: requires non-empty data. On empty data the source divides 0 by 0 and returns NaN.
- The playground passes `parseInt` of the field to the neuron edit; the NaN it gives for an empty field is not modelled, so the value is an integer.
- `Math.exp` and `Math.tanh` are caller-supplied functions. Only the positivity of exp is assumed.
- `Math.sqrt` is dropped from the KNN distance, which is squared. The square root keeps the order and the ties, so the neighbours and the prediction are the same.
- Randomness:
  - initial weights come from a caller-supplied stream;
  - the shuffle is a caller-supplied reordering of the data;
  - the model does not claim the shuffle is uniform.
- KNN's stable sort is modelled as an insertion sort of positions. It is proved to be a permutation ordered by distance, with ties in data order, which is what a stable sort produces.
- KNN labels are natural numbers. Object.entries lists integer-like keys in ascending order, and that order is modelled by `KeysBelow`. Labels that are not integers are not modelled.
- Svm.SVM.TrainEpoch: the per-sample `correctPredictions` counter is not modelled. The source never reads it: the reported accuracy is recomputed on the whole data set afterwards.
- NeuralNetworks.NeuralNetwork.GetState: returns the state as a value. In the source, the returned weights and biases are the layers' own arrays, so later training changes a snapshot already taken. A value model cannot show that aliasing.
- NeuralNetworks.NeuralNetwork.TrainEpoch: does not state which forward trace the layer caches hold after the epoch. Only the weights and biases are specified.
- The React state machinery is not modelled: hooks, `useCallback` dependencies, the animation frame scheduling and its cancellation, rendering, the AI panel, and dataset generation. The training history is modelled as a value passed from step to step. The performance a step appends is a parameter, not a call to a trained model.
- `initializeModel`'s KNN and SVM branches only call constructors, `fit` and `getAccuracy`, which are modelled in their classes. Only the network branch and the reset of epoch and history have their own members.

## Findings

| source | as written | input that shows it | evidently intended | confidence | as-written member | corrected member |
|---|---|---|---|---|---|---|
| App.tsx:104-111 | `trainStep` tags both new history entries with `epoch + 1`. `epoch` is the value captured when this closure was created, and the closure re-schedules itself with `requestAnimationFrame(trainStep)`. So every epoch of a training run reads the same stale counter, while `setEpoch(prev => prev + 1)` keeps advancing the real one. | Reset, then two network epochs: the counter reaches 2, but both loss entries are tagged 1. | The entry of the n-th epoch after a reset is tagged n, in both histories. | medium: follows from the closure semantics of the code; not executed | Playground.StaleTags | Playground.RunConsistent |
