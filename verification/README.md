# A verified model of a small feedforward neural network

This project models, in Dafny, the core of a Java feedforward neural network.

- **Neuron:** a weight vector, a bias and a value, changed through setters.
- **Layer:** a queue of neurons, an activation function and the gradient samples recorded for it. It does three things:
  - it activates the next layer;
  - it records weight and bias samples;
  - it averages them into one gradient-descent step with L2 shrinkage.
- **Network:**
  - at least two layers and a cost function;
  - the forward pass, which rotates the layer queue one full turn;
  - the backward pass, which walks a stack of layers from the output back to the input and records samples without touching a parameter;
  - the batched update;
  - a plain-text save format and its reader.
- **Helpers:** the linear-algebra helpers, the ReLU, leaky ReLU and sigmoid activations, the quadratic cost, and two small pieces of the driver:
  - the choice of the output profile closest to a network's output;
  - the pixel-to-intensity arithmetic.

Doubles are modelled as exact `real`s. What is proved is structure and bookkeeping:
- **Forward pass:** a pulse computes, layer by layer, the pure function `Pulsed`.
- **Backward pass:** `learnFrom` records exactly the chain-rule samples given by `BiasRecords` and `WeightRecords`.
- **Update:** `updateLayers` applies exactly the averaged update `Updated`.
- **Training loop:** a network built by the constructor is `Trainable` exactly when no layer below the output is empty. A network read from a file is `Trainable` exactly when its layers are `Learnable`, and a `Trainable` network that is saved and read back is `Trainable` again. One pass of the loop (pulseWithInput, learnFrom and, every batchSize passes, updateLayers) can always be made on a `Trainable` network and leaves it `Trainable`.
- **Save format:** the lines written by `saveToFile` are `SaveLayout`, and parsing `SaveLayout` gives back the network whenever every weight and bias written reads back as itself. From this, reading a saved file builds a network with the same cost function, architecture, tags, weights and biases.

The model keeps three quirks of the code as written:
- The forward pass applies the activation of the layer that feeds forward, not the activation of the layer being computed.
- The backward pass applies a layer's own activation derivative to its post-activation values.
- Biases move with `+ learningRate * mean`, while weights move with `- learningRate * (1 - L2) * mean`.

Where the code's own comments suggest otherwise, or the code relies on an exception, the model follows what the code does:
- **Short input vector.** The Javadoc of `initializeNetwork` says the input should be as long as the input layer (src/NetworkClasses/Network.java:56-58), but a shorter one is not rejected. Reading the missing entry `initialValues[counter]` throws (src/NetworkClasses/Network.java:64); the exception is caught for each neuron, and those neurons keep their previous values. This is `Overlay`.
- **Short expected vector.** An expected vector shorter than the output does not stop the cost. Each missing entry contributes 0 to the value and leaves a 0 in the derivative.
- **Reading a file.** `readFromFile` returns null only after a `TooFewLayersException`. A missing line, a number that does not parse or an unknown tag ends in an uncaught runtime exception. The model returns `NoNetwork` and `Failed` for these two cases.

Things that stand outside the model and are passed in as parameters:
- **Random numbers:** `java.util.Random` becomes a `Draw` in [0, 1) per weight and bias.
- **Number text:** `Double.toString` and `Double.parseDouble`/`nextDouble` become the parameters `fmt` and `parse`. The round-trip results assume, only for the weights and biases the file holds, that `parse(fmt(x)) == Some(x)` and that the formatted number contains no white space (`ReadsBack`). `WholeFmt` and `WholeParse` are one pair of parameters that meets this for whole numbers, and `SmallNetworkLoads` uses them on a concrete network.
- **Files:** a file is modelled as its sequence of lines.

## Model

| member | source | states |
|---|---|---|
| Activation.Relu | src/Other/FunctionClasses/Activation/ActivationFunction.java:39-41 | ReLU is never negative, never below its input, and is either its input or 0 |
| Activation.LeakyRelu | src/Other/FunctionClasses/Activation/ActivationFunction.java:54-56 | leaky ReLU is x or x/10, at least both, and positive exactly when x is |
| Activation.Derivative | src/Other/FunctionClasses/Activation/ActivationFunction.java:29-31 | the sigmoid derivative is s*(1-s) with s the sigmoid; for ReLU it is 1 iff x > 0 and 0 iff x <= 0; for leaky ReLU it is 1 iff x > 0 and 0.1 iff x <= 0; for both, value == derivative * x |
| Activation.ReluIdempotent | src/Other/FunctionClasses/Activation/ActivationFunction.java:39-41 | relu(relu(x)) == relu(x) |
| Activation.ActivationExamples | src/Other/FunctionClasses/Activation/ActivationFunction.java:39-56 | relu(-3) == 0, relu(3) == 3, leakyRelu(-10) == -1 |
| Activation.FromTag | src/Other/FunctionClasses/Activation/ActivationFunction.java:73-86 | the tag parser accepts exactly the tags getAo writes, each for its own option; any other string has no option |
| Cost.SquaredError | src/Other/FunctionClasses/Cost/CostFunction.java:24-34 | the running sum of squared differences is never negative |
| Cost.QuadraticDerivative | src/Other/FunctionClasses/Cost/CostFunction.java:38-49 | the derivative has one entry per result entry |
| Cost.CalculateOriginal | src/Other/FunctionClasses/Cost/CostFunction.java:24-35 | the loop with the caught index error computes the cost Value and that value is >= 0 |
| Cost.CalculateDerivative | src/Other/FunctionClasses/Cost/CostFunction.java:38-49 | the loop computes DerivativeVector: 2*(result[i]-desired[i]) where desired has entry i, else 0 |
| Cost.SurplusDesiredIgnored | src/Other/FunctionClasses/Cost/CostFunction.java:26-40 | desired entries beyond the result change neither the value nor the derivative |
| Cost.SquaredErrorIgnoresSurplus | src/Other/FunctionClasses/Cost/CostFunction.java:26-31 | the partial sums ignore desired entries beyond the result |
| Cost.SquaredErrorZero | src/Other/FunctionClasses/Cost/CostFunction.java:24-34 | a partial sum is 0 exactly when the prefixes agree |
| Cost.QuadraticZeroIff | src/Other/FunctionClasses/Cost/CostFunction.java:24-34 | the quadratic cost is 0 iff the result equals the matching prefix of desired |
| Cost.SquaredErrorShift | src/Other/FunctionClasses/Cost/CostFunction.java:24-34 | moving result[i] by h changes the partial sum by 2h(result[i]-desired[i]) + h^2 |
| Cost.DerivativeIsSlope | src/Other/FunctionClasses/Cost/CostFunction.java:24-49 | the derivative entry i is the exact slope of the cost in result[i] (plus the h^2 term) |
| Cost.QuadraticExample | src/Other/FunctionClasses/Cost/CostFunction.java:24-49 | value([0.2,0.8],[0,1]) == 0.08 and derivative == [0.4,-0.4] |
| Cost.FromTag | src/Other/FunctionClasses/Cost/CostFunction.java:61-74 | the tag parser inverts getCo and rejects every other string |
| Util.GetAvgError | src/Other/Util.java:43-49 | the loop computes the mean of a non-empty error vector |
| Util.AverageBounds | src/Other/Util.java:43-49 | the mean lies between any lower and upper bounds of the entries |
| Util.AverageOfConstant | src/Other/Util.java:43-49 | the mean of a constant vector is that constant |
| Util.DotProduct | src/Other/Util.java:126-132 | the loop computes the sum over i < \|a\| of a[i]*b[i], for \|b\| >= \|a\| |
| Util.DotIgnoresSurplus | src/Other/Util.java:126-132 | entries of b beyond \|a\| do not matter |
| Util.DotSymmetric | src/Other/Util.java:126-132 | for equal lengths the dot product is symmetric |
| Util.DotScaleLeft | src/Other/Util.java:126-132 | the dot product is linear in its first argument |
| Util.OuterProduct | src/Other/Util.java:108-116 | the nested loop builds Outer(a, b), of shape \|b\| x \|a\| |
| Util.OuterEntry | src/Other/Util.java:108-116 | entry [j][i] of the outer product is a[i]*b[j] |
| Util.OuterTranspose | src/Other/Util.java:108-116 | outerProduct(a,b) is the transpose of outerProduct(b,a) |
| Util.OuterRowDot | src/Other/Util.java:108-132 | row j of outer(a,b) dotted with c is b[j]*(a.c) |
| Util.CalculateDCdz | src/Other/Util.java:73-79 | the loop computes af'(a[i])*b[i] for every i < \|a\| |
| Util.DCdzReluGate | src/Other/Util.java:73-79 | under ReLU the entry is b[i] where a[i] > 0 and 0 elsewhere |
| Util.CalculateDCda | src/Other/Util.java:92-98 | the loop computes one dot product per row of W |
| Util.DCdaOfOuter | src/Other/Util.java:92-116 | dCda of an outer product is b scaled by a.c |
| Util.Shrink | src/Other/Util.java:143-150 | an entry shrinks to (1 - 0.02) times itself, keeping its sign and zero-ness |
| Util.L2RegularizeMatrix | src/Other/Util.java:143-150 | every cell is shrunk in place and the same array is returned |
| Util.FlattenRowMajor | src/Other/Util.java:57-60 | entry [i][j] sits at offset (sizes of rows before i) + j of the flat vector |
| Util.FlattenUniformRows | src/Other/Util.java:57-60 | a matrix of n-wide rows flattens to \|m\|*n entries |
| Neurons.DrawToRange | src/NetworkClasses/Neuron.java:27-33 | a random draw in [0,1) maps to min + (max-min)*r in [-0.5, 0.5) |
| Neurons.Neuron.constructor | src/NetworkClasses/Neuron.java:25-40 | n weights; randomised: every weight and the bias from their draws; else all weights and bias 0; val 0 |
| Neurons.Neuron.Terminal | src/NetworkClasses/Neuron.java:49-58 | no weights, val 0, the bias drawn or 0 |
| Neurons.Neuron.SetWeights | src/NetworkClasses/Neuron.java:72-74 | replaces the weights and nothing else |
| Neurons.Neuron.SetWeight | src/NetworkClasses/Neuron.java:76-78 | for an index in range, changes only that weight |
| Neurons.Neuron.SetBias | src/NetworkClasses/Neuron.java:80-82 | changes only the bias |
| Neurons.Neuron.SetVal | src/NetworkClasses/Neuron.java:84-86 | changes only the value |
| Layers.Activate | src/NetworkClasses/Layer.java:102-113 | next value j is af(dot(values, column j of the weights) + bias j), with this layer's af |
| Layers.ReluActivationNonNegative | src/NetworkClasses/Layer.java:102-113 | a ReLU layer writes no negative value |
| Layers.ActivateZeroInput | src/NetworkClasses/Layer.java:102-113 | a zero input gives af(bias) for every neuron of the next layer |
| Layers.AdjustedBiases | src/NetworkClasses/Layer.java:160-175 | no samples: biases unchanged; else bias + learningRate * mean of the samples |
| Layers.AdjustedWeights | src/NetworkClasses/Layer.java:146-185 | no samples: weights unchanged; else w - learningRate*(1-L2)*mean within the recorded columns |
| Layers.RepeatedWeightSample | src/NetworkClasses/Layer.java:146-158 | recording the same weight sample N times updates like recording it once |
| Layers.RepeatedBiasSample | src/NetworkClasses/Layer.java:160-168 | recording the same bias sample N times updates like recording it once |
| Layers.SampleSumRepeat | src/NetworkClasses/Layer.java:146-158 | the sum of N copies of a sample is N times its entry |
| Layers.SampleMeanRepeat | src/NetworkClasses/Layer.java:146-158 | the mean of N copies of a weight sample is that sample |
| Layers.BiasMeanRepeat | src/NetworkClasses/Layer.java:160-168 | the mean of N copies of a bias sample is that sample |
| Layers.Layer.Hidden | src/NetworkClasses/Layer.java:21-27 | nodesNum fresh neurons with nextNodesNum drawn weights and a drawn bias, no samples |
| Layers.Layer.Output | src/NetworkClasses/Layer.java:29-34 | nodesNum fresh neurons without weights, drawn biases, nextNodesNum 0 |
| Layers.Layer.FromNeurons | src/NetworkClasses/Layer.java:36-40 | a layer over exactly the given neurons, no samples |
| Layers.Layer.GetValuesAsVector | src/NetworkClasses/Layer.java:52-60 | the values, one per neuron in queue order |
| Layers.Layer.GetWeightsAsMatrix | src/NetworkClasses/Layer.java:70-78 | the weight vectors, one row per neuron in queue order |
| Layers.Layer.ActivateLayer | src/NetworkClasses/Layer.java:102-113 | the next layer's values become Activate of this layer; its weights and biases stay |
| Layers.Layer.WeightedSum | src/NetworkClasses/Layer.java:105-108 | the inner loop computes dot(values, column j) |
| Layers.Layer.ActivateNeuron | src/NetworkClasses/Layer.java:104-111 | one pass of the outer loop sets neuron j of the next layer to af(dot(values, column j) + bias j) and leaves its weights, its bias and this layer as they were |
| Layers.Layer.AddWeightDeltas | src/NetworkClasses/Layer.java:121-128 | appends exactly one sample and sets hasWeights; matrixDims comes from the first sample only |
| Layers.Layer.AddBiasDeltas | src/NetworkClasses/Layer.java:135-138 | appends exactly one sample and sets hasBiases |
| Layers.Layer.AdjustWB | src/NetworkClasses/Layer.java:145-190 | biases and weights become AdjustedBiases/AdjustedWeights of the samples; samples cleared, flags false, values kept |
| Layers.Layer.AdjustBiases | src/NetworkClasses/Layer.java:160-175 | averages the bias samples and moves every bias by the guarded update |
| Layers.Layer.AdjustWeights | src/NetworkClasses/Layer.java:146-185 | averages and shrinks the weight samples and moves every weight by the guarded update |
| Layers.Layer.MoveBiases | src/NetworkClasses/Layer.java:169-175 | the bias loop adds learningRate times the mean to each bias |
| Layers.Layer.MoveWeights | src/NetworkClasses/Layer.java:176-185 | the weight loop subtracts learningRate times the shrunk mean from each weight |
| Layers.Layer.MoveBiasesIf | src/NetworkClasses/Layer.java:169-175 | the bias step under `if (hasBiases)` gives AdjustedBiases of the samples and keeps weights and values |
| Layers.Layer.MoveWeightsIf | src/NetworkClasses/Layer.java:176-185 | the weight step under `if (hasWeights)` gives AdjustedWeights of the samples and keeps biases and values |
| Layers.MeanWeightSample | src/NetworkClasses/Layer.java:146-158 | the accumulation loop gives the entrywise mean of the weight samples |
| Layers.MeanBiasSample | src/NetworkClasses/Layer.java:160-168 | the accumulation loop gives the entrywise mean of the bias samples |
| Layers.SubtractRow | src/NetworkClasses/Layer.java:180-182 | one neuron's weights drop by learningRate times its row of the mean |
| Layers.AccumulateMatrix | src/NetworkClasses/Layer.java:147-153 | adds one sample into the running weight sum |
| Layers.AccumulateVector | src/NetworkClasses/Layer.java:161-165 | adds one sample into the running bias sum |
| Layers.DivideMatrix | src/NetworkClasses/Layer.java:154-158 | divides every entry of the sum by the sample count |
| Layers.DivideVector | src/NetworkClasses/Layer.java:166-168 | divides every entry of the sum by the sample count |
| Gradients.DCdaAt | src/NetworkClasses/Network.java:173-190 | the cost gradient reaching layer k has one entry per neuron of layer k |
| Gradients.DCdzAt | src/NetworkClasses/Network.java:181-182 | the pre-activation gradient of layer k has one entry per neuron of layer k |
| Gradients.RecordsStep | src/NetworkClasses/Network.java:181-187 | one backward iteration records one bias sample on layer c and one weight sample on layer c-1 |
| Gradients.DimsStep | src/NetworkClasses/Network.java:184 | matrixDims of layer c-1 is set by its first weight sample only |
| Gradients.RecordsStart | src/NetworkClasses/Network.java:173-180 | before the do-while nothing is recorded on any layer and every matrixDims is as it was |
| Gradients.RecordsBack | src/NetworkClasses/Network.java:181-187 | going back from c to c-1 records dCdz_c on layer c and outer(dCdz_c, values_(c-1)) on layer c-1, sets matrixDims of layer c-1 on its first sample, and leaves the records of every other layer as they were |
| Gradients.RecordsNext | src/NetworkClasses/Network.java:181-187 | if every layer holds its old samples plus the records from c, then after one iteration's two appends every layer holds its old samples plus the records from c-1 |
| Gradients.RecordedEntry | src/NetworkClasses/Network.java:184-185 | the same for the bias and weight samples of one layer k |
| Gradients.DimsEntry | src/NetworkClasses/Layer.java:121-125 | the same for the matrixDims of one layer k |
| Gradients.WeightSampleShape | src/NetworkClasses/Network.java:182-184 | layer k's weight sample is size_k by size_k+1 |
| Gradients.OutputGradient | src/NetworkClasses/Network.java:179-182 | the output gradient is af'(value) * 2(value - expected), or 0 where expected is missing |
| Gradients.PerfectFitZeroGradient | src/NetworkClasses/Network.java:179-187 | when the output equals the expected vector every dCda and dCdz is 0 |
| Gradients.PerfectFitRecordsZeros | src/NetworkClasses/Network.java:173-190 | so a perfect fit records all-zero bias and weight samples |
| Text.NatToStringValue | src/NetworkClasses/Network.java:218-220 | the decimal digits written for a count read back as that count |
| Text.IntRoundTrip | src/Other/Util.java:164 | Integer.parseInt reads back any int written by Integer.toString |
| Text.ParseInt | src/Other/Util.java:164 | a parsed int lies in the 32-bit range |
| Text.TokensCons | src/Other/Util.java:166-177 | a space-separated line splits into its tokens in order |
| Text.Tokens | src/Other/Util.java:166-177 | every token a Scanner reads is non-empty |
| Text.IntToString | src/NetworkClasses/Network.java:219-221 | Integer.toString writes one token without white space |
| Text.TrimSolid | src/Other/Util.java:178 | a bias line without white space is read as written |
| SaveFormat.RebuiltSaved | src/Other/Util.java:171-185 | rebuilding a saved layer restores weights, biases, tag and next count, with values 0 |
| SaveFormat.SaveLayoutLength | src/NetworkClasses/Network.java:218-232 | the file has 2 + sum(1 + 2*size_k) lines |
| SaveFormat.LayersLinesLength | src/NetworkClasses/Network.java:220-233 | the layer blocks have sum(1 + 2*size_k) lines |
| SaveFormat.Saved | src/NetworkClasses/Network.java:221-231 | a layer is saved with its tag, its next count and one record per neuron |
| SaveFormat.HeaderTokens | src/NetworkClasses/Network.java:221-222 | the header line splits into the neuron count, the next count and the tag |
| SaveFormat.ParseNeuron | src/Other/Util.java:172-181 | a neuron read takes exactly two lines and has next weights |
| SaveFormat.NeuronLinesLength | src/NetworkClasses/Network.java:223-231 | two lines per neuron |
| SaveFormat.WriteWeights | src/NetworkClasses/Network.java:224-230 | writes each weight followed by a space |
| SaveFormat.WriteLayer | src/NetworkClasses/Network.java:221-232 | writes the header, then a weight line and a bias line per neuron |
| SaveFormat.WriteLayers | src/NetworkClasses/Network.java:220-233 | writes every layer's block in queue order |
| SaveFormat.ParseNeurons | src/Other/Util.java:171-183 | a parsed layer has its header's neuron count, each with next weights |
| SaveFormat.ParseLayers | src/Other/Util.java:165-187 | as many layers as the count (none for a negative count) |
| SaveFormat.Parse | src/Other/Util.java:159-198 | a loaded network has at least two layers |
| SaveFormat.WeightsRoundTrip | src/Other/Util.java:174-177 | the weight line written for ws reads back as ws when each weight of ws reads back |
| SaveFormat.NeuronRoundTrip | src/Other/Util.java:172-181 | a neuron's two lines read back as that neuron |
| SaveFormat.NeuronsRoundTrip | src/Other/Util.java:171-183 | all neurons of a layer read back in order |
| SaveFormat.HeaderRoundTrip | src/Other/Util.java:166-169 | the header reads back as size, next count and tag |
| SaveFormat.LayerRoundTrip | src/Other/Util.java:166-185 | a layer's block reads back as that layer, leaving the lines after it |
| SaveFormat.LayersRoundTrip | src/Other/Util.java:165-187 | all layer blocks read back in order |
| SaveFormat.LoadSaved | src/Other/Util.java:159-198 | parsing a saved file gives the cost and the layers, or TooFewLayers below two layers, when every weight and bias written reads back |
| SaveFormat.WholeRoundsTrip | src/Other/Util.java:174-178 | a whole number in the int range, written with WholeFmt, reads back as itself with WholeParse and contains no white space |
| SaveFormat.WholeReadsBack | src/Other/Util.java:159-198 | a network whose weights and biases are whole numbers meets ReadsBack for WholeFmt and WholeParse |
| SaveFormat.SmallNetworkLoads | src/NetworkClasses/Network.java:214-240 | a concrete two-layer network saved with WholeFmt parses back as the same cost and layers |
| Networks.Forward | src/NetworkClasses/Network.java:98-102 | the values computed for layer k > 0 have one entry per neuron of layer k |
| Networks.PulsedUpTo | src/NetworkClasses/Network.java:98-102 | after n activations, layers up to n hold Forward, later ones keep their values, no parameter changes |
| Networks.PulsedUpToStep | src/NetworkClasses/Network.java:98-102 | each iteration activates exactly one more layer |
| Networks.Pulsed | src/NetworkClasses/Network.java:95-105 | a pulse keeps the input layer and every parameter |
| Networks.PulseInOrder | src/NetworkClasses/Network.java:98-102 | after a pulse, layer k holds the activation of layer k-1's pulsed values |
| Networks.ForwardOfPulsed | src/NetworkClasses/Network.java:95-105 | pulsing does not change what a pulse computes |
| Networks.PulseIdempotent | src/NetworkClasses/Network.java:95-105 | pulsing twice is pulsing once |
| Networks.ReluOutputNonNegative | src/NetworkClasses/Network.java:95-105 | if the next-to-last layer is ReLU, no output is negative |
| Networks.InitialLayer | src/NetworkClasses/Network.java:31-37 | layer k has counts[k] neurons with counts[k+1] weights each |
| Networks.InitialShape | src/NetworkClasses/Network.java:26-40 | construction feeds forward and back, the last layer has no weights and next 0, and every draw lies in [-0.5, 0.5) |
| Networks.InitialLearnable | src/NetworkClasses/Network.java:26-40 | a built network can be trained exactly when no layer below the output has zero neurons |
| Networks.Network.Of | src/NetworkClasses/Network.java:46-49 | a network over exactly the given layers and cost |
| Networks.Network.FromLayers | src/NetworkClasses/Network.java:42-50 | fewer than two layers is TooFewLayers; else a network over exactly those layers |
| Networks.Network.FromCounts | src/NetworkClasses/Network.java:26-40 | fewer than two counts is TooFewLayers; else the InitialImage layers with no samples, Trainable exactly when no layer below the output is empty |
| Networks.Network.SaveToFile | src/NetworkClasses/Network.java:214-240 | the lines written are SaveLayout of the cost and the saved layers |
| Networks.Network.InitializeNetwork | src/NetworkClasses/Network.java:60-71 | the input layer's values are Overlay of the old values and the input; nothing else changes |
| Networks.Network.Pulse | src/NetworkClasses/Network.java:95-105 | the layers become Pulsed and the queue is back in its order |
| Networks.Network.PulseWithResult | src/NetworkClasses/Network.java:115-132 | as Pulse, and returns the output layer's values in neuron order |
| Networks.Network.OutputValues | src/NetworkClasses/Network.java:125-131 | ret_val holds the output layer's values in neuron order |
| Networks.Network.PulseWithInput | src/NetworkClasses/Network.java:143-163 | loads the input as InitializeNetwork, then pulses |
| Networks.Network.LearnFrom | src/NetworkClasses/Network.java:173-190 | appends BiasRecords/WeightRecords to every layer, sets matrixDims by DimsRecorded, changes no parameter or value |
| Networks.Network.UpdateLayers | src/NetworkClasses/Network.java:197-201 | every layer takes the Updated parameters and its samples are cleared |
| Networks.Network.TrainableOf | src/NetworkClasses/Network.java:173-201 | a network is Trainable exactly when its layers and pending samples, as values, satisfy Trains |
| Networks.Network.TrainableAdjusts | src/NetworkClasses/Layer.java:145-190 | on a Trainable network every layer meets what adjustWB needs (samples no wider than matrixDims, weights at least that wide) |
| Networks.Network.UntrainedTrainable | src/NetworkClasses/Network.java:173-201 | with no samples pending, Trainable holds exactly when the layers are Learnable |
| Networks.Network.PulseTrainable | src/NetworkClasses/Network.java:143-163 | pulseWithInput on a Trainable network computes Pulsed of the loaded layers and leaves it Trainable |
| Networks.Network.PulseKeepingSamples | src/NetworkClasses/Network.java:143-163 | pulseWithInput changes no pending sample and no matrixDims |
| Networks.Network.LearnTrainable | src/NetworkClasses/Network.java:173-190 | learnFrom can be called on a Trainable network: it appends BiasRecords/WeightRecords to every layer's samples, changes no parameter or value, and leaves the network Trainable |
| Networks.Network.UpdateTrainable | src/NetworkClasses/Network.java:197-201 | updateLayers can be called on a Trainable network, keeps the queue order, gives the Updated parameters, clears every sample and leaves it Trainable |
| Networks.Network.LearnSample | src/Main.java:35-36 | pulseWithInput then learnFrom: the layers become Pulsed of the loaded input, every layer's samples gain the records of the pulsed layers, and the network stays Trainable with its queue in order |
| Networks.Network.TrainOn | src/Main.java:33-38 | one pass of the training loop keeps a network Trainable, so the next pass can be made; without an update the layers are Pulsed of the loaded input and the samples gain that pass's records; after an update no sample is pending |
| Networks.UpdateKeepsTraining | src/NetworkClasses/Network.java:197-201 | after an update that clears every sample the layers still satisfy Trains |
| Networks.PulseKeepsTraining | src/NetworkClasses/Network.java:143-163 | a pulse keeps layer sizes and hence Trains with the same samples |
| Networks.SameSizesShaped | src/NetworkClasses/Network.java:173-190 | the shape of the samples depends only on the layer sizes |
| Networks.ShapedLayerAdjusts | src/NetworkClasses/Layer.java:145-190 | a layer whose samples are shaped by learnFrom meets adjustWB's bounds |
| Networks.SamplesRecorded | src/NetworkClasses/Network.java:173-190 | the samples learnFrom appends keep them shaped for the layers |
| Gradients.NoSamplesShaped | src/NetworkClasses/Network.java:173-201 | no pending samples are always shaped |
| Gradients.RecordsKeepShape | src/NetworkClasses/Network.java:181-187 | appending BiasRecords and WeightRecords keeps every layer's samples shaped (bias samples as wide as the layer, weight samples size_k by size_k+1, matrixDims on the first one) |
| Gradients.RecordShapeOf | src/NetworkClasses/Network.java:181-187 | the same for one layer |
| Gradients.RecordShapeAt | src/NetworkClasses/Network.java:181-187 | the same for one layer's samples and dimensions as values |
| Networks.PulseQueue | src/NetworkClasses/Network.java:98-104 | numLayers rotations restore the queue and leave the layers Pulsed |
| Networks.Overlay | src/NetworkClasses/Network.java:60-70 | surplus values ignored; short input keeps the remaining old values |
| Networks.ActivateNext | src/NetworkClasses/Network.java:99-101 | one rotation step activates layer i+1 from layer i |
| Networks.LoadValues | src/NetworkClasses/Network.java:62-69 | neuron j takes values[j] while there are values and keeps its value otherwise |
| Networks.BuildLayers | src/NetworkClasses/Network.java:31-37 | builds fresh, separate layers whose image is InitialImage |
| Networks.AppendLayer | src/NetworkClasses/Network.java:31-37 | one step of the constructor loop appends one fresh layer with image InitialLayer k and keeps the layers before it |
| Networks.NewLayer | src/NetworkClasses/Network.java:34-37 | new Layer(...) for position k: a fresh valid layer with fresh neurons, no samples and image InitialLayer k |
| Networks.BuiltAsAll | src/NetworkClasses/Network.java:31-37 | layers made one after another are pairwise separate, valid, without samples and each has the image given for it |
| Networks.Loaded | src/NetworkClasses/Network.java:60-70 | only the input layer's values change, to Overlay |
| Networks.LoadedFeedsForward | src/NetworkClasses/Network.java:143-163 | loading input keeps a network able to pulse |
| Networks.ForwardDependsOnInput | src/NetworkClasses/Network.java:95-105 | a pulse depends only on the input values and the parameters |
| Networks.PulseForgetsOldValues | src/NetworkClasses/Network.java:143-163 | pulseWithInput's result ignores what the non-input layers held before |
| Networks.BackStep | src/NetworkClasses/Network.java:181-186 | one iteration: records dCdz on cur, outer(dCdz, prev values) on prev, returns dCda for prev |
| Networks.BackPropagate | src/NetworkClasses/Network.java:173-190 | the whole stack walk records exactly BiasRecords/WeightRecords |
| Networks.PopOutput | src/NetworkClasses/Network.java:174-179 | pops the output layer and computes the cost derivative on its values |
| Networks.BackStepAt | src/NetworkClasses/Network.java:181-187 | one iteration advances the recorded state from c to c-1 |
| Networks.BackStepIn | src/NetworkClasses/Network.java:182-186 | on the layer objects: cur's bias samples gain dCdz, prev's weight samples gain outer(dCdz, prev values), prev's matrixDims is set on its first sample, no other layer and no neuron changes, and dCda for prev is returned |
| Networks.BackIteration | src/NetworkClasses/Network.java:181-188 | one turn of the do-while pops the stack and moves the loop state from position c to c-1 |
| Networks.BackLoop | src/NetworkClasses/Network.java:181-188 | the do-while leaves every layer valid with its old samples plus the records from position 0 and matrixDims as DimsRecorded |
| Networks.UpdateKeepsShape | src/NetworkClasses/Network.java:197-201 | an update keeps values and the ability to pulse and to learn |
| Networks.UpdateWithoutSamples | src/NetworkClasses/Network.java:197-201 | an update without samples changes nothing |
| Networks.OneSampleBias | src/NetworkClasses/Network.java:173-201 | one learnFrom then updateLayers moves bias i of layer k by learningRate * dCdz |
| Networks.OneSampleWeight | src/NetworkClasses/Network.java:173-201 | one learnFrom then updateLayers moves w[r][i] of layer k by -learningRate(1-L2) times entry [r][i] of outer(dCdz_(k+1), values_k), which is value_r * dCdz_i by Util.OuterEntry |
| Networks.OneSampleEnds | src/NetworkClasses/Network.java:173-201 | the input layer's biases and the output layer's weights never move |
| Networks.AdjustAll | src/NetworkClasses/Network.java:197-201 | every layer is adjusted in turn to its Updated image |
| Networks.AdjustAt | src/NetworkClasses/Network.java:198-200 | one adjustWB gives its layer the Adjusted image, clears its samples, keeps matrixDims, and touches no other layer's neurons |
| Networks.AdjustStep | src/NetworkClasses/Network.java:198-200 | one turn of the update loop moves the loop state from layer i to layer i+1 |
| Networks.Adjusted | src/NetworkClasses/Layer.java:145-190 | adjustWB keeps values, activation, next count and the shape of the weights; without samples it changes nothing |
| Networks.UpdatedBelowStep | src/NetworkClasses/Network.java:198-200 | the loop over the queue changes layer n at its turn and no other |
| Networks.UpdatedWeightEntry | src/NetworkClasses/Layer.java:176-185 | with one weight sample outer(d, values), weight [r][i] moves by -learningRate(1-L2) * values[r] * d[i] within the recorded columns |
| NetworkReader.RebuiltAll | src/Other/Util.java:171-185 | the layers built from the parsed records save back to those records |
| NetworkReader.ReadWeights | src/Other/Util.java:174-177 | the nextDouble loop reads exactly ParseWeights |
| NetworkReader.ReadNeuron | src/Other/Util.java:172-181 | fails iff ParseNeuron fails; otherwise a fresh neuron with the parsed weights and bias |
| NetworkReader.ReadNeurons | src/Other/Util.java:171-183 | the neuron loop reads exactly ParseNeurons into distinct fresh neurons |
| NetworkReader.NextNeuron | src/Other/Util.java:171-183 | one turn of the neuron loop either finds the lines malformed or appends one fresh neuron and keeps the relation to ParseNeurons |
| NetworkReader.ReadLayer | src/Other/Util.java:166-185 | fails iff ParseLayer fails; otherwise a fresh valid layer rebuilt from the parsed record |
| NetworkReader.ReadLayers | src/Other/Util.java:165-187 | the layer loop reads exactly ParseLayers into separate layers |
| NetworkReader.ReadNext | src/Other/Util.java:165-187 | one turn of the layer loop either finds the lines malformed or appends one rebuilt layer and keeps the relation to ParseLayers |
| NetworkReader.ReadAnother | src/Other/Util.java:166-185 | reads one more layer exactly when ParseLayer succeeds, separate from the layers already read |
| NetworkReader.LayersStep | src/Other/Util.java:165-187 | a failed layer read fails the whole read; a successful one leaves the same result with one layer fewer to go |
| NetworkReader.Assemble | src/Other/Util.java:189-197 | unknown cost tag fails; fewer than two layers is null; else the network over the layers, Trainable exactly when those layers are Learnable |
| NetworkReader.ReadFromFile | src/Other/Util.java:159-198 | fails iff Parse is Malformed, null iff TooFewLayers, else a fresh network with the parsed cost and layers, Trainable exactly when they are Learnable |
| NetworkReader.SaveThenRead | src/NetworkClasses/Network.java:214-240 | reading a saved network succeeds with the same cost, weights and biases, when every number written reads back; a Trainable network reloads Trainable |
| NetworkReader.RebuiltFeeds | src/Other/Util.java:171-185 | rebuilding saved layers keeps them Learnable |
| NetworkReader.ReloadedPulsesAlike | src/Other/Util.java:159-198 | a reloaded network computes the same values as the saved one for any full input |
| OutputProfiles.Ordinal | src/Main.java:126-127 | a profile's position in values() |
| OutputProfiles.ProfileVector | src/Main.java:126-131 | each profile is a one-hot vector of length 4 at its ordinal |
| OutputProfiles.ProfilesDistinct | src/Main.java:126-127 | the four profiles are listed once and their vectors differ |
| OutputProfiles.GetBestProfile | src/Main.java:167-182 | returns a profile of least cost, the earliest in declaration order on ties |
| OutputProfiles.FirstMinimum | src/Main.java:173-180 | the scan from positive infinity with a strict < finds a least cost, and every earlier cost is larger |
| Pixels.Channel | src/Main.java:70-72 | (rgb >> k) & 0xFF lies in 0..255 |
| Pixels.Intensity | src/Main.java:73 | the intensity is 0 iff r = g = b = 255, and 1 otherwise |
| Pixels.WhiteAndBlack | src/Main.java:69-73 | opaque white reads as 0 and opaque black as 1 |

## Left out

- Floating point: doubles are exact reals, so rounding, overflow to infinity and NaN are not modelled. That covers the NaN that `adjustWB` computes into its unused averages when no samples were recorded, and `getAvgError` on an empty array, which the model does not allow.
- `Math.exp`: the sigmoid is an uninterpreted function with no assumed properties.
- `java.util.Random`: draws are parameters. `initializeNetwork()` (the random-input overload) is not modelled beyond that, because it only fills the input layer with draws.
- File handling: creating, opening, flushing and closing files and the I/O exceptions. A file is its sequence of lines.
- The timestamped `saveToFile()` overload: it only picks a file name and calls `saveToFile(File)`.
- `Double.toString`, `Double.parseDouble` and `Scanner.nextDouble`: these are the parameters `fmt` and `parse`. `ReadsBack` is what the round-trip results assume about them, for the numbers actually written.
- `Scanner` and `Integer.parseInt` details: locale, radix and non-ASCII digits. `Integer.parseInt` accepts any Unicode decimal digit through `Character.digit`, while `Text.ParseInt` accepts only ASCII digits. Tokens are split on the characters `Text.IsSpace` lists, which are the white space of Java's `Character.isWhitespace`.
- The getters that hand out live Java arrays and queues: no caller mutates what they return, so they are modelled as reads of the fields.
- `HashSet` identity: every sample counts, as a sequence, because each sample is a freshly allocated array.
- `Layer.setNextNodesNum` and the plain getters: their effect is a single field assignment with no caller in the core.
- `toString` methods, `Util.stringify2DArr`, the `System.out`/`System.err` messages and `printStackTrace`: output only.
- `DataGenerator`, `Main.main`, `prepareData`, `getRandomProfile` and the image decoding of `testNN`: the driver and its data. Only the pixel arithmetic, `getBestProfile` and one pass of the training loop (`Network.TrainOn`, with the random sample and the `i % batchSize == 0` test given as parameters) are kept.
- The exceptions of `readFromFile` other than `TooFewLayersException` are not told apart: all of them are `Failed`.
- Layers.Layer.AddWeightDeltas: requires a non-empty sample when none is recorded yet, because the source then reads `dW[0]` and throws.
- Layers.Layer.ActivateLayer: requires every neuron of this layer to have at least as many weights as the next layer has neurons. The source reads `n.getWeights()[j]` and throws ArrayIndexOutOfBoundsException when a row is shorter (src/NetworkClasses/Layer.java:107); that exception path is not modelled.
- Networks.Network.Pulse: requires `FeedsForward`, so the exception an inconsistent network throws while activating is not modelled. A network built by `FromCounts`, or read back by `ReadFromFile`, meets it.
- Networks.Network.PulseWithResult: requires `FeedsForward`, for the same reason as Pulse.
- Networks.Network.PulseWithInput: requires `FeedsForward`, for the same reason as Pulse.
- Networks.Network.LearnFrom: requires `FeedsBack` and that no layer below the output is empty before its first sample. The source would throw on a mismatched matrix, or read `dW[0]` of an empty outer product (src/NetworkClasses/Layer.java:121-125). `Learnable` states these conditions on the layers, and `Network.TrainOn` shows that they hold on every pass of the training loop.
- Networks.Network.UpdateLayers: requires `CanAdjust` on every layer, so the index exceptions `adjustWB` throws on samples wider than the layer are not modelled (src/NetworkClasses/Layer.java:150, 163, 180-181). `Network.TrainableAdjusts` shows that a Trainable network meets it.
- Layers.Layer.AdjustWB: requires `CanAdjust`, for the same reason as UpdateLayers.
- Networks.Network.FromCounts: requires at least as many activation options as counts, because the source reads `afArr[i]` for every layer and otherwise throws ArrayIndexOutOfBoundsException (src/NetworkClasses/Network.java:33-36).
- Networks.Network.FromCounts: takes the counts as `nat`. In the source a negative count builds an empty layer (src/NetworkClasses/Layer.java:21-24, 29-32), or throws NegativeArraySizeException when it is a next-layer count (src/NetworkClasses/Neuron.java:26).
- Layers.Layer.Hidden: takes `nat` counts, for the same reason as FromCounts.
- Layers.Layer.Output: takes a `nat` count, for the same reason as FromCounts.
- Neurons.Neuron.constructor: takes a `nat` weight count. A negative count throws NegativeArraySizeException in the source (src/NetworkClasses/Neuron.java:26).
- Neurons.Neuron.SetWeight: requires an index within the weights. The source throws ArrayIndexOutOfBoundsException otherwise (src/NetworkClasses/Neuron.java:77).
- Layers.Layer.FromNeurons: requires distinct neurons. The source accepts a queue holding the same neuron twice, and the model does not capture the aliasing that would follow.
- Util.Dot: requires `|a| <= |b|`. The source throws ArrayIndexOutOfBoundsException on a shorter `b` (src/Other/Util.java:129).
- Util.DCdz: requires `|a| <= |b|`, for the same reason (src/Other/Util.java:76).
- Util.DCda: requires every row of the matrix to be no longer than the vector, for the same reason (src/Other/Util.java:95, 129).
- Networks.Network.TrainOn: on a pass that ends in updateLayers, the contract gives the cleared samples but not the new weights and biases. `Network.UpdateTrainable` states those, as `Updated` of the layers and samples left by `Network.LearnSample`.
- Concurrency: none in the source.
