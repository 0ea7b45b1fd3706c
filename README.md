# EEGResNet construction plan

A Dafny model of the integer construction plan of braindecode's EEGResNet
(`braindecode/models/eegresnet.py`). The model covers:

- the configuration checks of `EEGResNet.__init__`;
- the ordered list of named modules it registers: the stem, seven blocks of
  residual units, the pooling layer and the classifier;
- the channel and dilation progression across the blocks;
- the padding and channel-delta checks of `_ResidualBlock.__init__`;
- the channel bookkeeping of `_ResidualBlock.forward`, with the tensor
  arithmetic abstracted;
- the class-name dispatch of `_weights_init`, which `self.apply` runs over
  every module, children before parents.

Layout:

- `wrappers.dfy`: `Option` and `Result`.
- `text.dfy`: decimal rendering of the numbers in `res_{b}_{u}`, and
  Python's substring test `sub in s`.
- `residual.dfy`: the residual unit's constructor and its skip path.
- `layers.dfy`: module names, the layers registered under them, and
  ordered registration.
- `eegresnet.dfy`: the configuration and the reference plan `Plan`, which
  gives each block's width and dilation in closed form. It also holds the
  constructor as an imperative `Build` method. `Build` keeps the source's
  running filter count, block counter and mutable two-element dilation
  array, registers into a `Sequential` class, and is proved to return
  exactly `Plan`.
- `plan_facts.dfy`: what the plan promises. This covers failure modes and
  their order, channel and dilation progression, unit names and count, and
  registration order.
- `weights_init.dfy`: the dispatch, the post-order module list, the in-place
  initialisation over an array, and the constructor end to end.

Behaviour of the code worth noting:

- Temporal dilation doubles six times, once before each of blocks 2 to 7
  (`braindecode/models/eegresnet.py` lines 148, 166, 184, 200, 216 and 231).
  Block 7 and a fixed-length `mean_pool` therefore use dilation (64, 1).
- Blocks 2 to 7 always register their opening unit `res_b_0`, even when
  `n_layers_per_block` is 0. The network therefore has 7L residual units for
  L >= 1 and 6 otherwise.
- The residual units are built with their own defaults. Their kernel length
  is 3 and their nonlinearity is ELU, whatever `first_filter_length` and
  `activation` are. The configured activation reaches only `conv_nonlin`.
- An odd `n_first_filters` makes `res_2_0` fail its channel-delta assertion.
  That is the first residual unit whose width changes.

## Model

| member | source | states |
|---|---|---|
| Text.NatToString | braindecode/models/eegresnet.py:144 | the rendering of a unit or block number is a non-empty digit string with no leading zero |
| Text.NatToStringRoundTrip | braindecode/models/eegresnet.py:144 | reading a rendered number back gives the number, so distinct numbers give distinct names |
| Text.ContainsIff | braindecode/models/eegresnet.py:287 | the substring test `sub in s` holds exactly when `sub` occurs at some index of `s` |
| Text.ContainsOnlyOwnChars | braindecode/models/eegresnet.py:287-291 | a class name lacking one letter of "Conv" (or "BatchNorm") does not contain it |
| Residual.NewResidualBlock | braindecode/models/eegresnet.py:312-319 | construction succeeds iff `(k-1)*dilation[0]` and `out-in` are both even; an odd padding raises the padding assertion, otherwise an odd delta raises the channel-delta assertion; on success `2*time_padding == (k-1)*dilation[0]`, `n_pad_chans == out-in`, the dilation pair and channels are recorded, and the padded convolution keeps every temporal length |
| Residual.SkipPath | braindecode/models/eegresnet.py:356-360 | the skip path fails only for negative padding; otherwise it has `|x| + 2*(n_pad_chans//2)` channels: zeros, then the input channels in order, then zeros |
| Residual.SkipPathRoundTrip | braindecode/models/eegresnet.py:356-360 | stripping `n_pad_chans//2` channels from each end of the skip path returns the input |
| Residual.SkipPathEven | braindecode/models/eegresnet.py:356-360 | for an even non-negative delta the skip path is uniformly `k` zeros, the input, `k` zeros, with `k == 0` being the pass-through |
| Residual.SkipPathMatchesOutput | braindecode/models/eegresnet.py:316-319 | a well-formed, non-narrowing unit pads an `in`-channel input to exactly `out` channels, with equal zero counts on each side |
| Residual.Forward | braindecode/models/eegresnet.py:353-362 | an input with the wrong channel count is rejected; for a well-formed unit the output has `out` channels and channel i is the nonlinearity of skip channel i plus branch channel i |
| Layers.NameTextRoundTrip | braindecode/models/eegresnet.py:96-273 | every registered name, including each `res_{b}_{u}`, parses back to itself |
| Layers.NameTextInjective | braindecode/models/eegresnet.py:144 | distinct module names are distinct strings |
| Layers.UnitChildren | braindecode/models/eegresnet.py:321-351 | a unit registers conv_1, bn1, conv_2, bn2 and its nonlinearity; both convolutions carry a bias, use stride 1, kernel `(filter_time_length, 1)`, padding `(time_padding, 0)` and the unit's dilation, and keep the temporal length of a well-formed unit; the channels chain from in to out |
| Layers.RegisteredFresh | braindecode/models/eegresnet.py:96 | registering a name not yet present appends it at the end |
| Layers.RegisteredPresent | braindecode/models/eegresnet.py:96 | registering a name already present replaces its module in place and keeps the order |
| EEGResNet.Sequential.AddModule | braindecode/models/eegresnet.py:96 | `add_module` as ordered-dict assignment; when every present name comes earlier in registration order, it appends |
| EEGResNet.AddStem | braindecode/models/eegresnet.py:96-138 | the stem registers ensuredims, the split or joint first convolution, bnorm and conv_nonlin, exactly as `Stem` lists them |
| EEGResNet.AddSplitConvolution | braindecode/models/eegresnet.py:97-118 | the split first layer registers dimshuffle, conv_time (1 to n channels, kernel (k,1), padding k//2, with bias) and conv_spat (n to n channels over all electrodes, no bias) |
| EEGResNet.AddSameWidthUnits | braindecode/models/eegresnet.py:142-146 | the loop `for i_layer in range(from, L)` appends units res_b_from..res_b_{L-1}, each keeping the width and using the dilation the array holds |
| EEGResNet.AddBlock | braindecode/models/eegresnet.py:147-163 | a block after the first either fails on its opening unit and registers nothing, or registers the opening unit and then the same-width units |
| EEGResNet.AddPlannedBlock | braindecode/models/eegresnet.py:147-163 | with the running width and dilation the constructor holds at block b, the block's failure is the outcome of all seven blocks, and otherwise the registry grows as the reference plan says |
| EEGResNet.AddWideningBlocks | braindecode/models/eegresnet.py:139-181 | blocks 1 to 3 leave the running width at int(1.5*2n) and the dilation array at (4, 1), having registered exactly the plan's first three blocks |
| EEGResNet.AddDilatingBlocks | braindecode/models/eegresnet.py:183-244 | blocks 4 to 7 leave the dilation array at (64, 1), having registered exactly the plan's seven blocks |
| EEGResNet.AddHead | braindecode/models/eegresnet.py:247-273 | the pooling layer (global, or the given length with the current dilation) and the classifier container (1x1 convolution with bias, then squeeze) are appended |
| EEGResNet.Plan | braindecode/models/eegresnet.py:78-273 | the reference definition of the constructor: the two configuration checks, then the stem, the seven blocks of units (first failing unit wins), and `HeadOf`, the pooling layer with the final dilation and the classifier on block 7's width; its properties are the PlanFacts rows |
| EEGResNet.Build | braindecode/models/eegresnet.py:68-273 | the constructor, step by step with its counters and mutable dilation array, returns exactly the reference plan, failure or module list |
| PlanFacts.OneAndHalfOfDouble | braindecode/models/eegresnet.py:167 | `int(1.5 * 2n)` is exactly `3n` |
| PlanFacts.WidthProgression | braindecode/models/eegresnet.py:131-181 | block 1 has n channels, block 2 has 2n, blocks 3 to 7 have 3n |
| PlanFacts.DilationProgression | braindecode/models/eegresnet.py:139-244 | in a built network every unit of block b+1 dilates time twice as much as every unit of block b; block 1 uses 1, block 7 uses 64, and no unit dilates the channel axis; each unit keeps the value the dilation array held when it was built |
| PlanFacts.PlannedBlockShape | braindecode/models/eegresnet.py:140-244 | res_2_0 maps n to 2n and res_3_0 maps 2n to 3n; every other unit keeps its width; block b dilates time by 2^(b-1) and the channel axis by 1; kernel length 3, ELU, padding equal to the dilation, temporal length kept; n zero channels are added only by res_2_0 and res_3_0 |
| PlanFacts.PlannedDelta | braindecode/models/eegresnet.py:149-176 | only the opening units of blocks 2 and 3 change the width, each by n channels |
| PlanFacts.PlannedUnitBuilds | braindecode/models/eegresnet.py:312-319 | a planned unit constructs iff n is even or it is not res_2_0/res_3_0; a failure is the channel-delta assertion; a success is the planned block |
| PlanFacts.PlannedForward | braindecode/models/eegresnet.py:353-361 | for even n, res_2_0 and res_3_0 put n/2 zero channels on each side of their input, every other unit adds none, and every unit's output has its out-channels |
| PlanFacts.ArgsUpToArgs | braindecode/models/eegresnet.py:142-244 | blocks 1..b hold the stated number of units, each a res_b_u with the planned arguments |
| PlanFacts.ArgsUpToOrder | braindecode/models/eegresnet.py:142-244 | units are listed in strictly increasing (block, unit) order |
| PlanFacts.NamesIncreasePairwise | braindecode/models/eegresnet.py:142-244 | step-by-step increase of (block, unit) gives increase between any two units |
| PlanFacts.ArgsUpToNames | braindecode/models/eegresnet.py:142-244 | blocks 1..b are named exactly res_bb_u for 1 <= bb <= b and u below the block's unit count |
| PlanFacts.UnitCount | braindecode/models/eegresnet.py:142-244 | blocks 1..b hold range(L) units in block 1 plus max(L, 1) units in each later block |
| PlanFacts.TotalUnitCount | braindecode/models/eegresnet.py:142-244 | the network has 7L residual units when L >= 1 and 6 otherwise |
| PlanFacts.BuildUnitsShape | braindecode/models/eegresnet.py:142-244 | building the units succeeds iff every unit's constructor does; success yields one residual unit per argument in order; failure reports the first failing unit |
| PlanFacts.UnitsBuildWhenEven | braindecode/models/eegresnet.py:140-244 | with an even first filter count every unit constructs |
| PlanFacts.UnitsFailWhenOdd | braindecode/models/eegresnet.py:150-157 | with an odd first filter count res_2_0 is the first unit to fail, on its channel-delta assertion |
| PlanFacts.PlanOutcome | braindecode/models/eegresnet.py:78-80 | construction fails for "auto" pooling without n_times, then for an even first filter length, then at res_2_0 for an odd n_first_filters, in that order; it succeeds iff none of these holds |
| PlanFacts.UnitsIncrease | braindecode/models/eegresnet.py:142-244 | units built from increasing names are registered under increasing keys |
| PlanFacts.UnitsInRange | braindecode/models/eegresnet.py:142-244 | every registered unit is res_b_u with 1 <= b <= 7, in increasing order |
| PlanFacts.UnitsShape | braindecode/models/eegresnet.py:142-244 | the units of a successful plan: their count, exactly the names res_b_u with u below the block's count, in order, each the planned unit for its name |
| PlanFacts.StemOrder | braindecode/models/eegresnet.py:96-138 | the stem's names come in registration order, all before the residual units |
| PlanFacts.PlanShape | braindecode/models/eegresnet.py:96-273 | a built network is the stem, its residual units, `mean_pool` (dilated (64, 1) for a fixed length) and the classifier on 3n channels |
| PlanFacts.KeysIncreaseJoin | braindecode/models/eegresnet.py:96-273 | registries in order whose keys are separated by a bound concatenate into a registry in order |
| PlanFacts.PlanKeysIncrease | braindecode/models/eegresnet.py:96-273 | every name of a built network is registered once, in registration order, so no `add_module` replaced an earlier module |
| WeightsInit.InitModule | braindecode/models/eegresnet.py:286-293 | a class with "Conv" other than AvgPool2dWithConv gets its weight drawn and a present bias set to 0; otherwise a "BatchNorm" class gets weight 1 and bias 0; any other class is returned unchanged; a selected module without a weight raises on the weight, a batch normalisation with a weight but no bias raises on the bias; the class name never changes |
| WeightsInit.InitAllShape | braindecode/models/eegresnet.py:276 | initialising a module list succeeds iff every module does, and then initialises each in place; otherwise it raises the first module's error |
| WeightsInit.ApplyWeightsInit | braindecode/models/eegresnet.py:276 | the in-place loop over the modules gives the fold's result; on failure the modules before the failing one are initialised and the rest untouched |
| WeightsInit.NetworkModules | braindecode/models/eegresnet.py:276 | the modules `self.apply` visits: each registered module's children before the module, in registration order, and the network itself last; `EntriesModulesAppend` and `PlanInitialises` state its properties |
| WeightsInit.EntriesModulesAppend | braindecode/models/eegresnet.py:276 | the post-order module list of a concatenated registry is the concatenation of the lists |
| WeightsInit.ConvSelected | braindecode/models/eegresnet.py:287 | `Conv2d` is selected as a convolution |
| WeightsInit.BatchNormSelected | braindecode/models/eegresnet.py:287-291 | `BatchNorm2d` is not a convolution but is selected as a batch normalisation |
| WeightsInit.PoolWithConvUntouched | braindecode/models/eegresnet.py:287 | `AvgPool2dWithConv` is excluded by name and left alone |
| WeightsInit.OtherClassesUntouched | braindecode/models/eegresnet.py:287-291 | every layer class of the network other than Conv2d, BatchNorm2d and the activation (Ensure4d, Rearrange, _ResidualBlock, AdaptiveAvgPool2d, AvgPool2dWithConv, Sequential, SqueezeFinalOutput) is left alone |
| WeightsInit.EluUntouched | braindecode/models/eegresnet.py:287-291 | the residual units' ELU is left alone |
| WeightsInit.EntriesInit | braindecode/models/eegresnet.py:276 | a registry's modules can all be initialised iff each registered layer's can |
| WeightsInit.ActivationInit | braindecode/models/eegresnet.py:138 | an activation module, having no parameters, can be initialised iff its class is neither a convolution nor a batch normalisation by name |
| WeightsInit.UnitInit | braindecode/models/eegresnet.py:321-351 | a residual unit with an untouched nonlinearity can be initialised entirely |
| WeightsInit.NestedInit | braindecode/models/eegresnet.py:259-273 | a container of convolution and parameter-free layers can be initialised |
| WeightsInit.StemInit | braindecode/models/eegresnet.py:96-138 | the stem can be initialised iff the configured activation class is untouched |
| WeightsInit.UnitsInit | braindecode/models/eegresnet.py:142-244 | all residual units of a successful plan can be initialised |
| WeightsInit.PlanInitialises | braindecode/models/eegresnet.py:276 | initialising a built network succeeds iff the configured activation class is untouched by the dispatch |
| WeightsInit.InitAllEffect | braindecode/models/eegresnet.py:286-293 | after a successful initialisation each Conv2d has a drawn weight and a zero bias if it has one; each BatchNorm2d has weight 1 and bias 0; every untouched module is unchanged |
| WeightsInit.Construct | braindecode/models/eegresnet.py:68-276 | the constructor end to end fails exactly as the plan does, then as the dispatch does; it succeeds iff the plan succeeds and the activation class is untouched, and returns the plan's modules and their initialised parameters |

## Left out

- Tensor numerics are not modelled: convolution, batch normalisation, activations, pooling and the element-wise sum. `Forward` takes the branch output and the sum and nonlinearity as parameters, and channels are opaque values.
- Parameter values are not modelled. A parameter is recorded only as framework default, drawn by the convolution initialiser, or filled with a constant. The `kaiming_normal_` initialiser is random and floating point.
- The batch-norm momentum and epsilon are left out, and so is the stem's hard-coded `eps=1e-5`. The `eval()`/`train()` mode switches are left out too. These are floating-point hyperparameters and framework state.
- `int(1.5 * x)` is modelled as three halves truncated toward zero, exactly, with no floating-point rounding. For the x = 2n it is applied to, this equals 3n.
- `EEGModuleMixin`, `Ensure4d`, `Rearrange`, `AvgPool2dWithConv` and `SqueezeFinalOutput` are not part of this model. They appear as opaque layer tags. Resolving n_chans, n_outputs and n_times from the mixin's arguments is taken as given in `Config`.
- WeightsInit.InitModule: a failing module is returned unchanged. The source's batch-normalisation branch has already filled the weight with 1 when a missing bias raises, so `ApplyWeightsInit` leaves that module as it was where the source leaves it partly written. Also, a module without a `bias` attribute is treated like one whose bias is None, so the convolution branch succeeds where the source raises `AttributeError`. Neither case arises for the network's own modules.
- Activation classes are assumed to have no `weight` or `bias` parameters. An activation with parameters (such as PReLU's `weight`) is not distinguished.
- The static `mapping` dictionary (lines 91-94) is a constant table for loading old checkpoints and plays no part in construction.
- The framework's own checks are not modelled. These include rejecting non-positive channel counts and validating module names in `add_module`.
- Residual.Forward: the forward pass of a unit whose output is narrower than its input is only stated to fail on negative padding, not modelled further.
