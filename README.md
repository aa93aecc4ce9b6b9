# Styled progressive GAN: growth registry, forward bookkeeping, gradient map

This project models the part of DrumGAN's `gans/transform_styled_conv_net.py`
that the file itself owns: the structure of a progressively grown,
style-modulated generator (`TStyledGNet`) and of its paired-input
discriminator (`TStyledDNet`). The layers come from a library outside this model,
so they appear as shape descriptors: channels in and out, kernel, padding and
fan-in. The model keeps the bookkeeping around them:

- `shapes.dfy` (module `Shapes`) holds the descriptors of the styled
  convolution block, the equalized convolution and the equalized linear layer.
  It also holds the shape rule a stride-1 convolution applies to its input.
- `generator.dfy` (module `Generator`) holds the class `StyledGenerator`.
  Its fields are the three parallel lists `scalesDepth`, `scaleLayers` and
  `toRGBLayers`, the format layer, the style mapping stack and the
  gradient-map flag. The init hooks and `AddScale` append to these fields in
  place. `Forward` walks the stages and records, for each stage, the channel
  count it receives and produces and the noise it reads. `AddGradMap`
  overwrites channel 0 of a 4-D `array4<real>` buffer with the ramp
  `linspace(0, 1, H)`, taken as the exact value `r/(H-1)`, or `0` when `H = 1`.
- `discriminator.dfy` (module `Discriminator`) holds the class
  `StyledDiscriminator`. Its constructor doubles the input channel count and
  forces minibatch statistics off. `Forward` visits the registered groups in
  reverse order and counts `shift` down through `inputSizes`. It then
  flattens the map and checks the flat width against the scale-0 linear
  layer's fan-in. The functions `GroupShape` (one group's layers applied in
  order) and `Traverse` (all groups, last to first, each followed by its
  resize) state what the loops compute.

Assumptions about collaborators that are not modelled:

- The base-class constructors are not part of this model. Each constructor
  here takes their effect as given: `scalesDepth` starts as `[depthScale0]`,
  the layer lists start empty, and the hooks run once.
- The per-scale sizes `outputSizes` and `inputSizes` are constructor
  parameters. They must be non-empty because the file reads
  `outputSizes[-1]` and `inputSizes[0]`.
- Building a layer never fails. The library constructors that the init
  hooks and `addScale` call are taken to return a layer for any arguments,
  including a zero or negative depth.
- A layer from the library fails (`ShapeError`) on an input whose channel
  count or width differs from the one it declares.
- A styled block accepts a noise tensor of any shape. Only the number of
  noise tensors matters to the generator's forward pass.
- An equalized convolution has stride 1. Along each axis its output extent
  is `n + 2*padding - kernel + 1`.
- `downScale` resizes a map to the size it is given.

Behaviour of the file that the model keeps:

- In the generator, `initScale0Layer` registers the scale-0 stage in
  `scaleLayers`. So `scalesDepth`, `scaleLayers` and `toRGBLayers` always
  have the same length.
- The constructor hard-codes `add_gradient_map` to true. It is not a
  configuration option.
- Every drawn noise tensor has the topmost size `outputSizes[-1]`.
- The format layer gets a freshly drawn tensor. `noise[i]` goes to the
  stage `scaleLayers[i]`, so the list needs one entry per stage.
- `addScale` itself does not check the new depth. Under the assumption that
  building a layer never fails, a zero or negative depth is registered like
  any other.
- In the discriminator, the group at index `g` is always downsampled to
  `inputSizes[g]`, because `shift` starts at `len(fromRGBLayers) - 2` and
  there is one fewer group than there are from-colour projections.

## Model

| member | source | states |
|---|---|---|
| Generator.StyledGenerator.constructor | gans/transform_styled_conv_net.py:21-44 | the gradient map is switched on; after construction the registry holds one depth, the scale-0 stage and its projection, and satisfies the registry invariant (parallel lengths, depth chain, style stack) |
| Generator.StyledGenerator.InitFormatLayer | gans/transform_styled_conv_net.py:46-61 | the format layer maps `dimOutput` channels to `scalesDepth[0]`, reading a `dimLatent`-wide style; nothing else changes |
| Generator.StyleLayers | gans/transform_styled_conv_net.py:63-70 | the built stack is one normalisation followed by `max(n_mlp, 0)` pairs (fully connected `dimLatent -> dimLatent`, leaky rectifier with slope 0.2), and maps a `dimLatent`-wide vector to a `dimLatent`-wide vector |
| Generator.StyledGenerator.InitStyleBlock | gans/transform_styled_conv_net.py:63-70 | the `style` field becomes that stack; the registry lists are unchanged |
| Generator.PairsKeepWidth | gans/transform_styled_conv_net.py:65-68 | any run of (fully connected d -> d, leaky rectifier) pairs keeps width d |
| Generator.StyleStackWidth | gans/transform_styled_conv_net.py:63-70 | the style stack accepts a latent of width `dimLatent` and yields `dimLatent`; any other width fails at the first fully connected layer (or passes through when `n_mlp <= 0`) |
| Generator.StyledGenerator.InitScale0Layer | gans/transform_styled_conv_net.py:72-87 | appends exactly one stage `scalesDepth[0] -> scalesDepth[0]` and one kernel-1 projection `scalesDepth[0] -> dimOutput`; depths, format layer and style unchanged |
| Generator.StyledGenerator.AddScale | gans/transform_styled_conv_net.py:89-117 | a list argument acts as its first element and an empty list fails with nothing registered; otherwise each list grows by exactly one, the earlier entries are unchanged, the new stage reads the previous top depth and writes the new depth, the new projection maps the new depth to `dimOutput` with kernel 1, and the registry invariant is preserved |
| Generator.StyledGenerator.DepthChain | gans/transform_styled_conv_net.py:72-117 | under the registry invariant the first stage reads what the format layer writes, each stage reads what the previous stage writes, and every projection reads its stage's output depth and writes `dimOutput` with kernel 1 |
| Generator.DrawNoise | gans/transform_styled_conv_net.py:134-137 | the drawn list has exactly the requested number of entries, all of the one noise shape |
| Generator.StyledGenerator.Forward | gans/transform_styled_conv_net.py:119-147 | succeeds exactly when the latent width is `dimLatent`, the auxiliary input has `dimOutput` channels and a supplied noise list has an entry for every stage (else a shape or index error); every drawn noise tensor is `(batch, 1, outputSizes[-1])`, a supplied noise list is used as given, an omitted noise list gets `len(toRGBLayers)` entries, the format layer gets a fresh draw, stage `i` reads `noise[i]` and receives the channel count it declares, the gradient map is applied after the format layer and after every stage exactly when it is enabled, and the image comes from the last projection, whose input is the last stage's output, with `dimOutput` channels |
| Generator.StyledGenerator.MeanStyle | gans/transform_styled_conv_net.py:161-164 | the batch-averaged style is one `dimLatent`-wide row for a `dimLatent`-wide latent, and fails on other widths when the stack has a fully connected layer |
| Generator.Ramp | gans/transform_styled_conv_net.py:153 | a ramp value lies in [0, 1], is 0 on the top row and, for two or more rows, 1 on the bottom row |
| Generator.RampIncreasing | gans/transform_styled_conv_net.py:153 | the ramp strictly increases from top to bottom |
| Generator.GradMapCellLaws | gans/transform_styled_conv_net.py:149-158 | the gradient-map step is idempotent, ignores the old channel-0 value when enabled, and is the identity when disabled or off channel 0 |
| Generator.StyledGenerator.AddGradMap | gans/transform_styled_conv_net.py:149-158 | when enabled, every cell `x[b, 0, r, c]` becomes the ramp value of row `r` and all cells of channels >= 1 keep their value; when disabled the buffer is unchanged |
| Discriminator.StyledDiscriminator.constructor | gans/transform_styled_conv_net.py:168-171 | the input channel count is twice the configured one, minibatch statistics are off whatever was asked, and the scale-0 registry satisfies the invariant |
| Discriminator.StyledDiscriminator.InitScale0Layer | gans/transform_styled_conv_net.py:173-187 | appends the kernel-1 projection `dimInput -> depthScale0`, the scale-0 convolution declared on `depthScale0` input channels, and the linear layer whose fan-in is `inputSizes[0][0] * inputSizes[0][1] * depthScale0` |
| Discriminator.StyledDiscriminator.InitDecisionLayer | gans/transform_styled_conv_net.py:189-193 | the decision layer reads `scalesDepth[0]` features; the lists are unchanged |
| Discriminator.ApplyGroup | gans/transform_styled_conv_net.py:205-206 | applying a group's layers one after another gives exactly the fold `GroupShape` of the convolution shape rule over the group: it keeps the batch, is the identity when empty, and fails with a shape error at the first layer that rejects its input (in particular on a first-channel mismatch) |
| Discriminator.ChainedGroupSucceeds | gans/transform_styled_conv_net.py:205-206 | a group of same-padded convolutions whose channels match end to end succeeds on any non-empty map, keeps its batch and size, and yields the last convolution's output channels |
| Discriminator.GroupShapeKeepsBatch | gans/transform_styled_conv_net.py:205-206 | a group's result keeps the batch when it succeeds, and a group only ever fails with a shape error |
| Discriminator.TraverseChained | gans/transform_styled_conv_net.py:204-208 | visiting reverse-chained groups last to first, each followed by a resize to `inputSizes[g]`, succeeds when there are enough positive sizes, and ends with the last group's channels at size `inputSizes[0]` |
| Discriminator.TraverseNeedsSizes | gans/transform_styled_conv_net.py:204-208 | the traversal succeeds only when there is an input size for every group (otherwise the read `inputSizes[shift]` fails) |
| Discriminator.StyledDiscriminator.VisitGroups | gans/transform_styled_conv_net.py:200-208 | the loop over `reversed(scaleLayers)` computes exactly the traversal `Traverse`; on success the groups are visited in reverse registration order, the i-th is downsampled to `inputSizes[len(fromRGBLayers)-2-i]`, the batch is kept, the map ends at size `inputSizes[0]` and `shift` ends at -1 |
| Discriminator.StyledDiscriminator.Forward | gans/transform_styled_conv_net.py:195-226 | succeeds exactly when the descent (last projection, traversal of every group, optional statistics channel) succeeds and the scale-0 convolution's output flattens to the linear fan-in, and otherwise returns the descent's own error, or a shape error when the scale-0 head rejects a successful descent; input channels differing from the last projection's fail; on success the groups are visited in reverse registration order, the i-th one is downsampled to `inputSizes[len(fromRGBLayers)-2-i]`, the targets end at `inputSizes[0]` and `shift` ends at -1, the scale-0 convolution receives `depthScale0` channels, the flat width equals the fan-in, and the result is the score `(batch, decision width)` plus the feature `(batch, depthScale0)` only when `getFeature` is set; with only scale 0 it succeeds exactly when the input matches the declared channels and the flat width matches the fan-in with minibatch statistics off; and every discriminator whose layers fit together succeeds |
| Discriminator.StyledDiscriminator.ScaleZeroDescent | gans/transform_styled_conv_net.py:195-226 | with only scale 0 registered, the decision layer is reached exactly when the input has `dimInput` channels and a non-empty size, minibatch statistics are off, and the scale-0 convolution's output is non-empty and flattens to the fan-in |
| Discriminator.StyledDiscriminator.ChainedDescent | gans/transform_styled_conv_net.py:195-216 | with same-padded convolutions, chained group channels ending at `depthScale0`, a positive input size per group and statistics off, the map reaching scale 0 is `(batch, depthScale0, inputSizes[0])` and the scale-0 head accepts it |

## Left out

- Tensor numerics are not modelled: convolution, linear maps, style modulation, noise injection, normalisation and leaky rectifiers. The layers are library code outside this model, so only their shapes are kept.
- Floating point is not modelled. The ramp is the exact rational `r/(H-1)`, not the rounded output of `linspace`. The batch average in `mean_style` is kept only as a shape.
- Randomness is not modelled. A noise draw is represented by its shape.
- Device placement (moving the ramp to the accelerator) and the debugger import are left out. Neither affects the structure.
- Base-class code is not part of this model: the base constructors, `DNet.addScale`, `downScale`, and how `outputSizes` and `inputSizes` are computed. Their effects are the assumptions listed above.
- Spatial sizes on the generator side are not modelled. How the styled blocks resize their input is decided inside the layer library.
- Batch consistency between the latent and the auxiliary input is not checked. That check would happen inside the layer library.
- The `scale`, `mean_style` and `style_weight` arguments of the generator's `forward` are accepted and never read. The model leaves them out of the signature.
- Descriptor flags that do not affect shapes are dropped: `transposed`, `equalized`, `initBiasToZero` and `noise_injection`.
- Discriminator.StyledDiscriminator.Forward: the groups added by the base class's `addScale` are not constrained by the registry invariant, so the success condition for a grown discriminator is stated through the traversal `Traverse` and the sufficient condition `LayersFit`, not as a closed formula over the layers.
- Generator.StyledGenerator.Forward: tracks channel counts, noise sources and the shapes of drawn noise, but not the spatial size of the image. The two gradient-map steps of the forward pass (gans/transform_styled_conv_net.py:142, 145) are recorded as a flag on each stage call; their effect on tensor values is what `AddGradMap` models, and they keep the shape. The shapes of a supplied noise list are never checked, because a styled block is taken to accept any noise tensor.
- Generator.StyledGenerator.AddScale: growth is atomic. In the file, `scalesDepth` is appended (gans/transform_styled_conv_net.py:100) before the stage and the projection are built (lines 101-117). If a layer constructor raised, for example on a non-positive depth, the file would keep the longer `scalesDepth` without its stage and projection and the three lists would no longer have equal length. The model assumes that building a layer never fails, so this partial growth is not represented.
