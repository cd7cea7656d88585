# Progressive-growing style generator of tf-alae, modelled in Dafny

This project models the discrete bookkeeping of the style-based `Generator`
from the StyleALAE variant of an Adversarial Latent Autoencoder
(`models/stylealae/generator.py`):

- the construction schedule: one block configuration and one to-RGB head per
  level, with channels `init_channels * 2^(num_layer-1)` halved by `//= 2`
  each level and capped at `max_channels`, a pre-convolution for every block
  but the first, and the `repeat` upsampling policy while the block's
  resolution is below 128 (`deconv` from there on);
- the constant base map's shape `[1, 4, 4, c]`;
- the mutable training `level`, initially `num_layer - 1`, changed only by
  `set_level`;
- `level_variables()`, the head's variables followed by those of the active
  blocks, with variables as abstract ids;
- the shape contract of `Generator.Block.call` and `Generator.call`: a block
  doubles height and width iff it has a pre-convolution and emits `out_dim`
  channels, and the generator's output at level `k` is
  `[B, 2^(k+2), 2^(k+2), out_channels]`.

Modules:

- `Wrappers` (`wrappers.dfy`): `Option`, where `None` stands for a Python exception.
- `PyList` (`pylist.dfy`): Python's `lst[i]` and `lst[:e]` rules, which the
  generator uses with an unchecked `level`.
- `GeneratorBlock` (`block.dfy`): `BlockConfig`, `Upsample`, tensor `Shape`,
  per-dimension broadcasting, and the block's shape transformer `BlockShape`.
- `GeneratorSchedule` (`schedule.dfy`): the closed-form schedule, the forward
  pass as a fold of block shape transformers (`ApplyBlocks`, `Forward`) and the
  level variable list (`LevelVars`), with the lemmas about them.
- `StyleGenerator` (`generator.dfy`): `class Generator`. Its constructor runs
  the source's loop and is proved to build the closed-form schedule.
  `SetLevel` changes only `level`. `LevelVariables` and `Call` (with its
  block loop `ActiveBlocks`) run the source's loops and are proved against
  `LevelVars`, `Forward` and `HeadsAfter`.

The docstring of `set_level` (models/stylealae/generator.py:48) says that
`level` lies in `[0, num_layer)`, but the code never checks this: `set_level`
stores any integer. `level_variables` and `call` then use Python indexing.
`to_rgb[level]` raises for `level >= num_layer` or `level < -num_layer`, and a
negative level in range wraps around. The model keeps `level` an
unconstrained `int` and gives both operations these semantics. Every
contract also states the in-range case.

Keras layers are stateful: a layer builds its weights at its first call, for
that call's input width, and later calls with another width raise. The to-RGB
heads can meet this. At level -1, `blocks[:0]` is empty, so head
`num_layer - 1` receives the constant, whose channels are block 0's. At the
initial level the same head receives block `num_layer - 1`'s channels. So
each `ToRgb` records the input width its kernel was built for, and `Call`
builds the head it uses. Blocks never meet this, because every call feeds
block `i` the same height, width and channel count; only the batch follows
the styles. `ScheduleForward` proves that.

## Model

| member | source | states |
|---|---|---|
| StyleGenerator.Generator.constructor | models/stylealae/generator.py:21-43 | the loop builds exactly `num_layer` blocks equal to the closed-form schedule and `num_layer` unbuilt heads with `out_channels` filters; `level == num_layer - 1`; the constant is `[1, 4, 4, c]` with `c` block 0's channels |
| StyleGenerator.Generator.SetLevel | models/stylealae/generator.py:45-50 | stores the new level; blocks and heads are unchanged, the schedule invariant is kept, and the frame allows only `level` to change |
| StyleGenerator.Generator.LevelVariables | models/stylealae/generator.py:52-60 | the accumulating loop returns `LevelVars`: head `level`'s variables then blocks `0..level`'s in order; it fails exactly when `to_rgb[level]` raises |
| StyleGenerator.Generator.Call | models/stylealae/generator.py:62-77 | the block-by-block loop returns `Forward` of the current state and builds the used head as `HeadsAfter` says. It succeeds exactly when `-num_layer <= level < num_layer` and the selected head accepts its input width. At level `k` in `[0, num_layer)` with head `k` accepting block `k`'s width, the output is `[B, 2^(k+2), 2^(k+2), out_channels]` and head `k` is built for block `k`'s width. The reachable-heads invariant is kept |
| StyleGenerator.Generator.ActiveBlocks | models/stylealae/generator.py:72-75 | the loop over `blocks[:level + 1]` from the constant returns exactly the head's input `HeadInput`; its channels are those of the last active block, or the constant's when the slice is empty |
| StyleGenerator.InitialAndGrown | models/stylealae/generator.py:62-77 | a freshly built generator outputs `2^(num_layer+1)`-square images, and after `set_level(k)` with `k` in `[0, num_layer)` it outputs `2^(k+2)`-square ones |
| GeneratorBlock.BlockShape | models/stylealae/generator.py:124-170 | a block that succeeds emits `out_dim` channels and doubles height and width iff it has a pre-convolution |
| GeneratorBlock.BlockShapeContract | models/stylealae/generator.py:124-170 | a block succeeds exactly when input channels and batches broadcast; then it doubles H and W iff `preconv`, under either upsampling policy, and emits `out_dim` channels |
| GeneratorBlock.BlockShapeSameStyle | models/stylealae/generator.py:124-170 | with one style batch `B` for both injections and input channels that fit (any `C` with a pre-convolution; without one, `C` must broadcast with `out_dim`), `[1 or B, H, W, C]` becomes `[B, 2H, 2W, out_dim]` with a pre-convolution and `[B, H, W, out_dim]` without |
| GeneratorBlock.SplitStyle | models/stylealae/generator.py:146-151 | the `2*out_dim` projected style values, reshaped row-major to `[2, out_dim]`, split into a bias half and a scale half of width `out_dim` that together are the projection |
| GeneratorSchedule.BlockAt | models/stylealae/generator.py:36-40 | block `i` has `out_dim` equal to `max_channels` or to `init_channels * 2^(num_layer-1-i)`, whichever is smaller, and has a pre-convolution iff `i > 0` |
| GeneratorSchedule.Schedule | models/stylealae/generator.py:33-42 | `num_layer` blocks, each within the channel cap, only block 0 without a pre-convolution |
| GeneratorSchedule.ConstShape | models/stylealae/generator.py:28-31 | the constant base map has shape `[1, 4, 4, c]` with `c` block 0's `out_dim` |
| GeneratorSchedule.Heads | models/stylealae/generator.py:43 | one to-RGB head per level, each with `out_channels` filters and not yet built |
| GeneratorSchedule.HeadShape | models/stylealae/generator.py:77 | defines the head's behaviour, as a leaf for the Keras `Conv2D` it models: it keeps batch, height and width and emits its filters, and fails exactly when its kernel was built for another input width |
| GeneratorSchedule.ChannelsNonIncreasing | models/stylealae/generator.py:29-41 | block channels are non-increasing in the block index and never exceed `max_channels` |
| GeneratorSchedule.HalvingBelowCap | models/stylealae/generator.py:36-41 | a block below the cap has exactly twice the channels of the next block |
| GeneratorSchedule.HalveChannels | models/stylealae/generator.py:41 | `channels //= 2` takes block `i`'s uncapped count `init_channels * 2^(num_layer-1-i)` to block `i+1`'s |
| GeneratorSchedule.UpsampleRule | models/stylealae/generator.py:38-42 | block `i` uses `repeat` exactly when `i < 5`, i.e. its resolution `4 * 2^i` is below 128, and `deconv` otherwise |
| GeneratorSchedule.ApplyBlocks | models/stylealae/generator.py:72-75 | no blocks leave the constant as it is; a successful run of blocks ends with the last block's channels |
| GeneratorSchedule.Forward | models/stylealae/generator.py:72-77 | a successful forward pass used a level Python accepts for `to_rgb[level]` and ends with that head's filters |
| GeneratorSchedule.HeadsAfter | models/stylealae/generator.py:77 | a call changes no head when it fails, and leaves the number of heads unchanged |
| GeneratorSchedule.ScheduleForward | models/stylealae/generator.py:71-75 | the first `k` scheduled blocks never fail from the constant and give `[B, 2^(k+1), 2^(k+1), out_dim of block k-1]`, so every block sees the same height, width and channel count at every call; only the batch follows the styles |
| GeneratorSchedule.ForwardDefined | models/stylealae/generator.py:72-77 | the forward pass succeeds exactly when `-num_layer <= level < num_layer` and the selected head accepts the width it receives: block `level`'s after wrapping, or block 0's at level -1. It then builds only that head, for that width |
| GeneratorSchedule.HeadsAfterReachable | models/stylealae/generator.py:62-77 | calls keep each head unbuilt, built for its own block's width, or, for the last head only, built for the constant's |
| GeneratorSchedule.OutputShape | models/stylealae/generator.py:62-77 | at level `k` in `[0, num_layer)`, with head `k` accepting block `k`'s width, the forward pass gives `[B, 2^(k+2), 2^(k+2), filters]` and builds head `k` for block `k`'s width |
| GeneratorSchedule.CallOutcome | models/stylealae/generator.py:62-77 | from reachable heads, one call succeeds exactly as `ForwardDefined` says and keeps the heads reachable. At an in-range level whose head accepts its block's width, it outputs `[B, 2^(k+2), 2^(k+2), out_channels]` and builds that head |
| GeneratorSchedule.InRangeCallsSucceed | models/stylealae/generator.py:72-77 | from reachable heads, a call at a level in `[0, num_layer)` fails exactly when it is the last level, that head was built at level -1, and block 0 and the last block differ in channels |
| GeneratorSchedule.NegativeLevelWraps | models/stylealae/generator.py:73-77 | a level in `[-num_layer, -2]` behaves as level `num_layer + level`, in its output and in the head it builds |
| GeneratorSchedule.LevelMinusOne | models/stylealae/generator.py:72-77 | level -1 applies the last head to the bare constant: `[1, 4, 4, filters]` whatever the style batch if that head accepts block 0's width, otherwise a failure |
| GeneratorSchedule.LevelMinusOneAfterInitialCall | models/stylealae/generator.py:26-77 | after a first call at the initial level, a call at level -1 succeeds exactly when block 0 and the last block have equal channels |
| GeneratorSchedule.BlockVars | models/stylealae/generator.py:58-59 | the variables of blocks `0..k-1` end with block `k-1`'s, and no block's list is longer than the whole |
| GeneratorSchedule.LevelVars | models/stylealae/generator.py:57-60 | `level_variables` is defined exactly for `-num_layer <= level < num_layer` and starts with the selected head's variables |
| GeneratorSchedule.BlockVarsPrefix | models/stylealae/generator.py:58-59 | the variables of fewer leading blocks are a prefix of those of more |
| GeneratorSchedule.BlockVarsMembers | models/stylealae/generator.py:58-59 | a variable is among blocks `0..k-1`'s exactly when one of those blocks owns it |
| GeneratorSchedule.LevelVarsMembers | models/stylealae/generator.py:52-60 | at a level in range, a variable is listed iff head `level` or one of blocks `0..level` owns it, so blocks above the level contribute nothing |
| GeneratorSchedule.LevelVarsGrow | models/stylealae/generator.py:52-60 | raising the level only extends the block part of the list; with equally sized heads the list never shrinks |
| GeneratorSchedule.LevelVarsPythonIndexing | models/stylealae/generator.py:57-58 | `level_variables` fails exactly when `to_rgb[level]` raises; levels in `[-num_layer, -2]` wrap; level -1 gives only the last head's variables |
| PyList.Index | models/stylealae/generator.py:57 | `to_rgb[level]` reads a position below the length, `level` itself or `level + len` for a negative level, and raises exactly outside `[-len, len)` |
| PyList.SliceEnd | models/stylealae/generator.py:58 | `blocks[:level + 1]` never raises; its length is clamped into `[0, len]` and equals the end when the end is in range |

## Left out

- `models/alae.py` as a whole: TensorFlow orchestration. It covers gradient tapes, Keras `Sequential` composition, Adam optimizers, softplus/MSE losses and the gradient penalty (floating point), prior sampling (randomness) and checkpoints (I/O). Its variable-list concatenations and the call order of its passes are too thin to model without the library.
- The values computed by a block are not modelled, only their shapes. This covers convolutions, the transposed convolution, `Repeat2D`, `Blur`, `Normalize2D`, `AffineTransform`, leaky ReLU, the noise and the `bias + x * scale` modulation. The `utils` module defining `Repeat2D`, `Blur`, `Normalize2D` and `AffineTransform` is not part of this model. The model assumes `Blur` and `Normalize2D` keep the shape, `Repeat2D(2)` doubles H and W, and `AffineTransform([1, 1, 1, out_dim])` maps `[1, H, W, 1]` noise to `[1, H, W, out_dim]`.
- Each layer's `trainable_variables` is a Keras call. It is the parameter `varsOf`, a function from block or head to a list of abstract ids. The model assumes `trainable_variables` returns a fresh list, so `var +=` does not alias a head's own list.
- StyleGenerator.Generator.LevelVariables: takes each layer's variables from `varsOf` whether or not the layer has been built. Keras reports no variables for a layer before its first call, and the model does not make the result depend on which layers a previous `call` built.
- StyleGenerator.Generator.constructor: requires `num_layer >= 1`. With `num_layer == 0` there are no heads and `level == -1`, so every later `call` and `level_variables` raises at `to_rgb[-1]`. Also, Python computes `2 ** -1 == 0.5`, so the constant's extent `min(max_channels, init_channels * 0.5)` is a float unless it is capped. The channel counts are `nat`, ruling out negative arguments, which Python would pass on to TensorFlow and TensorFlow would reject.
- Zero channel counts are not rejected. The model does not represent what Keras does with zero-filter layers or reshaping an empty style projection.
- The style vectors' width (`latent_dim`) is not tracked. Each block's dense projections build their kernels for the width of the first styles they see, and a later call with other-width styles raises. The model does not record that; only the style batch enters the shapes.
- `upsample` is the two-valued `Upsample`, because the constructor only ever passes `'repeat'` or `'deconv'`. The source's fall-through for any other string is not modelled.
- The `gain=` keyword arguments of the Keras layers (lines 43, 116, 122) and the `transform_kernel=True` keyword (line 108) are non-standard layer options, weight-initialisation details, and are not modelled.
- The comment at `models/stylealae/generator.py:74` gives the channels after block `i` as `in_dim / 2^(i+1)`. That is one halving more than the constructor produces. The model follows the constructor.
