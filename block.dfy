/** One progressive-growing stage of the style-based generator
    (`Generator.Block`): its configuration and its effect on the shape of a
    `[batch, height, width, channels]` feature map. The values flowing through
    the convolutions, noise injections and style modulations are not modelled. */
module GeneratorBlock {
  import opened Wrappers

  /** Upsampling policy of the pre-convolution. */
  datatype Upsample = Repeat | Deconv

  /** What `Generator.Block.__init__` keeps: output channels, whether the
      block upsamples first, and how. */
  datatype BlockConfig = BlockConfig(outDim: nat, preconv: bool, upsample: Upsample)

  /** Shape of a rank-4 tensor `[batch, height, width, channels]`. */
  datatype Shape = Shape(batch: nat, height: nat, width: nat, channels: nat)

  /** Broadcasting of one dimension in an element-wise operation: equal
      extents, or one side of extent 1 stretched to the other; anything else
      is a shape error. */
  function Broadcast(a: nat, b: nat): (r: Option<nat>)
    ensures r.Some? <==> a == b || a == 1 || b == 1
    ensures r.Some? ==> (r.value == a || r.value == b)
    ensures r.Some? ==> (a != 1 ==> r.value == a) && (b != 1 ==> r.value == b)
  {
    if a == b || b == 1 then Some(a)
    else if a == 1 then Some(b)
    else None
  }

  /** `Repeat2D(2)` followed by a 3x3, stride-1, 'SAME' convolution with
      `outDim` filters. */
  function RepeatUpsample(x: Shape, outDim: nat): Shape
  {
    var repeated := Shape(x.batch, 2 * x.height, 2 * x.width, x.channels);
    Shape(repeated.batch, repeated.height, repeated.width, outDim)
  }

  /** A 3x3 transposed convolution with stride 2 and 'SAME' padding: every
      spatial extent is multiplied by the stride. */
  function DeconvUpsample(x: Shape, outDim: nat): Shape
  {
    Shape(x.batch, 2 * x.height, 2 * x.width, outDim)
  }

  /** The pre-convolution chosen by the policy, then the blur, which keeps
      the shape. */
  function Preconv(cfg: BlockConfig, x: Shape): Shape
  {
    match cfg.upsample
    case Repeat => RepeatUpsample(x, cfg.outDim)
    case Deconv => DeconvUpsample(x, cfg.outDim)
  }

  /** The shape of the bias and of the scale in the style modulation,
      `s[:, k, None, None, :]` for `k` = 0 and 1. Its channel extent is the
      width `outDim` of either half that `SplitStyle` cuts from a sample's
      projection. */
  function StyleFactor(styleBatch: nat, outDim: nat): Shape
  {
    Shape(styleBatch, 1, 1, outDim)
  }

  /** One noise-and-style sub-stage. The `[1, H, W, 1]` noise goes through an
      affine transform of shape `[1, 1, 1, outDim]` and is added to `x`;
      leaky ReLU and normalisation keep the shape; then `bias + x * scale`
      with `bias` and `scale` of shape `StyleFactor`, `[styleBatch, 1, 1, outDim]`. */
  function StyleStage(x: Shape, outDim: nat, styleBatch: nat): Option<Shape>
  {
    var noised := Broadcast(x.channels, outDim);
    if noised.None? then None
    else
      var factor := StyleFactor(styleBatch, outDim);
      var batch := Broadcast(x.batch, factor.batch);
      var channels := Broadcast(noised.value, factor.channels);
      if batch.None? || channels.None? then None
      else Some(Shape(batch.value, x.height, x.width, channels.value))
  }

  /** `Generator.Block.call(x, s1, s2)` on shapes: optional pre-convolution,
      the first sub-stage with style `s1`, a 3x3 stride-1 convolution with
      `outDim` filters, the second sub-stage with style `s2`. */
  function BlockShape(cfg: BlockConfig, x: Shape, s1Batch: nat, s2Batch: nat): (r: Option<Shape>)
    ensures r.Some? ==> r.value.channels == cfg.outDim
    ensures r.Some? ==> r.value.height == (if cfg.preconv then 2 * x.height else x.height)
    ensures r.Some? ==> r.value.width == (if cfg.preconv then 2 * x.width else x.width)
  {
    var x1 := if cfg.preconv then Preconv(cfg, x) else x;
    var x2 := StyleStage(x1, cfg.outDim, s1Batch);
    if x2.None? then None
    else StyleStage(Shape(x2.value.batch, x2.value.height, x2.value.width, cfg.outDim), cfg.outDim, s2Batch)
  }

  /** The input channels are usable: the pre-convolution maps any channel
      count to `outDim`; without it the input must broadcast with `outDim`. */
  predicate ChannelsFit(cfg: BlockConfig, x: Shape)
  {
    cfg.preconv || Broadcast(x.channels, cfg.outDim).Some?
  }

  /** The feature-map batch broadcasts with the first style batch, and the
      result with the second. */
  predicate BatchesFit(batch: nat, s1Batch: nat, s2Batch: nat)
  {
    var b := Broadcast(batch, s1Batch);
    b.Some? && Broadcast(b.value, s2Batch).Some?
  }

  /** The block's shape contract: it succeeds exactly when channels and
      batches fit, and then it doubles height and width iff it has a
      pre-convolution (whichever upsampling policy it uses) and emits
      `outDim` channels. */
  lemma BlockShapeContract(cfg: BlockConfig, x: Shape, s1Batch: nat, s2Batch: nat)
    ensures BlockShape(cfg, x, s1Batch, s2Batch).Some?
        <==> ChannelsFit(cfg, x) && BatchesFit(x.batch, s1Batch, s2Batch)
    ensures BlockShape(cfg, x, s1Batch, s2Batch).Some? ==>
      var h := if cfg.preconv then 2 * x.height else x.height;
      var w := if cfg.preconv then 2 * x.width else x.width;
      BlockShape(cfg, x, s1Batch, s2Batch).value
        == Shape(Broadcast(Broadcast(x.batch, s1Batch).value, s2Batch).value, h, w, cfg.outDim)
  {
  }

  /** With one style batch `s` for both injections (as the generator calls
      it), a feature map of batch 1 or `s` comes out with batch `s`. */
  lemma BlockShapeSameStyle(cfg: BlockConfig, x: Shape, s: nat)
    requires ChannelsFit(cfg, x)
    requires x.batch == 1 || x.batch == s
    ensures BlockShape(cfg, x, s, s)
         == Some(Shape(s, if cfg.preconv then 2 * x.height else x.height,
                          if cfg.preconv then 2 * x.width else x.width, cfg.outDim))
  {
    BlockShapeContract(cfg, x, s, s);
  }

  /** The style projection of one sample, `2 * outDim` values reshaped to
      `[2, outDim]` in row-major order: row 0 is the bias, row 1 the scale. */
  function SplitStyle<T>(p: seq<T>, outDim: nat): (r: (seq<T>, seq<T>))
    requires |p| == 2 * outDim
    ensures |r.0| == outDim && |r.1| == outDim
    ensures forall j :: 0 <= j < outDim ==> r.0[j] == p[j] && r.1[j] == p[outDim + j]
    ensures r.0 + r.1 == p
  {
    (p[..outDim], p[outDim..])
  }
}
