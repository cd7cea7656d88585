/** The progressive-growing style-based generator: its construction
    schedule, its mutable training level, the trainable variables of a
    level and the shape of its output. */
module StyleGenerator {
  import opened Wrappers
  import opened PyList
  import opened GeneratorBlock
  import opened GeneratorSchedule

  class Generator {
    const initChannels: nat
    const maxChannels: nat
    const numLayer: nat
    const outChannels: nat
    /** Shape of the constant base map (its values are not modelled). */
    const constShape: Shape
    var blocks: seq<BlockConfig>
    var toRgb: seq<ToRgb>
    /** The training level; `set_level` stores any integer without a check. */
    var level: int

    /** The object invariant: blocks are the closed-form schedule, heads are
        in a state calls can reach, and the constant matches the first block. */
    ghost predicate Valid()
      reads this
    {
      numLayer >= 1 &&
      blocks == Schedule(initChannels, maxChannels, numLayer) &&
      HeadsReachable(initChannels, maxChannels, numLayer, outChannels, toRgb) &&
      constShape == ConstShape(initChannels, maxChannels, numLayer)
    }

    /** `Generator.__init__`: the loop halves `channels` and doubles
        `resolution` while appending one block and one head per level. */
    constructor (initChannels: nat, maxChannels: nat, numLayer: nat, outChannels: nat)
      requires numLayer >= 1
      ensures Valid()
      ensures this.initChannels == initChannels && this.maxChannels == maxChannels
      ensures this.numLayer == numLayer && this.outChannels == outChannels
      ensures |blocks| == numLayer && toRgb == Heads(outChannels, numLayer)
      ensures level == numLayer - 1
      ensures constShape == Shape(1, 4, 4, blocks[0].outDim)
    {
      this.initChannels := initChannels;
      this.maxChannels := maxChannels;
      this.numLayer := numLayer;
      this.outChannels := outChannels;
      level := numLayer - 1;

      var resolution: nat := 4;
      var channels: nat := initChannels * Pow2(numLayer - 1);
      var outDim := Min(maxChannels, channels);
      constShape := Shape(1, resolution, resolution, outDim);

      blocks := [];
      toRgb := [];
      new;
      var i := 0;
      while i < numLayer
        invariant 0 <= i <= numLayer
        invariant resolution == 4 * Pow2(i)
        invariant i < numLayer ==> channels == initChannels * Pow2(numLayer - 1 - i)
        invariant blocks == Schedule(initChannels, maxChannels, numLayer)[..i]
        invariant toRgb == Heads(outChannels, numLayer)[..i]
        invariant level == numLayer - 1
      {
        outDim := Min(maxChannels, channels);
        ScheduleSnoc(initChannels, maxChannels, numLayer, i);
        blocks := blocks + [BlockConfig(outDim, i > 0, if resolution < 128 then Repeat else Deconv)];
        if i + 1 < numLayer {
          HalveChannels(initChannels, numLayer, i);
        }
        channels := channels / 2;
        resolution := resolution * 2;
        toRgb := toRgb + [ToRgb(outChannels, None)];
        i := i + 1;
      }
    }

    /** `set_level`: stores the level and changes nothing else. */
    method SetLevel(k: int)
      requires Valid()
      modifies this`level
      ensures Valid()
      ensures level == k
      ensures blocks == old(blocks) && toRgb == old(toRgb)
    {
      level := k;
    }

    /** `level_variables()`: the head's variables, then each block's in
        turn, for the blocks of `blocks[:level + 1]`; None where
        `to_rgb[level]` raises IndexError. `varsOf` stands for each layer's
        `trainable_variables`. */
    method LevelVariables(varsOf: Layer -> seq<VarId>) returns (r: Option<seq<VarId>>)
      requires Valid()
      ensures r == LevelVars(varsOf, numLayer, level)
      ensures r.Some? <==> -(numLayer as int) <= level < numLayer
      ensures 0 <= level < numLayer ==>
              r == Some(varsOf(HeadLayer(level)) + BlockVars(varsOf, level + 1))
    {
      var h := Index(|toRgb|, level);
      if h.None? {
        return None;
      }
      var vars := varsOf(HeadLayer(h.value));
      var end := SliceEnd(|blocks|, level + 1);
      var i := 0;
      while i < end
        invariant 0 <= i <= end
        invariant vars == varsOf(HeadLayer(h.value)) + BlockVars(varsOf, i)
      {
        BlockVarsStep(varsOf, varsOf(HeadLayer(h.value)), i);
        vars := vars + varsOf(BlockLayer(i));
        i := i + 1;
      }
      r := Some(vars);
    }

    /** The loop of `call` over `blocks[:level + 1]`: starting from the
        constant, each block maps the feature map to its successor. */
    method ActiveBlocks(styleBatch: nat) returns (x: Shape)
      requires Valid()
      ensures HeadInput(blocks, constShape, level, styleBatch) == Some(x)
      ensures x.channels == if level == -1 || level < -(numLayer as int) then constShape.channels
                            else blocks[SliceEnd(numLayer, level + 1) - 1].outDim
    {
      x := constShape;
      var end := SliceEnd(|blocks|, level + 1);
      var i := 0;
      while i < end
        invariant 0 <= i <= end
        invariant ApplyBlocks(blocks[..i], constShape, styleBatch) == Some(x)
      {
        ScheduleForward(initChannels, maxChannels, numLayer, styleBatch, i + 1);
        assert blocks[..i + 1][..i] == blocks[..i];
        x := BlockShape(blocks[i], x, styleBatch, styleBatch).value;
        i := i + 1;
      }
      ScheduleForward(initChannels, maxChannels, numLayer, styleBatch, end);
    }

    /** `call(styles)` on shapes, for styles of batch `styleBatch`: the
        blocks of `blocks[:level + 1]` from the constant, each fed the same
        styles twice, then `to_rgb[level]`, whose kernel the first call
        builds for its input width; None where the source raises. */
    method Call(styleBatch: nat) returns (r: Option<Shape>)
      requires Valid()
      modifies this`toRgb
      ensures Valid()
      ensures r == Forward(blocks, old(toRgb), constShape, level, styleBatch)
      ensures toRgb == HeadsAfter(blocks, old(toRgb), constShape, level, styleBatch)
      ensures r.Some? <==> -(numLayer as int) <= level < numLayer &&
                           HeadAccepts(old(toRgb)[Index(numLayer, level).value],
                                       HeadWidth(initChannels, maxChannels, numLayer, level))
      ensures 0 <= level < numLayer && HeadAccepts(old(toRgb)[level], blocks[level].outDim) ==>
              r == Some(Shape(styleBatch, Pow2(level + 2), Pow2(level + 2), outChannels)) &&
              toRgb == old(toRgb)[level := ToRgb(outChannels, Some(blocks[level].outDim))]
    {
      var x := ActiveBlocks(styleBatch);
      ghost var heads := toRgb;
      var h := Index(|toRgb|, level);
      if h.None? {
        r := None;
      } else {
        var head := toRgb[h.value];
        if head.kernelIn.Some? && head.kernelIn.value != x.channels {
          // the built kernel rejects an input of another width
          r := None;
        } else {
          toRgb := toRgb[h.value := ToRgb(head.filters, Some(x.channels))];
          r := Some(Shape(x.batch, x.height, x.width, head.filters));
        }
      }
      assert r == Forward(blocks, heads, constShape, level, styleBatch);
      assert toRgb == HeadsAfter(blocks, heads, constShape, level, styleBatch);
      CallOutcome(initChannels, maxChannels, numLayer, outChannels, heads, level, styleBatch);
    }
  }

  /** The initial level reproduces the documented output size
      `2^(num_layer+1)`; after `set_level(k)` the size is `2^(k+2)`. */
  method InitialAndGrown(initChannels: nat, maxChannels: nat, numLayer: nat, outChannels: nat,
                         styleBatch: nat, k: int)
    returns (initial: Option<Shape>, grown: Option<Shape>)
    requires numLayer >= 1 && 0 <= k < numLayer
    ensures initial == Some(Shape(styleBatch, Pow2(numLayer + 1), Pow2(numLayer + 1), outChannels))
    ensures grown == Some(Shape(styleBatch, Pow2(k + 2), Pow2(k + 2), outChannels))
  {
    var g := new Generator(initChannels, maxChannels, numLayer, outChannels);
    initial := g.Call(styleBatch);
    g.SetLevel(k);
    grown := g.Call(styleBatch);
  }
}
