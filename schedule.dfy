/** The generator's construction schedule in closed form, the shape of its
    forward pass as a fold of the block shape transformers, and the list of
    trainable variables of a training level. */
module GeneratorSchedule {
  import opened Wrappers
  import opened PyList
  import opened GeneratorBlock

  function Pow2(k: nat): (r: nat)
    ensures r >= 1
  {
    if k == 0 then 1 else 2 * Pow2(k - 1)
  }

  lemma {:induction false} Pow2Monotone(i: nat, j: nat)
    requires i <= j
    ensures Pow2(i) <= Pow2(j)
  {
    if i < j {
      Pow2Monotone(i, j - 1);
    }
  }

  function Min(a: nat, b: nat): nat
  {
    if a <= b then a else b
  }

  /** The configuration of block `i` in closed form: channels
      `initChannels * 2^(numLayer-1-i)` capped at `maxChannels`, a
      pre-convolution for every block but the first, and the repeat
      policy while the block's resolution `4 * 2^i` is below 128. */
  function BlockAt(initChannels: nat, maxChannels: nat, numLayer: nat, i: nat): (r: BlockConfig)
    requires i < numLayer
    ensures r.outDim <= maxChannels && r.outDim <= initChannels * Pow2(numLayer - 1 - i)
    ensures r.outDim == maxChannels || r.outDim == initChannels * Pow2(numLayer - 1 - i)
    ensures r.preconv <==> i > 0
  {
    BlockConfig(Min(maxChannels, initChannels * Pow2(numLayer - 1 - i)),
                i > 0,
                if 4 * Pow2(i) < 128 then Repeat else Deconv)
  }

  function Schedule(initChannels: nat, maxChannels: nat, numLayer: nat): (r: seq<BlockConfig>)
    ensures |r| == numLayer
    ensures forall i :: 0 <= i < numLayer ==> r[i].outDim <= maxChannels && (r[i].preconv <==> i > 0)
  {
    seq(numLayer, i requires 0 <= i < numLayer => BlockAt(initChannels, maxChannels, numLayer, i))
  }

  /** One step of the construction loop: `channels //= 2` takes block `i`'s
      uncapped channel count to block `i + 1`'s. */
  lemma HalveChannels(initChannels: nat, numLayer: nat, i: nat)
    requires i + 1 < numLayer
    ensures initChannels * Pow2(numLayer - 1 - i) / 2 == initChannels * Pow2(numLayer - 2 - i)
  {
    var p := Pow2(numLayer - 2 - i);
    assert initChannels * Pow2(numLayer - 1 - i) == 2 * (initChannels * p);
  }

  /** The schedule's first `i + 1` blocks extend its first `i` by block `i`. */
  lemma ScheduleSnoc(initChannels: nat, maxChannels: nat, numLayer: nat, i: nat)
    requires i < numLayer
    ensures Schedule(initChannels, maxChannels, numLayer)[..i + 1]
         == Schedule(initChannels, maxChannels, numLayer)[..i] + [BlockAt(initChannels, maxChannels, numLayer, i)]
  {
  }

  /** Shape of the constant base map: `[1, 4, 4, c]` with `c` the channels
      of the first block. */
  function ConstShape(initChannels: nat, maxChannels: nat, numLayer: nat): (r: Shape)
    requires numLayer >= 1
    ensures r == Shape(1, 4, 4, Schedule(initChannels, maxChannels, numLayer)[0].outDim)
  {
    Shape(1, 4, 4, Min(maxChannels, initChannels * Pow2(numLayer - 1)))
  }

  /** A to-RGB head: a 1x1 convolution with `filters` output channels.
      Keras builds its `[1, 1, C, filters]` kernel at the first call, for
      that call's input width `C`; `kernelIn` is None until then. */
  datatype ToRgb = ToRgb(filters: nat, kernelIn: Option<nat>)

  /** A head accepts an input of `width` channels when it is unbuilt or
      was built for that width. */
  predicate HeadAccepts(head: ToRgb, width: nat)
  {
    head.kernelIn.None? || head.kernelIn == Some(width)
  }

  /** The heads as the constructor appends them: one per level, each with
      `outChannels` filters and not yet built. */
  function Heads(outChannels: nat, numLayer: nat): (r: seq<ToRgb>)
    ensures |r| == numLayer
    ensures forall i :: 0 <= i < numLayer ==> r[i].filters == outChannels && r[i].kernelIn.None?
  {
    seq(numLayer, _ => ToRgb(outChannels, None))
  }

  /** Block channels never grow from one block to a later one and never
      exceed the cap. */
  lemma ChannelsNonIncreasing(initChannels: nat, maxChannels: nat, numLayer: nat, i: nat, j: nat)
    requires i <= j < numLayer
    ensures Schedule(initChannels, maxChannels, numLayer)[j].outDim
         <= Schedule(initChannels, maxChannels, numLayer)[i].outDim
         <= maxChannels
  {
    Pow2Monotone(numLayer - 1 - j, numLayer - 1 - i);
    MulMonotone(initChannels, Pow2(numLayer - 1 - j), Pow2(numLayer - 1 - i));
  }

  lemma MulMonotone(c: nat, a: nat, b: nat)
    requires a <= b
    ensures c * a <= c * b
  {
  }

  /** Below the cap, each block has exactly twice the channels of the next. */
  lemma HalvingBelowCap(initChannels: nat, maxChannels: nat, numLayer: nat, i: nat)
    requires i + 1 < numLayer
    requires Schedule(initChannels, maxChannels, numLayer)[i].outDim < maxChannels
    ensures Schedule(initChannels, maxChannels, numLayer)[i].outDim
         == 2 * Schedule(initChannels, maxChannels, numLayer)[i + 1].outDim
  {
    var p := Pow2(numLayer - 2 - i);
    assert Pow2(numLayer - 1 - i) == 2 * p;
    assert initChannels * (2 * p) == 2 * (initChannels * p);
  }

  /** The repeat policy is used exactly by the first five blocks
      (resolutions 4 to 64); from resolution 128 on it is the transposed
      convolution. */
  lemma UpsampleRule(initChannels: nat, maxChannels: nat, numLayer: nat, i: nat)
    requires i < numLayer
    ensures Schedule(initChannels, maxChannels, numLayer)[i].upsample == Repeat <==> i < 5
  {
    assert Pow2(5) == 32;
    if i < 5 {
      Pow2Monotone(i, 4);
    } else {
      Pow2Monotone(5, i);
    }
  }

  /** Shape of a to-RGB head's output, or None where the head raises. A
      1x1 convolution keeps batch, height and width and emits `filters`
      channels; once built, its kernel only accepts its input width. */
  function HeadShape(head: ToRgb, x: Shape): (r: Option<Shape>)
    ensures r.Some? <==> HeadAccepts(head, x.channels)
    ensures r.Some? ==> r.value == Shape(x.batch, x.height, x.width, head.filters)
  {
    if HeadAccepts(head, x.channels) then Some(Shape(x.batch, x.height, x.width, head.filters)) else None
  }

  /** The blocks `bs` applied in order to `x`, each with the same style batch
      for both of its style injections. */
  function ApplyBlocks(bs: seq<BlockConfig>, x: Shape, styleBatch: nat): (r: Option<Shape>)
    ensures bs == [] ==> r == Some(x)
    ensures bs != [] && r.Some? ==> r.value.channels == bs[|bs| - 1].outDim
    decreases |bs|
  {
    if bs == [] then Some(x)
    else
      var y := ApplyBlocks(bs[..|bs| - 1], x, styleBatch);
      if y.None? then None
      else
        BlockShapeContract(bs[|bs| - 1], y.value, styleBatch, styleBatch);
        BlockShape(bs[|bs| - 1], y.value, styleBatch, styleBatch)
  }

  /** What `to_rgb[level]` receives in `call`: the blocks of
      `blocks[:level + 1]` applied to the constant. */
  function HeadInput(blocks: seq<BlockConfig>, base: Shape, level: int, styleBatch: nat): Option<Shape>
  {
    ApplyBlocks(blocks[..SliceEnd(|blocks|, level + 1)], base, styleBatch)
  }

  /** `Generator.call` on shapes at a given level: the blocks of
      `blocks[:level + 1]` from the constant, then `to_rgb[level]`, with
      Python's slicing and indexing rules; None where the source raises. */
  function Forward(blocks: seq<BlockConfig>, heads: seq<ToRgb>, base: Shape, level: int, styleBatch: nat)
    : (r: Option<Shape>)
    ensures r.Some? ==> -|heads| <= level < |heads|
    ensures r.Some? ==> r.value.channels == heads[Index(|heads|, level).value].filters
  {
    var x := HeadInput(blocks, base, level, styleBatch);
    var h := Index(|heads|, level);
    if x.None? || h.None? then None else HeadShape(heads[h.value], x.value)
  }

  /** The heads after `call`: a successful call builds the kernel of
      `to_rgb[level]` for its input width; a failing one changes nothing. */
  function HeadsAfter(blocks: seq<BlockConfig>, heads: seq<ToRgb>, base: Shape, level: int, styleBatch: nat)
    : (r: seq<ToRgb>)
    ensures |r| == |heads|
    ensures Forward(blocks, heads, base, level, styleBatch).None? ==> r == heads
  {
    var x := HeadInput(blocks, base, level, styleBatch);
    var h := Index(|heads|, level);
    if x.None? || h.None? || HeadShape(heads[h.value], x.value).None? then heads
    else heads[h.value := ToRgb(heads[h.value].filters, Some(x.value.channels))]
  }

  /** Shape after the first `k` blocks of the schedule. */
  function AfterBlocks(initChannels: nat, maxChannels: nat, numLayer: nat, styleBatch: nat, k: nat): Shape
    requires 1 <= numLayer && k <= numLayer
  {
    if k == 0 then ConstShape(initChannels, maxChannels, numLayer)
    else Shape(styleBatch, Pow2(k + 1), Pow2(k + 1), Schedule(initChannels, maxChannels, numLayer)[k - 1].outDim)
  }

  /** Running the first `k` scheduled blocks from the constant never fails:
      the batch becomes the style batch, the resolution is `2^(k+1)` and the
      channels are block `k-1`'s. Every block therefore sees the same input
      width at every call. */
  lemma {:induction false} ScheduleForward(initChannels: nat, maxChannels: nat, numLayer: nat, styleBatch: nat, k: nat)
    requires 1 <= numLayer && k <= numLayer
    ensures ApplyBlocks(Schedule(initChannels, maxChannels, numLayer)[..k],
                        ConstShape(initChannels, maxChannels, numLayer), styleBatch)
         == Some(AfterBlocks(initChannels, maxChannels, numLayer, styleBatch, k))
  {
    var s := Schedule(initChannels, maxChannels, numLayer);
    var base := ConstShape(initChannels, maxChannels, numLayer);
    if k > 0 {
      ScheduleForward(initChannels, maxChannels, numLayer, styleBatch, k - 1);
      assert s[..k][..k - 1] == s[..k - 1];
      var x := AfterBlocks(initChannels, maxChannels, numLayer, styleBatch, k - 1);
      BlockShapeSameStyle(s[k - 1], x, styleBatch);
    }
  }

  /** The input width `to_rgb[level]` receives for a level Python accepts:
      block `level`'s channels (after wrapping a negative level), except at
      level -1, where `blocks[:0]` is empty and the head gets the constant. */
  function HeadWidth(initChannels: nat, maxChannels: nat, numLayer: nat, level: int): nat
    requires -(numLayer as int) <= level < numLayer
  {
    if level == -1 then Schedule(initChannels, maxChannels, numLayer)[0].outDim
    else Schedule(initChannels, maxChannels, numLayer)[Index(numLayer, level).value].outDim
  }

  /** The head states that calls can produce from unbuilt heads: head `i`
      has `outChannels` filters and is unbuilt, built for block `i`'s width,
      or (the last head only, through level -1) built for the constant's. */
  predicate HeadsReachable(initChannels: nat, maxChannels: nat, numLayer: nat, outChannels: nat, heads: seq<ToRgb>)
  {
    |heads| == numLayer &&
    forall i :: 0 <= i < numLayer ==>
      heads[i].filters == outChannels &&
      (HeadAccepts(heads[i], Schedule(initChannels, maxChannels, numLayer)[i].outDim) ||
       (i == numLayer - 1 && heads[i].kernelIn == Some(Schedule(initChannels, maxChannels, numLayer)[0].outDim)))
  }

  /** The generator's forward pass succeeds exactly when Python accepts
      `to_rgb[level]` (`-numLayer <= level < numLayer`) and that head
      accepts the width it receives; it then builds only that head, for that
      width. */
  lemma ForwardDefined(initChannels: nat, maxChannels: nat, numLayer: nat, heads: seq<ToRgb>,
                       level: int, styleBatch: nat)
    requires numLayer >= 1 && |heads| == numLayer
    ensures Forward(Schedule(initChannels, maxChannels, numLayer), heads,
                    ConstShape(initChannels, maxChannels, numLayer), level, styleBatch).Some?
        <==> -(numLayer as int) <= level < numLayer &&
             HeadAccepts(heads[Index(numLayer, level).value], HeadWidth(initChannels, maxChannels, numLayer, level))
    ensures Forward(Schedule(initChannels, maxChannels, numLayer), heads,
                    ConstShape(initChannels, maxChannels, numLayer), level, styleBatch).Some? ==>
            (HeadsAfter(Schedule(initChannels, maxChannels, numLayer), heads,
                        ConstShape(initChannels, maxChannels, numLayer), level, styleBatch)
             == heads[Index(numLayer, level).value :=
                      ToRgb(heads[Index(numLayer, level).value].filters,
                            Some(HeadWidth(initChannels, maxChannels, numLayer, level)))])
  {
    ScheduleForward(initChannels, maxChannels, numLayer, styleBatch, SliceEnd(numLayer, level + 1));
  }

  /** Calls keep the heads among the reachable states. */
  lemma HeadsAfterReachable(initChannels: nat, maxChannels: nat, numLayer: nat, outChannels: nat,
                            heads: seq<ToRgb>, level: int, styleBatch: nat)
    requires numLayer >= 1
    requires HeadsReachable(initChannels, maxChannels, numLayer, outChannels, heads)
    ensures HeadsReachable(initChannels, maxChannels, numLayer, outChannels,
                           HeadsAfter(Schedule(initChannels, maxChannels, numLayer), heads,
                                      ConstShape(initChannels, maxChannels, numLayer), level, styleBatch))
  {
    ForwardDefined(initChannels, maxChannels, numLayer, heads, level, styleBatch);
  }

  /** At level `k` in `[0, numLayer)`, with head `k` unbuilt or built for
      block `k`'s width, the generator outputs a
      `[B, 2^(k+2), 2^(k+2), filters]` image and builds head `k` for block
      `k`'s width. */
  lemma OutputShape(initChannels: nat, maxChannels: nat, numLayer: nat, heads: seq<ToRgb>,
                    level: int, styleBatch: nat)
    requires 0 <= level < numLayer && |heads| == numLayer
    requires HeadAccepts(heads[level], Schedule(initChannels, maxChannels, numLayer)[level].outDim)
    ensures Forward(Schedule(initChannels, maxChannels, numLayer), heads,
                    ConstShape(initChannels, maxChannels, numLayer), level, styleBatch)
         == Some(Shape(styleBatch, Pow2(level + 2), Pow2(level + 2), heads[level].filters))
    ensures HeadsAfter(Schedule(initChannels, maxChannels, numLayer), heads,
                       ConstShape(initChannels, maxChannels, numLayer), level, styleBatch)
         == heads[level := ToRgb(heads[level].filters, Some(Schedule(initChannels, maxChannels, numLayer)[level].outDim))]
  {
    var s := Schedule(initChannels, maxChannels, numLayer);
    var base := ConstShape(initChannels, maxChannels, numLayer);
    ScheduleForward(initChannels, maxChannels, numLayer, styleBatch, level + 1);
    assert SliceEnd(numLayer, level + 1) == level + 1 && Index(numLayer, level) == Some(level);
    var x := AfterBlocks(initChannels, maxChannels, numLayer, styleBatch, level + 1);
    assert HeadInput(s, base, level, styleBatch) == Some(x);
    assert x == Shape(styleBatch, Pow2(level + 2), Pow2(level + 2), s[level].outDim);
  }

  /** What one call does from reachable heads: it succeeds exactly as
      `ForwardDefined` says, keeps the heads reachable, and at a level in
      `[0, numLayer)` whose head accepts its block's width gives the
      `[B, 2^(k+2), 2^(k+2), outChannels]` image and builds that head. */
  lemma CallOutcome(initChannels: nat, maxChannels: nat, numLayer: nat, outChannels: nat,
                    heads: seq<ToRgb>, level: int, styleBatch: nat)
    requires numLayer >= 1
    requires HeadsReachable(initChannels, maxChannels, numLayer, outChannels, heads)
    ensures Forward(Schedule(initChannels, maxChannels, numLayer), heads,
                    ConstShape(initChannels, maxChannels, numLayer), level, styleBatch).Some?
        <==> -(numLayer as int) <= level < numLayer &&
             HeadAccepts(heads[Index(numLayer, level).value], HeadWidth(initChannels, maxChannels, numLayer, level))
    ensures HeadsReachable(initChannels, maxChannels, numLayer, outChannels,
                           HeadsAfter(Schedule(initChannels, maxChannels, numLayer), heads,
                                      ConstShape(initChannels, maxChannels, numLayer), level, styleBatch))
    ensures 0 <= level < numLayer &&
            HeadAccepts(heads[level], Schedule(initChannels, maxChannels, numLayer)[level].outDim) ==>
            Forward(Schedule(initChannels, maxChannels, numLayer), heads,
                    ConstShape(initChannels, maxChannels, numLayer), level, styleBatch)
              == Some(Shape(styleBatch, Pow2(level + 2), Pow2(level + 2), outChannels)) &&
            HeadsAfter(Schedule(initChannels, maxChannels, numLayer), heads,
                       ConstShape(initChannels, maxChannels, numLayer), level, styleBatch)
              == heads[level := ToRgb(outChannels, Some(Schedule(initChannels, maxChannels, numLayer)[level].outDim))]
  {
    ForwardDefined(initChannels, maxChannels, numLayer, heads, level, styleBatch);
    HeadsAfterReachable(initChannels, maxChannels, numLayer, outChannels, heads, level, styleBatch);
    if 0 <= level < numLayer && HeadAccepts(heads[level], Schedule(initChannels, maxChannels, numLayer)[level].outDim) {
      OutputShape(initChannels, maxChannels, numLayer, heads, level, styleBatch);
    }
  }

  /** Below the last level a reachable head always accepts its input, so a
      call at such a level never fails; the last head fails only after a
      call at level -1 bound it to a different width. */
  lemma InRangeCallsSucceed(initChannels: nat, maxChannels: nat, numLayer: nat, outChannels: nat,
                            heads: seq<ToRgb>, level: int, styleBatch: nat)
    requires 0 <= level < numLayer
    requires HeadsReachable(initChannels, maxChannels, numLayer, outChannels, heads)
    ensures Forward(Schedule(initChannels, maxChannels, numLayer), heads,
                    ConstShape(initChannels, maxChannels, numLayer), level, styleBatch).None?
        <==> level == numLayer - 1 &&
             heads[level].kernelIn == Some(Schedule(initChannels, maxChannels, numLayer)[0].outDim) &&
             Schedule(initChannels, maxChannels, numLayer)[0].outDim
               != Schedule(initChannels, maxChannels, numLayer)[level].outDim
  {
    ForwardDefined(initChannels, maxChannels, numLayer, heads, level, styleBatch);
  }

  /** Python's negative indices: a level in `[-numLayer, -2]` behaves as
      the level `numLayer + level`, in its output and in the head it builds. */
  lemma NegativeLevelWraps(blocks: seq<BlockConfig>, heads: seq<ToRgb>, base: Shape, level: int, styleBatch: nat)
    requires |blocks| == |heads|
    requires -|blocks| <= level <= -2
    ensures Forward(blocks, heads, base, level, styleBatch)
         == Forward(blocks, heads, base, |blocks| + level, styleBatch)
    ensures HeadsAfter(blocks, heads, base, level, styleBatch)
         == HeadsAfter(blocks, heads, base, |blocks| + level, styleBatch)
  {
  }

  /** Level -1 selects the last head but the empty slice `blocks[:0]`: the
      head is applied to the constant itself. It gives a `[1, 4, 4,
      filters]` output whatever the style batch when the head is unbuilt or
      built for the constant's width, and raises otherwise. */
  lemma LevelMinusOne(initChannels: nat, maxChannels: nat, numLayer: nat, heads: seq<ToRgb>, styleBatch: nat)
    requires numLayer >= 1 && |heads| == numLayer
    ensures Forward(Schedule(initChannels, maxChannels, numLayer), heads,
                    ConstShape(initChannels, maxChannels, numLayer), -1, styleBatch)
         == if HeadAccepts(heads[numLayer - 1], Schedule(initChannels, maxChannels, numLayer)[0].outDim)
            then Some(Shape(1, 4, 4, heads[numLayer - 1].filters))
            else None
  {
  }

  /** After a first call at the initial level `numLayer - 1`, a call at
      level -1 succeeds exactly when block 0 and the last block have equal
      channels: the last head's kernel was built for the last block. */
  lemma {:induction false} LevelMinusOneAfterInitialCall(initChannels: nat, maxChannels: nat, numLayer: nat,
                                                         outChannels: nat, b1: nat, b2: nat)
    requires numLayer >= 1
    ensures Forward(Schedule(initChannels, maxChannels, numLayer),
                    HeadsAfter(Schedule(initChannels, maxChannels, numLayer), Heads(outChannels, numLayer),
                               ConstShape(initChannels, maxChannels, numLayer), numLayer - 1, b1),
                    ConstShape(initChannels, maxChannels, numLayer), -1, b2).Some?
        <==> (Schedule(initChannels, maxChannels, numLayer)[0].outDim
              == Schedule(initChannels, maxChannels, numLayer)[numLayer - 1].outDim)
  {
    var heads := Heads(outChannels, numLayer);
    OutputShape(initChannels, maxChannels, numLayer, heads, numLayer - 1, b1);
    var after := HeadsAfter(Schedule(initChannels, maxChannels, numLayer), heads,
                            ConstShape(initChannels, maxChannels, numLayer), numLayer - 1, b1);
    LevelMinusOne(initChannels, maxChannels, numLayer, after, b2);
  }

  /** A layer of the generator whose trainable variables Keras owns. */
  datatype Layer = BlockLayer(index: nat) | HeadLayer(index: nat)

  type VarId = nat

  /** Variables of blocks `0..k-1`, in block order. */
  function BlockVars(varsOf: Layer -> seq<VarId>, k: nat): (r: seq<VarId>)
    ensures forall j :: 0 <= j < k ==> |varsOf(BlockLayer(j))| <= |r|
    ensures k > 0 ==> r[|r| - |varsOf(BlockLayer(k - 1))|..] == varsOf(BlockLayer(k - 1))
  {
    if k == 0 then [] else BlockVars(varsOf, k - 1) + varsOf(BlockLayer(k - 1))
  }

  /** One turn of the loop in `level_variables`: appending block `i`'s
      variables extends the list to blocks `0..i`. */
  lemma BlockVarsStep(varsOf: Layer -> seq<VarId>, head: seq<VarId>, i: nat)
    ensures head + BlockVars(varsOf, i) + varsOf(BlockLayer(i)) == head + BlockVars(varsOf, i + 1)
  {
  }

  /** `level_variables()`: the variables of `to_rgb[level]` followed by those
      of `blocks[:level + 1]`; None where `to_rgb[level]` raises. */
  function LevelVars(varsOf: Layer -> seq<VarId>, numLayer: nat, level: int): (r: Option<seq<VarId>>)
    ensures r.Some? <==> -(numLayer as int) <= level < numLayer
    ensures r.Some? ==> varsOf(HeadLayer(Index(numLayer, level).value)) <= r.value
  {
    var h := Index(numLayer, level);
    if h.None? then None
    else Some(varsOf(HeadLayer(h.value)) + BlockVars(varsOf, SliceEnd(numLayer, level + 1)))
  }

  /** The variables of fewer blocks are a prefix of those of more blocks. */
  lemma {:induction false} BlockVarsPrefix(varsOf: Layer -> seq<VarId>, j: nat, k: nat)
    requires j <= k
    ensures BlockVars(varsOf, j) <= BlockVars(varsOf, k)
  {
    if j < k {
      BlockVarsPrefix(varsOf, j, k - 1);
    }
  }

  /** A variable is among those of blocks `0..k-1` exactly when one of those
      blocks owns it. */
  lemma {:induction false} BlockVarsMembers(varsOf: Layer -> seq<VarId>, k: nat, v: VarId)
    ensures v in BlockVars(varsOf, k) <==> exists j :: 0 <= j < k && v in varsOf(BlockLayer(j))
  {
    if k > 0 {
      BlockVarsMembers(varsOf, k - 1, v);
    }
  }

  /** At a level in range, `level_variables()` holds exactly the variables
      of head `level` and of blocks `0..level`: blocks above the level
      contribute nothing. */
  lemma LevelVarsMembers(varsOf: Layer -> seq<VarId>, numLayer: nat, level: int, v: VarId)
    requires 0 <= level < numLayer
    ensures LevelVars(varsOf, numLayer, level).Some?
    ensures v in LevelVars(varsOf, numLayer, level).value
        <==> v in varsOf(HeadLayer(level)) || exists j :: 0 <= j <= level && v in varsOf(BlockLayer(j))
  {
    BlockVarsMembers(varsOf, level + 1, v);
  }

  /** Growing the level only appends block variables: the block part at
      level `j` is a prefix of the block part at level `k >= j`, and when the
      two heads carry equally many variables (all heads are the same 1x1
      convolution) the whole list does not shrink. */
  lemma LevelVarsGrow(varsOf: Layer -> seq<VarId>, numLayer: nat, j: int, k: int)
    requires 0 <= j <= k < numLayer
    ensures LevelVars(varsOf, numLayer, j).Some? && LevelVars(varsOf, numLayer, k).Some?
    ensures LevelVars(varsOf, numLayer, j).value[|varsOf(HeadLayer(j))|..]
         <= LevelVars(varsOf, numLayer, k).value[|varsOf(HeadLayer(k))|..]
    ensures |varsOf(HeadLayer(j))| == |varsOf(HeadLayer(k))| ==>
            |LevelVars(varsOf, numLayer, j).value| <= |LevelVars(varsOf, numLayer, k).value|
  {
    BlockVarsPrefix(varsOf, j + 1, k + 1);
    var hj, hk := varsOf(HeadLayer(j)), varsOf(HeadLayer(k));
    assert (hj + BlockVars(varsOf, j + 1))[|hj|..] == BlockVars(varsOf, j + 1);
    assert (hk + BlockVars(varsOf, k + 1))[|hk|..] == BlockVars(varsOf, k + 1);
  }

  /** `level_variables()` raises exactly where `to_rgb[level]` does; a
      level in `[-numLayer, -2]` yields what level `numLayer + level` yields,
      and level -1 only the last head's variables. */
  lemma LevelVarsPythonIndexing(varsOf: Layer -> seq<VarId>, numLayer: nat, level: int)
    ensures LevelVars(varsOf, numLayer, level).Some? <==> -(numLayer as int) <= level < numLayer
    ensures -(numLayer as int) <= level <= -2 ==>
            LevelVars(varsOf, numLayer, level) == LevelVars(varsOf, numLayer, numLayer + level)
    ensures numLayer >= 1 && level == -1 ==>
            LevelVars(varsOf, numLayer, level) == Some(varsOf(HeadLayer(numLayer - 1)))
  {
    if numLayer >= 1 && level == -1 {
      var h := varsOf(HeadLayer(numLayer - 1));
      assert h + BlockVars(varsOf, 0) == h;
    }
  }
}
