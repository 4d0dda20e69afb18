/**
 * `FluxModel` (src/FluxModel.cpp): 19 joint blocks followed by 38 single
 * blocks, the text-first merge of the two token streams between them, the
 * ControlNet residual injection, the per-layer lazy loading of block weights,
 * `forward_layer` and `setAttentionImpl`.
 *
 * Layers are numbered 0 .. 56: layer `l < 19` is joint block `l`, layer
 * `l >= 19` is single block `l - 19`.
 */
module FluxModelGraph {
  import opened CudaCommon
  import opened FluxAttention
  import opened FluxBlocks

  const NumJointBlocks: nat := 19
  const NumSingleBlocks: nat := 38
  const NumLayers: nat := NumJointBlocks + NumSingleBlocks

  /** Every block is built with inner dimension 3072 and 24 heads of 128 channels. */
  const InnerDim: nat := 3072
  const NumHeads: nat := 24

  // ---------------------------------------------------------------------------
  // Layer numbering

  datatype BlockRef = Joint(index: nat) | Single(index: nat)

  /** The block a layer number selects (`transformer_blocks.at(layer)` or the single list). */
  function BlockOf(numJoint: nat, layer: nat): BlockRef
  {
    if layer < numJoint then Joint(layer) else Single(layer - numJoint)
  }

  function LayerOf(numJoint: nat, r: BlockRef): nat
  {
    match r
    case Joint(i) => i
    case Single(i) => numJoint + i
  }

  /**
   * Layer numbers and blocks are in one-to-one correspondence: joint layers
   * come first, and a layer is joint exactly when it is below the joint count.
   */
  lemma BlockNumbering(numJoint: nat, layer: nat, r: BlockRef)
    ensures LayerOf(numJoint, BlockOf(numJoint, layer)) == layer
    ensures BlockOf(numJoint, layer).Joint? <==> layer < numJoint
    ensures (r.Joint? ==> r.index < numJoint) ==> BlockOf(numJoint, LayerOf(numJoint, r)) == r
  {
  }

  // ---------------------------------------------------------------------------
  // ControlNet

  /**
   * Which ControlNet sample a block adds: blocks are grouped in runs of
   * `ceilDiv(numBlocks, numSamples)` and run `i` uses sample `i`.
   */
  function ControlnetIndex(layer: nat, numBlocks: nat, numSamples: nat): (i: nat)
    requires numBlocks > 0 && numSamples > 0
    ensures layer < numBlocks ==> i < numSamples
  {
    var interval := CeilDiv(numBlocks, numSamples);
    assert interval > 0;
    assert layer < numBlocks ==> layer / interval < numSamples by {
      if layer < numBlocks {
        DivBelow(layer, interval, numSamples);
      }
    }
    layer / interval
  }

  lemma MulLessCancel(d: nat, x: nat, y: nat)
    requires d * x < d * y
    ensures x < y
  {
  }

  lemma DivBelow(a: nat, d: nat, n: nat)
    requires d > 0 && a < d * n
    ensures a / d < n
  {
    assert d * (a / d) <= a;
    MulLessCancel(d, a / d, n);
  }

  /** Later blocks never use an earlier sample. */
  lemma {:induction false} ControlnetIndexMonotone(l1: nat, l2: nat, numBlocks: nat, numSamples: nat)
    requires numBlocks > 0 && numSamples > 0 && l1 <= l2
    ensures ControlnetIndex(l1, numBlocks, numSamples) <= ControlnetIndex(l2, numBlocks, numSamples)
  {
    var d := CeilDiv(numBlocks, numSamples);
    var q1, q2 := l1 / d, l2 / d;
    assert l1 == d * q1 + l1 % d && l2 == d * q2 + l2 % d;
    assert d * (q2 + 1) == d * q2 + d;
    MulLessCancel(d, q1, q2 + 1);
  }

  /** With 19 joint blocks and four samples, blocks run five to a sample and the last run is short. */
  lemma ControlnetNineteenBlocksFourSamples()
    ensures CeilDiv(19, 4) == 5
    ensures ControlnetIndex(0, 19, 4) == 0 && ControlnetIndex(10, 19, 4) == 2
    ensures ControlnetIndex(4, 19, 4) == 0 && ControlnetIndex(5, 19, 4) == 1
    ensures ControlnetIndex(14, 19, 4) == 2 && ControlnetIndex(15, 19, 4) == 3
    ensures ControlnetIndex(18, 19, 4) == 3
  {
  }

  /** A present ControlNet tensor: at least one sample, each shaped like the stream it is added to. */
  predicate SamplesOk<R>(s: Option<seq<Batch<R>>>, batch: nat, tokens: nat)
  {
    s.Some? ==> |s.value| > 0 && forall i :: 0 <= i < |s.value| ==> Rect(s.value[i], batch, tokens)
  }

  /** `kernels::add` of two tensors of one shape, row by row. */
  function AddBatch<R>(add: (R, R) -> R, x: Batch<R>, s: Batch<R>, tokens: nat): (r: Batch<R>)
    requires Rect(x, |x|, tokens) && Rect(s, |x|, tokens)
    ensures Rect(r, |x|, tokens)
    ensures forall b, t :: 0 <= b < |x| && 0 <= t < tokens ==> r[b][t] == add(x[b][t], s[b][t])
  {
    seq(|x|, b requires 0 <= b < |x| => seq(tokens, t requires 0 <= t < tokens => add(x[b][t], s[b][t])))
  }

  /**
   * The single-block ControlNet step: the image rows `[nTxt, nTxt + nImg)`
   * of every item get the sample added and are written back in place; the
   * text rows are left as they were.
   */
  function InjectImage<R>(add: (R, R) -> R, h: Batch<R>, nTxt: nat, nImg: nat, s: Batch<R>): (r: Batch<R>)
    requires Rect(h, |h|, nTxt + nImg) && Rect(s, |h|, nImg)
    ensures Rect(r, |h|, nTxt + nImg)
    ensures forall b :: 0 <= b < |h| ==> r[b][..nTxt] == h[b][..nTxt]
    ensures forall b, t :: 0 <= b < |h| && 0 <= t < nImg ==> r[b][nTxt + t] == add(h[b][nTxt + t], s[b][t])
  {
    var slice := Slices(h, nTxt, nImg);
    var added := AddBatch(add, slice, s, nImg);
    seq(|h|, b requires 0 <= b < |h| => h[b][..nTxt] + added[b])
  }

  // ---------------------------------------------------------------------------
  // The text-first merge

  /**
   * The merge at the first single block: item `b` holds its own text
   * tokens followed by its own image tokens.
   */
  function MergeTextFirst<R>(enc: Batch<R>, hid: Batch<R>, nTxt: nat, nImg: nat): (r: Batch<R>)
    requires Rect(enc, |enc|, nTxt) && Rect(hid, |enc|, nImg)
    ensures Rect(r, |enc|, nTxt + nImg)
    ensures forall b :: 0 <= b < |enc| ==> r[b][..nTxt] == enc[b] && r[b][nTxt..] == hid[b]
  {
    seq(|enc|, b requires 0 <= b < |enc| => enc[b] + hid[b])
  }

  /**
   * The per-item merge loop, written as intended: item `i` receives its own
   * text rows, then its own image rows.
   */
  method MergeStreams<R>(enc: Batch<R>, hid: Batch<R>, nTxt: nat, nImg: nat) returns (concat: Batch<R>)
    requires Rect(enc, |enc|, nTxt) && Rect(hid, |enc|, nImg)
    ensures concat == MergeTextFirst(enc, hid, nTxt, nImg)
  {
    concat := [];
    for i := 0 to |enc|
      invariant |concat| == i
      invariant forall b :: 0 <= b < i ==> concat[b] == enc[b] + hid[b]
    {
      concat := concat + [enc[i] + hid[i]];
    }
  }

  /** The failure `copy_` reports when source and destination hold different numbers of rows. */
  datatype CopyError = ExtentMismatch

  /**
   * The merge loop as written: every item's text slot is given the whole
   * text tensor and every image slot the whole image tensor, which `copy_`
   * accepts only when the row counts agree.
   */
  function MergeAsWritten<R>(enc: Batch<R>, hid: Batch<R>, nTxt: nat, nImg: nat): (r: Result<Batch<R>, CopyError>)
    requires |enc| == |hid|
    ensures r.Success? ==> |r.value| == |enc|
  {
    var e := Flatten(enc);
    var h := Flatten(hid);
    if |e| != nTxt || |h| != nImg then Failure(ExtentMismatch)
    else Success(seq(|enc|, _ => e + h))
  }

  /** For a single item the loop as written is the intended merge. */
  lemma MergeAsWrittenSingleItem<R>(enc: Batch<R>, hid: Batch<R>, nTxt: nat, nImg: nat)
    requires Rect(enc, 1, nTxt) && Rect(hid, 1, nImg)
    ensures MergeAsWritten(enc, hid, nTxt, nImg) == Success(MergeTextFirst(enc, hid, nTxt, nImg))
  {
    assert enc[1..] == [] && hid[1..] == [];
    assert Flatten(enc) == enc[0] + Flatten(enc[1..]) == enc[0];
    assert Flatten(hid) == hid[0] + Flatten(hid[1..]) == hid[0];
    assert MergeTextFirst(enc, hid, nTxt, nImg) == [enc[0] + hid[0]];
    var e, h := Flatten(enc), Flatten(hid);
    assert |e| == nTxt && |h| == nImg;
    assert MergeAsWritten(enc, hid, nTxt, nImg) == Success(seq(1, _ => e + h));
    assert seq(1, _ => e + h) == [enc[0] + hid[0]];
  }

  /** With two or more items and any tokens at all, the loop as written cannot merge. */
  lemma MergeAsWrittenRejectsBatches<R>(enc: Batch<R>, hid: Batch<R>, batch: nat, nTxt: nat, nImg: nat)
    requires Rect(enc, batch, nTxt) && Rect(hid, batch, nImg)
    requires batch >= 2 && nTxt + nImg > 0
    ensures MergeAsWritten(enc, hid, nTxt, nImg) == Failure(ExtentMismatch)
  {
    FlattenLength(enc, batch, nTxt);
    FlattenLength(hid, batch, nImg);
    if nTxt > 0 {
      assert batch * nTxt >= 2 * nTxt > nTxt;
    } else {
      assert batch * nImg >= 2 * nImg > nImg;
    }
  }

  /** A concrete instance: two items of one text and one image token each. */
  lemma MergeAsWrittenTwoItems()
    ensures MergeAsWritten([[1], [2]], [[3], [4]], 1, 1) == Failure(ExtentMismatch)
    ensures MergeTextFirst([[1], [2]], [[3], [4]], 1, 1) == [[1, 3], [2, 4]]
  {
    var enc: Batch<int>, hid: Batch<int> := [[1], [2]], [[3], [4]];
    assert Rect(enc, 2, 1) && Rect(hid, 2, 1);
    MergeAsWrittenRejectsBatches(enc, hid, 2, 1, 1);
    var m := MergeTextFirst(enc, hid, 1, 1);
    assert m[0] == [1] + [3] == [1, 3];
    assert m[1] == [2] + [4] == [2, 4];
    assert m == [[1, 3], [2, 4]];
  }

  // ---------------------------------------------------------------------------
  // One pass

  /** The numeric kernels of every block, with `temb` and the rotary tables folded in. */
  datatype ModelKernels<!R> = ModelKernels(
    joint: nat -> JointKernels<R>,
    single: nat -> SingleKernels<R>,
    add: (R, R) -> R)

  /** The arguments of `forward` that shape the computation. */
  datatype PassInputs<R> = PassInputs(
    hidden: Batch<R>,                         // hidden_states: image tokens
    encoder: Batch<R>,                        // encoder_hidden_states: text tokens
    nImg: nat,
    nTxt: nat,
    blockSamples: Option<seq<Batch<R>>>,      // controlnet_block_samples, when valid
    singleSamples: Option<seq<Batch<R>>>,     // controlnet_single_block_samples, when valid
    skipFirstLayer: bool)

  /** The attention implementation each block is switched to. */
  datatype ModelConfig = ModelConfig(jointImpl: seq<AttentionImpl>, singleImpl: seq<AttentionImpl>)

  /** `hidden_states` and `encoder_hidden_states` between layers; the latter is emptied by the merge. */
  datatype PassState<R> = PassState(hidden: Batch<R>, encoder: Option<Batch<R>>)

  predicate InputsOk<R>(cfg: ModelConfig, inp: PassInputs<R>)
  {
    var batch := |inp.hidden|;
    && |cfg.jointImpl| == NumJointBlocks && |cfg.singleImpl| == NumSingleBlocks
    && Rect(inp.hidden, batch, inp.nImg) && Rect(inp.encoder, batch, inp.nTxt)
    && SamplesOk(inp.blockSamples, batch, inp.nImg)
    && SamplesOk(inp.singleSamples, batch, inp.nImg)
    && (forall i :: 0 <= i < |cfg.singleImpl| ==> cfg.singleImpl[i] == NunchakuFP16 ==> batch == 1)
  }

  /**
   * The shape of the state before `layer`: two streams up to and including
   * the first single layer, one merged stream of `nTxt + nImg` tokens after.
   */
  predicate StateAt<R>(inp: PassInputs<R>, st: PassState<R>, layer: nat)
  {
    var batch := |inp.hidden|;
    if layer <= NumJointBlocks then
      st.encoder.Some? && Rect(st.hidden, batch, inp.nImg) && Rect(st.encoder.value, batch, inp.nTxt)
    else
      st.encoder.None? && Rect(st.hidden, batch, inp.nTxt + inp.nImg)
  }

  /**
   * A joint layer: the block, then the ControlNet sample of its run added to
   * the image stream. The text stream never receives a sample.
   */
  function JointLayerSpec<R>(k: ModelKernels<R>, impl: AttentionImpl, layer: nat,
                             hidden: Batch<R>, encoder: Batch<R>, nImg: nat, nTxt: nat,
                             samples: Option<seq<Batch<R>>>): (r: (Batch<R>, Batch<R>))
    requires layer < NumJointBlocks
    requires Rect(hidden, |hidden|, nImg) && Rect(encoder, |hidden|, nTxt)
    requires SamplesOk(samples, |hidden|, nImg)
    ensures Rect(r.0, |hidden|, nImg) && Rect(r.1, |hidden|, nTxt)
    ensures var out := JointSpec(k.joint(layer), impl, false, hidden, encoder, nImg, nTxt);
      && r.1 == out.1
      && (samples.None? ==> r.0 == out.0)
      && (samples.Some? ==>
            var s := samples.value[ControlnetIndex(layer, NumJointBlocks, |samples.value|)];
            forall b, t :: 0 <= b < |hidden| && 0 <= t < nImg ==> r.0[b][t] == k.add(out.0[b][t], s[b][t]))
  {
    var out := JointSpec(k.joint(layer), impl, false, hidden, encoder, nImg, nTxt);
    if samples.None? then out
    else
      var s := samples.value[ControlnetIndex(layer, NumJointBlocks, |samples.value|)];
      (AddBatch(k.add, out.0, s, nImg), out.1)
  }

  /**
   * The `compute(layer)` step. Skipping the first layer leaves the state as
   * it is; a joint layer keeps two streams; the first single layer merges
   * them text first; every single layer keeps the merged shape and adds
   * its ControlNet sample to the image rows only.
   */
  function ComputeSpec<R>(k: ModelKernels<R>, cfg: ModelConfig, inp: PassInputs<R>, st: PassState<R>, layer: nat): (st': PassState<R>)
    requires InputsOk(cfg, inp) && layer < NumLayers && StateAt(inp, st, layer)
    ensures StateAt(inp, st', layer + 1)
    ensures inp.skipFirstLayer && layer == 0 ==> st' == st
  {
    var batch := |inp.hidden|;
    if inp.skipFirstLayer && layer == 0 then st
    else if layer < NumJointBlocks then
      var r := JointLayerSpec(k, cfg.jointImpl[layer], layer, st.hidden, st.encoder.value, inp.nImg, inp.nTxt, inp.blockSamples);
      PassState(r.0, Some(r.1))
    else
      var i := layer - NumJointBlocks;
      var n := inp.nTxt + inp.nImg;
      var x := if layer == NumJointBlocks then MergeTextFirst(st.encoder.value, st.hidden, inp.nTxt, inp.nImg) else st.hidden;
      assert cfg.singleImpl[i] == NunchakuFP16 ==> |x| == 1;
      var y := SingleSpec(k.single(i), cfg.singleImpl[i], x, n);
      if inp.singleSamples.None? then PassState(y, None)
      else
        var s := inp.singleSamples.value[ControlnetIndex(i, NumSingleBlocks, |inp.singleSamples.value|)];
        PassState(InjectImage(k.add, y, inp.nTxt, inp.nImg, s), None)
  }

  /** The state after layers `0 .. n - 1`. */
  function RunSpec<R>(k: ModelKernels<R>, cfg: ModelConfig, inp: PassInputs<R>, n: nat): (st: PassState<R>)
    requires InputsOk(cfg, inp) && n <= NumLayers
    ensures StateAt(inp, st, n)
    decreases n
  {
    if n == 0 then PassState(inp.hidden, Some(inp.encoder))
    else ComputeSpec(k, cfg, inp, RunSpec(k, cfg, inp, n - 1), n - 1)
  }

  /**
   * The whole pass hands back one stream of `nTxt + nImg` tokens per item,
   * and the text stream no longer exists.
   */
  lemma {:induction false} ForwardOutputShape<R>(k: ModelKernels<R>, cfg: ModelConfig, inp: PassInputs<R>)
    requires InputsOk(cfg, inp)
    ensures RunSpec(k, cfg, inp, NumLayers).encoder.None?
    ensures Rect(RunSpec(k, cfg, inp, NumLayers).hidden, |inp.hidden|, inp.nTxt + inp.nImg)
  {
    var st := RunSpec(k, cfg, inp, NumLayers);
    assert StateAt(inp, st, NumLayers);
  }

  // ---------------------------------------------------------------------------
  // The model object

  class FluxModel {
    const offload: bool
    const jointBlocks: seq<JointTransformerBlock>
    const singleBlocks: seq<FluxSingleTransformerBlock>
    ghost const Repr: set<LazyParams>

    predicate Sized()
    {
      |jointBlocks| == NumJointBlocks && |singleBlocks| == NumSingleBlocks
    }

    /** The lazily loadable weights of the block `load` and `unload` pick for `layer`. */
    function ParamsOf(layer: nat): LazyParams
      requires Sized() && layer < NumLayers
    {
      if layer < NumJointBlocks then jointBlocks[layer].params else singleBlocks[layer - NumJointBlocks].params
    }

    /** The weights `load` and `unload` pick are those of the block the layer numbering selects. */
    lemma ParamsOfSelectedBlock(layer: nat)
      requires Sized() && layer < NumLayers
      ensures match BlockOf(NumJointBlocks, layer)
        case Joint(i) => i < NumJointBlocks && ParamsOf(layer) == jointBlocks[i].params
        case Single(i) => i < NumSingleBlocks && ParamsOf(layer) == singleBlocks[i].params
    {
    }

    /**
     * The first joint block is never offloaded,
     * every other block is when offloading is on; weights that are not
     * lazily loaded are always resident. `Repr` holds every block's weights.
     */
    ghost predicate Valid()
      reads Repr
    {
      && Sized()
      && (forall i :: 0 <= i < NumJointBlocks ==> !jointBlocks[i].contextPreOnly)
      && (forall i :: 0 <= i < NumLayers ==>
            && ParamsOf(i) in Repr
            && ParamsOf(i).lazyLoad == (offload && i > 0) && (!ParamsOf(i).lazyLoad ==> ParamsOf(i).resident))
    }

    function Config(): (cfg: ModelConfig)
      requires Sized()
      reads jointBlocks, singleBlocks
      ensures |cfg.jointImpl| == NumJointBlocks && |cfg.singleImpl| == NumSingleBlocks
    {
      ModelConfig(seq(NumJointBlocks, i requires 0 <= i < NumJointBlocks reads jointBlocks => jointBlocks[i].attnImpl),
                  seq(NumSingleBlocks, i requires 0 <= i < NumSingleBlocks reads singleBlocks => singleBlocks[i].attnImpl))
    }

    /**
     * Builds the 19 joint and 38 single blocks; with offloading on, every
     * block but the first joint one is made lazily loaded and released.
     */
    constructor (offload: bool)
      ensures this.offload == offload && Valid()
      ensures fresh(Repr)
      ensures forall i :: 0 <= i < NumJointBlocks ==> fresh(jointBlocks[i])
      ensures forall i :: 0 <= i < NumSingleBlocks ==> fresh(singleBlocks[i])
      ensures Config() == ModelConfig(seq(NumJointBlocks, _ => FlashAttention2), seq(NumSingleBlocks, _ => FlashAttention2))
      ensures forall i :: 0 <= i < NumLayers ==> ParamsOf(i).resident == (!offload || i == 0)
    {
      var joint: seq<JointTransformerBlock> := [];
      ghost var repr: set<LazyParams> := {};
      for i := 0 to NumJointBlocks
        invariant |joint| == i
        invariant forall j :: 0 <= j < i ==> joint[j].params in repr && fresh(joint[j])
        invariant forall o :: o in repr ==> fresh(o)
        invariant forall j :: 0 <= j < i ==>
          && fresh(joint[j].params) && !joint[j].contextPreOnly && joint[j].attnImpl == FlashAttention2
          && joint[j].params.lazyLoad == (offload && j > 0) && joint[j].params.resident == !(offload && j > 0)
      {
        var block := new JointTransformerBlock(InnerDim, NumHeads, InnerDim, false);
        if offload && i > 0 {
          block.params.SetLazyLoad(true);
          block.params.ReleaseLazyParams();
        }
        joint := joint + [block];
        repr := repr + {block.params};
      }
      var single: seq<FluxSingleTransformerBlock> := [];
      for i := 0 to NumSingleBlocks
        invariant |single| == i
        invariant forall j :: 0 <= j < NumJointBlocks ==> joint[j].params in repr && fresh(joint[j])
        invariant forall j :: 0 <= j < i ==> single[j].params in repr && fresh(single[j])
        invariant forall o :: o in repr ==> fresh(o)
        invariant forall j :: 0 <= j < NumJointBlocks ==>
          && !joint[j].contextPreOnly && joint[j].attnImpl == FlashAttention2
          && joint[j].params.lazyLoad == (offload && j > 0) && joint[j].params.resident == !(offload && j > 0)
        invariant forall j :: 0 <= j < i ==>
          && fresh(single[j].params) && single[j].attnImpl == FlashAttention2
          && single[j].params.lazyLoad == offload && single[j].params.resident == !offload
      {
        var block := new FluxSingleTransformerBlock(InnerDim, NumHeads, InnerDim);
        if offload {
          block.params.SetLazyLoad(true);
          block.params.ReleaseLazyParams();
        }
        single := single + [block];
        repr := repr + {block.params};
      }
      this.offload := offload;
      jointBlocks := joint;
      singleBlocks := single;
      Repr := repr;
      new;
      assert Config().jointImpl == seq(NumJointBlocks, _ => FlashAttention2);
      assert Config().singleImpl == seq(NumSingleBlocks, _ => FlashAttention2);
    }

    /** `load(layer)`: brings the block's weights back if they are lazily loaded. */
    method LoadLayer(layer: nat)
      requires Valid() && layer < NumLayers
      modifies ParamsOf(layer)`resident
      ensures Valid() && Config() == old(Config())
      ensures ParamsOf(layer).resident
    {
      ParamsOf(layer).LoadLazyParams();
    }

    /** `unload(layer)`: releases the block's weights if they are lazily loaded. */
    method UnloadLayer(layer: nat)
      requires Valid() && layer < NumLayers
      modifies ParamsOf(layer)`resident
      ensures Valid() && Config() == old(Config())
      ensures ParamsOf(layer).resident == !ParamsOf(layer).lazyLoad
    {
      ParamsOf(layer).ReleaseLazyParams();
    }

    /**
     * `compute(layer)`, run with the block's weights resident; it changes
     * nothing but the pass state it returns.
     */
    method Compute<R>(k: ModelKernels<R>, inp: PassInputs<R>, st: PassState<R>, layer: nat) returns (st': PassState<R>)
      requires Valid() && InputsOk(Config(), inp) && layer < NumLayers && StateAt(inp, st, layer)
      requires ParamsOf(layer).resident
      ensures st' == ComputeSpec(k, Config(), inp, st, layer)
    {
      var n := inp.nTxt + inp.nImg;
      if inp.skipFirstLayer && layer == 0 {
        return st;
      }
      if layer < NumJointBlocks {
        assert ParamsOf(layer) == jointBlocks[layer].params;
        var hidden, encoder := jointBlocks[layer].Forward(k.joint(layer), st.hidden, st.encoder.value, inp.nImg, inp.nTxt);
        if inp.blockSamples.Some? {
          var idx := ControlnetIndex(layer, NumJointBlocks, |inp.blockSamples.value|);
          hidden := AddBatch(k.add, hidden, inp.blockSamples.value[idx], inp.nImg);
        }
        return PassState(hidden, Some(encoder));
      }
      var x := st.hidden;
      if layer == NumJointBlocks {
        x := MergeStreams(st.encoder.value, x, inp.nTxt, inp.nImg);
      }
      var i := layer - NumJointBlocks;
      assert singleBlocks[i].attnImpl == Config().singleImpl[i];
      assert ParamsOf(layer) == singleBlocks[i].params;
      var y := singleBlocks[i].Forward(k.single(i), x, n);
      if inp.singleSamples.Some? {
        var idx := ControlnetIndex(i, NumSingleBlocks, |inp.singleSamples.value|);
        y := InjectImage(k.add, y, inp.nTxt, inp.nImg, inp.singleSamples.value[idx]);
      }
      st' := PassState(y, None);
    }

    /** One step of the offload helper: `load(layer)`, `compute(layer)`, `unload(layer)`. */
    method RunLayer<R>(k: ModelKernels<R>, inp: PassInputs<R>, st: PassState<R>, layer: nat) returns (st': PassState<R>)
      requires Valid() && InputsOk(Config(), inp) && layer < NumLayers
      requires st == RunSpec(k, Config(), inp, layer)
      modifies ParamsOf(layer)`resident
      ensures Valid() && Config() == old(Config())
      ensures st' == RunSpec(k, Config(), inp, layer + 1)
      ensures ParamsOf(layer).resident == !ParamsOf(layer).lazyLoad
    {
      LoadLayer(layer);
      st' := Compute(k, inp, st, layer);
      UnloadLayer(layer);
    }

    /**
     * `forward`: every layer in order, each loaded before it is computed and
     * released after. The result is the whole pass; afterwards exactly the
     * weights that are not lazily loaded remain resident.
     */
    method Forward<R>(k: ModelKernels<R>, inp: PassInputs<R>) returns (out: Batch<R>)
      requires Valid() && InputsOk(Config(), inp)
      modifies Repr
      ensures Valid()
      ensures out == RunSpec(k, Config(), inp, NumLayers).hidden
      ensures Rect(out, |inp.hidden|, inp.nTxt + inp.nImg)
      ensures forall i :: 0 <= i < NumLayers ==> ParamsOf(i).resident == (!offload || i == 0)
    {
      ghost var cfg := Config();
      var st := PassState(inp.hidden, Some(inp.encoder));
      for layer := 0 to NumLayers
        invariant Valid() && Config() == cfg
        invariant st == RunSpec(k, cfg, inp, layer)
        invariant forall i :: 0 <= i < layer ==> ParamsOf(i).resident == !ParamsOf(i).lazyLoad
      {
        st := RunLayer(k, inp, st, layer);
      }
      out := st.hidden;
      ForwardOutputShape(k, cfg, inp);
    }

    /**
     * `forward_layer`: one joint block with its ControlNet sample. A layer
     * number past the joint blocks makes `transformer_blocks.at` throw.
     */
    method ForwardLayer<R>(k: ModelKernels<R>, layer: nat, hidden: Batch<R>, encoder: Batch<R>,
                           nImg: nat, nTxt: nat, blockSamples: Option<seq<Batch<R>>>)
      returns (r: Result<(Batch<R>, Batch<R>), BlockRef>)
      requires Sized()
      requires Rect(hidden, |hidden|, nImg) && Rect(encoder, |hidden|, nTxt)
      requires SamplesOk(blockSamples, |hidden|, nImg)
      requires forall i :: 0 <= i < NumJointBlocks ==> !jointBlocks[i].contextPreOnly
      requires layer < NumJointBlocks ==> ParamsOf(layer).resident
      ensures r.Failure? <==> layer >= NumJointBlocks
      ensures r.Failure? ==> r.error == Joint(layer)
      ensures r.Success? ==>
        r.value == JointLayerSpec(k, Config().jointImpl[layer], layer, hidden, encoder, nImg, nTxt, blockSamples)
    {
      if layer >= |jointBlocks| {
        return Failure(Joint(layer));
      }
      assert ParamsOf(layer) == jointBlocks[layer].params;
      var h, e := jointBlocks[layer].Forward(k.joint(layer), hidden, encoder, nImg, nTxt);
      if blockSamples.Some? {
        var idx := ControlnetIndex(layer, NumJointBlocks, |blockSamples.value|);
        h := AddBatch(k.add, h, blockSamples.value[idx], nImg);
      }
      r := Success((h, e));
    }

    /** `setAttentionImpl`: switches every block, joint and single, to `impl`. */
    method SetAttentionImpl(impl: AttentionImpl)
      requires Sized()
      modifies jointBlocks, singleBlocks
      ensures Config() == ModelConfig(seq(NumJointBlocks, _ => impl), seq(NumSingleBlocks, _ => impl))
    {
      for i := 0 to |jointBlocks|
        invariant forall j :: 0 <= j < i ==> jointBlocks[j].attnImpl == impl
      {
        jointBlocks[i].attnImpl := impl;
      }
      for i := 0 to |singleBlocks|
        invariant forall j :: 0 <= j < |jointBlocks| ==> jointBlocks[j].attnImpl == impl
        invariant forall j :: 0 <= j < i ==> singleBlocks[j].attnImpl == impl
      {
        singleBlocks[i].attnImpl := impl;
      }
      assert Config().jointImpl == seq(NumJointBlocks, _ => impl);
      assert Config().singleImpl == seq(NumSingleBlocks, _ => impl);
    }
  }
}
