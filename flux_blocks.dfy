/**
 * The joint (image + text) and single (merged) transformer blocks of
 * src/FluxModel.cpp, reduced to where each token goes.
 *
 * A tensor is a batch of token sequences; `R` is one token row. Every step of
 * a block except attention works token by token (normalisation, modulation,
 * the quantized projections, the MLP, the gated residual adds), so each is an
 * opaque per-token function; attention is an opaque function that may read
 * the whole packed sequence to produce each output row. What remains exact is
 * the placement of tokens: packing, padding, splitting and slicing.
 */
module FluxBlocks {
  import opened CudaCommon
  import opened FluxAttention

  type Batch<R> = seq<seq<R>>

  /** A well-formed tensor: `batch` items of `tokens` rows each. */
  predicate Rect<R>(x: Batch<R>, batch: nat, tokens: nat)
  {
    |x| == batch && forall b :: 0 <= b < |x| ==> |x[b]| == tokens
  }

  /** The reduced-precision attention kernel works on token counts padded to this. */
  const Fp16TokenAlign: nat := 256

  /** `ceilDiv(n, 256) * 256`: the FP16 path's padded token count. */
  function PadTokens(n: nat): (p: nat)
    ensures p % Fp16TokenAlign == 0
    ensures n <= p < n + Fp16TokenAlign
  {
    var c := CeilDiv(n, Fp16TokenAlign);
    assert (c * Fp16TokenAlign) % Fp16TokenAlign == 0;
    c * Fp16TokenAlign
  }

  /** Token count after padding: unchanged for FlashAttention2, padded for the FP16 path. */
  function PaddedLength(impl: AttentionImpl, n: nat): (p: nat)
    ensures n <= p
  {
    if impl == FlashAttention2 then n else PadTokens(n)
  }

  /** `s` followed by `pad` rows up to length `n`. */
  function PadTo<R>(s: seq<R>, n: nat, pad: R): (r: seq<R>)
    requires |s| <= n
    ensures |r| == n && r[..|s|] == s
    ensures forall i :: |s| <= i < n ==> r[i] == pad
  {
    s + seq(n - |s|, _ => pad)
  }

  /** A per-token kernel over one batch item; it may depend on the item and the position. */
  function Project<R>(f: (nat, nat, R) -> R, b: nat, x: seq<R>): (r: seq<R>)
    ensures |r| == |x| && forall t :: 0 <= t < |x| ==> r[t] == f(b, t, x[t])
  {
    seq(|x|, t requires 0 <= t < |x| => f(b, t, x[t]))
  }

  /** An attention kernel: output row `i` may read the whole packed sequence. */
  function Attend<R>(f: (seq<R>, nat) -> R, packed: seq<R>): (r: seq<R>)
    ensures |r| == |packed| && forall i :: 0 <= i < |packed| ==> r[i] == f(packed, i)
  {
    seq(|packed|, i requires 0 <= i < |packed| => f(packed, i))
  }

  /** The per-token tail of a block: (batch item, attention row, residual row) to output row. */
  function Post<R>(f: (nat, R, R) -> R, b: nat, attn: seq<R>, x: seq<R>): (r: seq<R>)
    requires |attn| == |x|
    ensures |r| == |x| && forall t :: 0 <= t < |x| ==> r[t] == f(b, attn[t], x[t])
  {
    seq(|x|, t requires 0 <= t < |x| => f(b, attn[t], x[t]))
  }

  // ---------------------------------------------------------------------------
  // Contiguous buffers and the strided device copy

  /** A batch laid out item after item in one buffer. */
  function Flatten<R>(x: Batch<R>): seq<R>
  {
    if x == [] then [] else x[0] + Flatten(x[1..])
  }

  lemma {:induction false} FlattenLength<R>(x: Batch<R>, batch: nat, tokens: nat)
    requires Rect(x, batch, tokens)
    ensures |Flatten(x)| == batch * tokens
  {
    if x != [] {
      FlattenLength(x[1..], batch - 1, tokens);
    }
  }

  /** Cuts a contiguous buffer back into `batch` items of `width` rows. */
  function Unflatten<R>(flat: seq<R>, width: nat, batch: nat): (x: Batch<R>)
    requires |flat| == batch * width
    ensures Rect(x, batch, width)
  {
    if batch == 0 then [] else [flat[..width]] + Unflatten(flat[width..], width, batch - 1)
  }

  lemma {:induction false} UnflattenFlatten<R>(x: Batch<R>, batch: nat, width: nat)
    requires Rect(x, batch, width)
    ensures |Flatten(x)| == batch * width
    ensures Unflatten(Flatten(x), width, batch) == x
  {
    FlattenLength(x, batch, width);
    if batch > 0 {
      UnflattenFlatten(x[1..], batch - 1, width);
      assert Flatten(x)[..width] == x[0];
      assert Flatten(x)[width..] == Flatten(x[1..]);
    }
  }

  /**
   * `cudaMemcpy2DAsync` counted in token rows: `height` rows of `width`
   * tokens, the first starting at `offset`, each next one `pitch` further on.
   */
  function Copy2D<R>(src: seq<R>, offset: nat, pitch: nat, width: nat, height: nat): (r: seq<R>)
    requires offset + width <= pitch && height * pitch <= |src|
    ensures |r| == height * width
  {
    if height == 0 then []
    else src[offset..offset + width] + Copy2D(src[pitch..], offset, pitch, width, height - 1)
  }

  /** Rows `[offset, offset + width)` of every item. */
  function Slices<R>(x: Batch<R>, offset: nat, width: nat): (r: Batch<R>)
    requires forall b :: 0 <= b < |x| ==> offset + width <= |x[b]|
    ensures Rect(r, |x|, width)
    ensures forall b :: 0 <= b < |x| ==> r[b] == x[b][offset..offset + width]
  {
    seq(|x|, b requires 0 <= b < |x| => x[b][offset..offset + width])
  }

  /** The strided copy out of a packed buffer picks the same rows as slicing each item. */
  lemma {:induction false} Copy2DSlices<R>(x: Batch<R>, batch: nat, pitch: nat, offset: nat, width: nat)
    requires Rect(x, batch, pitch) && offset + width <= pitch
    ensures |Flatten(x)| == batch * pitch
    ensures Copy2D(Flatten(x), offset, pitch, width, batch) == Flatten(Slices(x, offset, width))
  {
    FlattenLength(x, batch, pitch);
    if batch > 0 {
      Copy2DSlices(x[1..], batch - 1, pitch, offset, width);
      var f := Flatten(x);
      assert f[offset..offset + width] == x[0][offset..offset + width];
      assert f[pitch..] == Flatten(x[1..]);
      assert Slices(x, offset, width)[1..] == Slices(x[1..], offset, width);
    }
  }

  /**
   * One half of the split after joint attention, as the code does it: a
   * zero-copy slice for a single item, the strided copy for larger batches.
   */
  function SplitTokens<R>(raw: Batch<R>, batch: nat, pitch: nat, offset: nat, width: nat): (r: Batch<R>)
    requires Rect(raw, batch, pitch) && offset + width <= pitch
    ensures r == Slices(raw, offset, width)
  {
    if batch == 1 then [raw[0][offset..offset + width]]
    else
      Copy2DSlices(raw, batch, pitch, offset, width);
      UnflattenFlatten(Slices(raw, offset, width), batch, width);
      Unflatten(Copy2D(Flatten(raw), offset, pitch, width, batch), width, batch)
  }

  // ---------------------------------------------------------------------------
  // Joint block

  /** The numeric kernels of one joint block, with this call's `temb` and rotary tables folded in. */
  datatype JointKernels<!R> = JointKernels(
    qkvImg: (nat, nat, R) -> R,         // norm1, modulation and qkv_proj of an image token
    qkvTxt: (nat, nat, R) -> R,         // norm1_context, modulation and qkv_proj_context of a text token
    padding: R,                         // what the padded rows of the packed q/k/v hold
    attendDense: (seq<R>, nat) -> R,    // mha_fwd
    attendFp16: (seq<R>, nat) -> R,     // attention_fp16
    postImg: (nat, R, R) -> R,          // out_proj, gated residual, norm2, MLP, gated residual
    postTxt: (nat, R, R) -> R)          // the same with the context weights

  /** Output row `i` of the attention kernel the block is switched to. */
  function AttnRow<R>(impl: AttentionImpl, dense: (seq<R>, nat) -> R, fp16: (seq<R>, nat) -> R, packed: seq<R>, i: nat): R
  {
    if impl == FlashAttention2 then dense(packed, i) else fp16(packed, i)
  }

  /** Attention with the kernel `impl` selects: `mha_fwd` or `attention_fp16`. */
  function AttendWith<R>(impl: AttentionImpl, dense: (seq<R>, nat) -> R, fp16: (seq<R>, nat) -> R, packed: seq<R>): (r: seq<R>)
    ensures |r| == |packed|
    ensures forall i :: 0 <= i < |packed| ==> r[i] == AttnRow(impl, dense, fp16, packed, i)
  {
    if impl == FlashAttention2 then Attend(dense, packed) else Attend(fp16, packed)
  }

  /** One item's packed QKV: image tokens first, then text, each padded for the FP16 path. */
  function PackJoint<R>(k: JointKernels<R>, impl: AttentionImpl, b: nat, img: seq<R>, txt: seq<R>): (packed: seq<R>)
    ensures |packed| == PaddedLength(impl, |img|) + PaddedLength(impl, |txt|)
  {
    PadTo(Project(k.qkvImg, b, img), PaddedLength(impl, |img|), k.padding) +
    PadTo(Project(k.qkvTxt, b, txt), PaddedLength(impl, |txt|), k.padding)
  }

  /** Joint attention over every item of the batch. */
  function JointAttention<R>(k: JointKernels<R>, impl: AttentionImpl, img: Batch<R>, txt: Batch<R>): (raw: Batch<R>)
    requires |img| == |txt|
    ensures |raw| == |img|
  {
    seq(|img|, b requires 0 <= b < |img| =>
      AttendWith(impl, k.attendDense, k.attendFp16, PackJoint(k, impl, b, img[b], txt[b])))
  }

  /**
   * `JointTransformerBlock::forward` on a whole batch: image rows come back
   * from positions `[0, nImg)` of the attention output, text rows from
   * `[imgPad, imgPad + nTxt)`; a context-pre-only block returns the text
   * unchanged.
   */
  function JointSpec<R>(k: JointKernels<R>, impl: AttentionImpl, contextPreOnly: bool,
                        img: Batch<R>, txt: Batch<R>, nImg: nat, nTxt: nat): (r: (Batch<R>, Batch<R>))
    requires Rect(img, |img|, nImg) && Rect(txt, |img|, nTxt)
    ensures Rect(r.0, |img|, nImg) && Rect(r.1, |img|, nTxt)
  {
    var raw := JointAttention(k, impl, img, txt);
    var imgPad := PaddedLength(impl, nImg);
    var imgAttn := Slices(raw, 0, nImg);
    var txtAttn := Slices(raw, imgPad, nTxt);
    (seq(|img|, b requires 0 <= b < |img| => Post(k.postImg, b, imgAttn[b], img[b])),
     if contextPreOnly then txt
     else seq(|img|, b requires 0 <= b < |img| => Post(k.postTxt, b, txtAttn[b], txt[b])))
  }

  /**
   * The image stream gets back exactly its own token positions: image token
   * `t` sits at packed position `t` and its output reads attention row `t`.
   */
  lemma JointImageKeepsPositions<R>(k: JointKernels<R>, impl: AttentionImpl, contextPreOnly: bool,
                                    img: Batch<R>, txt: Batch<R>, nImg: nat, nTxt: nat, b: nat)
    requires Rect(img, |img|, nImg) && Rect(txt, |img|, nTxt) && b < |img|
    ensures var packed := PackJoint(k, impl, b, img[b], txt[b]);
      var out := JointSpec(k, impl, contextPreOnly, img, txt, nImg, nTxt);
      forall t :: 0 <= t < nImg ==>
        packed[t] == k.qkvImg(b, t, img[b][t]) &&
        out.0[b][t] == k.postImg(b, AttnRow(impl, k.attendDense, k.attendFp16, packed, t), img[b][t])
  {
    var pi := PadTo(Project(k.qkvImg, b, img[b]), PaddedLength(impl, nImg), k.padding);
    var packed := PackJoint(k, impl, b, img[b], txt[b]);
    var raw := JointAttention(k, impl, img, txt);
    var out := JointSpec(k, impl, contextPreOnly, img, txt, nImg, nTxt);
    assert raw[b] == AttendWith(impl, k.attendDense, k.attendFp16, packed);
    assert out.0[b] == Post(k.postImg, b, Slices(raw, 0, nImg)[b], img[b]);
    forall t | 0 <= t < nImg
      ensures packed[t] == k.qkvImg(b, t, img[b][t])
    {
      assert packed[t] == pi[t] == pi[..nImg][t];
    }
  }

  /**
   * The text stream starts after the (padded) image stream: text token `j`
   * sits at `imgPad + j`, and unless the block is context-pre-only its
   * output reads attention row `imgPad + j`. The padding never lands inside
   * either stream.
   */
  lemma JointTextKeepsPositions<R>(k: JointKernels<R>, impl: AttentionImpl, contextPreOnly: bool,
                                   img: Batch<R>, txt: Batch<R>, nImg: nat, nTxt: nat, b: nat)
    requires Rect(img, |img|, nImg) && Rect(txt, |img|, nTxt) && b < |img|
    ensures var packed := PackJoint(k, impl, b, img[b], txt[b]);
      var imgPad := PaddedLength(impl, nImg);
      var out := JointSpec(k, impl, contextPreOnly, img, txt, nImg, nTxt);
      && nImg <= imgPad && imgPad + nTxt <= |packed|
      && (forall j :: 0 <= j < nTxt ==> packed[imgPad + j] == k.qkvTxt(b, j, txt[b][j]))
      && (!contextPreOnly ==> forall j :: 0 <= j < nTxt ==>
            out.1[b][j] == k.postTxt(b, AttnRow(impl, k.attendDense, k.attendFp16, packed, imgPad + j), txt[b][j]))
  {
    var imgPad := PaddedLength(impl, nImg);
    var pi := PadTo(Project(k.qkvImg, b, img[b]), imgPad, k.padding);
    var pt := PadTo(Project(k.qkvTxt, b, txt[b]), PaddedLength(impl, nTxt), k.padding);
    var packed := PackJoint(k, impl, b, img[b], txt[b]);
    assert packed == pi + pt;
    var raw := JointAttention(k, impl, img, txt);
    var out := JointSpec(k, impl, contextPreOnly, img, txt, nImg, nTxt);
    assert raw[b] == AttendWith(impl, k.attendDense, k.attendFp16, packed);
    if !contextPreOnly {
      assert out.1[b] == Post(k.postTxt, b, Slices(raw, imgPad, nTxt)[b], txt[b]);
    }
    forall j | 0 <= j < nTxt
      ensures packed[imgPad + j] == k.qkvTxt(b, j, txt[b][j])
    {
      assert packed[imgPad + j] == pt[j] == pt[..nTxt][j];
    }
  }

  /** A context-pre-only block hands the text stream back bit for bit. */
  lemma ContextPreOnlyKeepsText<R>(k: JointKernels<R>, impl: AttentionImpl,
                                   img: Batch<R>, txt: Batch<R>, nImg: nat, nTxt: nat)
    requires Rect(img, |img|, nImg) && Rect(txt, |img|, nTxt)
    ensures JointSpec(k, impl, true, img, txt, nImg, nTxt).1 == txt
  {
  }

  // ---------------------------------------------------------------------------
  // Single block

  /** The numeric kernels of one single block, with `temb` and the rotary table folded in. */
  datatype SingleKernels<!R> = SingleKernels(
    qkv: (nat, nat, R) -> R,            // norm, modulation and qkv_proj of a token
    padding: R,                         // what the padded rows of q/k/v hold
    attendDense: (seq<R>, nat) -> R,    // mha_fwd
    attendFp16: (seq<R>, nat) -> R,     // attention_fp16
    combine: (nat, R, R) -> R)          // out_proj(attn) + MLP(normed input), gated residual add

  function PackSingle<R>(k: SingleKernels<R>, impl: AttentionImpl, b: nat, x: seq<R>): (packed: seq<R>)
    ensures |packed| == PaddedLength(impl, |x|)
  {
    PadTo(Project(k.qkv, b, x), PaddedLength(impl, |x|), k.padding)
  }

  /**
   * `FluxSingleTransformerBlock::forward`. The FP16 path asserts a batch of
   * one; it pads to a multiple of 256 and keeps only the first `num_tokens`
   * rows of the attention output.
   */
  function SingleSpec<R>(k: SingleKernels<R>, impl: AttentionImpl, x: Batch<R>, n: nat): (r: Batch<R>)
    requires Rect(x, |x|, n)
    requires impl == NunchakuFP16 ==> |x| == 1
    ensures Rect(r, |x|, n)
  {
    seq(|x|, b requires 0 <= b < |x| =>
      var raw := AttendWith(impl, k.attendDense, k.attendFp16, PackSingle(k, impl, b, x[b]));
      Post(k.combine, b, raw[..n], x[b]))
  }

  /**
   * The single block's output row `t` is built from row `t` of the (possibly
   * padded) attention output and input row `t`; input token `t` is packed at
   * position `t`, and the padded length is a multiple of 256 below `n + 256`.
   */
  lemma SingleReturnsLeadingRows<R>(k: SingleKernels<R>, impl: AttentionImpl, x: Batch<R>, n: nat, b: nat)
    requires Rect(x, |x|, n) && (impl == NunchakuFP16 ==> |x| == 1) && b < |x|
    ensures var packed := PackSingle(k, impl, b, x[b]);
      && (impl == NunchakuFP16 ==> |packed| % 256 == 0 && n <= |packed| < n + 256)
      && (impl == FlashAttention2 ==> |packed| == n)
      && (forall t :: 0 <= t < n ==> packed[t] == k.qkv(b, t, x[b][t]))
      && (forall t :: 0 <= t < n ==> SingleSpec(k, impl, x, n)[b][t] == k.combine(b, AttnRow(impl, k.attendDense, k.attendFp16, packed, t), x[b][t]))
  {
    var p := Project(k.qkv, b, x[b]);
    var packed := PackSingle(k, impl, b, x[b]);
    var raw := AttendWith(impl, k.attendDense, k.attendFp16, packed);
    assert SingleSpec(k, impl, x, n)[b] == Post(k.combine, b, raw[..n], x[b]);
    forall t | 0 <= t < n
      ensures packed[t] == k.qkv(b, t, x[b][t])
      ensures SingleSpec(k, impl, x, n)[b][t] == k.combine(b, AttnRow(impl, k.attendDense, k.attendFp16, packed, t), x[b][t])
    {
      assert packed[t] == packed[..n][t] == p[t];
      assert raw[..n][t] == raw[t];
    }
  }

  // ---------------------------------------------------------------------------
  // Block objects

  /** A module's lazily loaded parameters: `setLazyLoad`, `releaseLazyParams`, `loadLazyParams`. */
  class LazyParams {
    var lazyLoad: bool
    var resident: bool

    constructor ()
      ensures !lazyLoad && resident
    {
      lazyLoad := false;
      resident := true;
    }

    method SetLazyLoad(value: bool)
      modifies this`lazyLoad
      ensures lazyLoad == value
    {
      lazyLoad := value;
    }

    /** Frees the weights, but only of a lazily loaded module. */
    method ReleaseLazyParams()
      modifies this`resident
      ensures resident == (old(resident) && !lazyLoad)
    {
      if lazyLoad {
        resident := false;
      }
    }

    /** Brings a lazily loaded module's weights back. */
    method LoadLazyParams()
      modifies this`resident
      ensures resident == (old(resident) || lazyLoad)
    {
      if lazyLoad {
        resident := true;
      }
    }
  }

  class JointTransformerBlock {
    const dim: nat
    const contextPreOnly: bool
    const attn: Attention
    const params: LazyParams
    var attnImpl: AttentionImpl

    constructor (dim: nat, numAttentionHeads: nat, attentionHeadDim: nat, contextPreOnly: bool)
      requires numAttentionHeads > 0
      ensures this.dim == dim && this.contextPreOnly == contextPreOnly && attnImpl == FlashAttention2
      ensures fresh(attn) && fresh(params) && !params.lazyLoad && params.resident
      ensures attn.numHeads == numAttentionHeads && attn.dimHead == attentionHeadDim / numAttentionHeads
    {
      this.dim := dim;
      this.contextPreOnly := contextPreOnly;
      attn := new Attention(numAttentionHeads, attentionHeadDim / numAttentionHeads);
      params := new LazyParams();
      attnImpl := FlashAttention2;
    }

    /**
     * `forward`: one qkv-projection call per batch item packs image then
     * text; attention runs once; the split comes back per item.
     */
    method Forward<R>(k: JointKernels<R>, img: Batch<R>, txt: Batch<R>, nImg: nat, nTxt: nat)
      returns (img': Batch<R>, txt': Batch<R>)
      requires Rect(img, |img|, nImg) && Rect(txt, |img|, nTxt)
      requires params.resident
      ensures (img', txt') == JointSpec(k, attnImpl, contextPreOnly, img, txt, nImg, nTxt)
    {
      var batch := |img|;
      var imgPad := PaddedLength(attnImpl, nImg);
      var txtPad := PaddedLength(attnImpl, nTxt);
      var packed: Batch<R> := [];
      for i := 0 to batch
        invariant |packed| == i
        invariant forall b :: 0 <= b < i ==> packed[b] == PackJoint(k, attnImpl, b, img[b], txt[b])
      {
        packed := packed + [PackJoint(k, attnImpl, i, img[i], txt[i])];
      }
      var impl := attnImpl;
      var raw := seq(batch, b requires 0 <= b < batch => AttendWith(impl, k.attendDense, k.attendFp16, packed[b]));
      assert raw == JointAttention(k, attnImpl, img, txt);
      var imgAttn := SplitTokens(raw, batch, imgPad + txtPad, 0, nImg);
      img' := seq(batch, b requires 0 <= b < batch => Post(k.postImg, b, imgAttn[b], img[b]));
      if contextPreOnly {
        txt' := txt;
        return;
      }
      var txtAttn := SplitTokens(raw, batch, imgPad + txtPad, imgPad, nTxt);
      txt' := seq(batch, b requires 0 <= b < batch => Post(k.postTxt, b, txtAttn[b], txt[b]));
    }
  }

  class FluxSingleTransformerBlock {
    const dim: nat
    const attn: Attention
    const params: LazyParams
    var attnImpl: AttentionImpl

    constructor (dim: nat, numAttentionHeads: nat, attentionHeadDim: nat)
      requires numAttentionHeads > 0
      ensures this.dim == dim && attnImpl == FlashAttention2
      ensures fresh(attn) && fresh(params) && !params.lazyLoad && params.resident
      ensures attn.numHeads == numAttentionHeads && attn.dimHead == attentionHeadDim / numAttentionHeads
    {
      this.dim := dim;
      attn := new Attention(numAttentionHeads, attentionHeadDim / numAttentionHeads);
      params := new LazyParams();
      attnImpl := FlashAttention2;
    }

    /**
     * `forward`: the dense path attends over the tokens as they are; the
     * FP16 path takes a batch of one, pads to a multiple of 256 tokens and
     * keeps the first `n` rows of the output.
     */
    method Forward<R>(k: SingleKernels<R>, x: Batch<R>, n: nat) returns (y: Batch<R>)
      requires Rect(x, |x|, n)
      requires attnImpl == NunchakuFP16 ==> |x| == 1
      requires params.resident
      ensures y == SingleSpec(k, attnImpl, x, n)
    {
      if attnImpl == FlashAttention2 {
        var raw := seq(|x|, b requires 0 <= b < |x| => Attend(k.attendDense, Project(k.qkv, b, x[b])));
        y := seq(|x|, b requires 0 <= b < |x| => Post(k.combine, b, raw[b], x[b]));
        forall b | 0 <= b < |x|
          ensures y[b] == SingleSpec(k, attnImpl, x, n)[b]
        {
          assert PackSingle(k, attnImpl, b, x[b]) == Project(k.qkv, b, x[b]);
          assert raw[b][..n] == raw[b];
        }
      } else {
        var padded := PadTokens(n);
        var packed := PadTo(Project(k.qkv, 0, x[0]), padded, k.padding);
        var o := Attend(k.attendFp16, packed);
        y := [Post(k.combine, 0, o[..n], x[0])];
        assert packed == PackSingle(k, attnImpl, 0, x[0]);
      }
    }
  }
}
