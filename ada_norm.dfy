/**
 * Adaptive layer normalisation (`AdaLayerNormZero`, `AdaLayerNormZeroSingle`
 * in src/FluxModel.cpp). The conditioning embedding goes through `Silu` and a
 * linear layer whose width is a fixed multiple of `dim`; the result is cut
 * into equal contiguous chunks in a fixed order. The arithmetic is abstract:
 * `S` is a scalar of the embedding, `R` a token row, and the kernels are
 * function-valued parameters.
 */
module AdaNorm {

  /** The numeric kernels one normalisation layer uses. */
  datatype NormKernels<!R, !S> = NormKernels(
    silu: S -> S,                       // element-wise activation
    linear: (seq<S>, nat) -> S,         // output column j of the linear layer
    norm: R -> R,                       // affine-free norm of one token row
    mulAdd: (R, seq<S>, seq<S>) -> R)   // row * (1 + scale) + shift

  /** Cuts `v` into `k` consecutive chunks of width `w` (`split_mod<k>`). */
  function SplitMod<S>(v: seq<S>, k: nat, w: nat): (chunks: seq<seq<S>>)
    requires |v| == k * w
    ensures |chunks| == k
  {
    if k == 0 then [] else [v[..w]] + SplitMod(v[w..], k - 1, w)
  }

  /** Joins chunks back together. */
  function Concat<S>(chunks: seq<seq<S>>): seq<S>
  {
    if chunks == [] then [] else chunks[0] + Concat(chunks[1..])
  }

  /** Chunk `j` is the slice `[j*w, (j+1)*w)` of the input. */
  lemma {:induction false} SplitModChunk<S>(v: seq<S>, k: nat, w: nat, j: nat)
    requires |v| == k * w && j < k
    ensures (j + 1) * w <= |v|
    ensures SplitMod(v, k, w)[j] == v[j * w..(j + 1) * w]
  {
    PeelWidth(k, w);
    PeelWidth(j + 1, w);
    var tail := v[w..];
    assert |tail| == (k - 1) * w;
    assert SplitMod(v, k, w) == [v[..w]] + SplitMod(tail, k - 1, w);
    if j > 0 {
      PeelWidth(j, w);
      SplitModChunk(tail, k - 1, w, j - 1);
      assert tail[(j - 1) * w..j * w] == v[j * w..(j + 1) * w];
    }
  }

  /** Splitting loses nothing: the chunks join back to the input. */
  lemma {:induction false} SplitModRoundTrip<S>(v: seq<S>, k: nat, w: nat)
    requires |v| == k * w
    ensures Concat(SplitMod(v, k, w)) == v
  {
    if k > 0 {
      PeelWidth(k, w);
      var tail := v[w..];
      assert |tail| == (k - 1) * w;
      var rest := SplitMod(tail, k - 1, w);
      assert SplitMod(v, k, w) == [v[..w]] + rest;
      SplitModRoundTrip(tail, k - 1, w);
      ConcatCons(v[..w], rest);
      assert v[..w] + tail == v;
    }
  }

  lemma PeelWidth(k: nat, w: nat)
    requires k > 0
    ensures k * w == (k - 1) * w + w
  {
  }

  lemma ConcatCons<S>(c: seq<S>, rest: seq<seq<S>>)
    ensures Concat([c] + rest) == c + Concat(rest)
  {
    assert ([c] + rest)[1..] == rest;
  }

  /** `linear.forward(Silu::forward(emb))` with `width` output columns. */
  function Modulation<R, S>(k: NormKernels<R, S>, emb: seq<S>, width: nat): (e: seq<S>)
    ensures |e| == width
  {
    var act := seq(|emb|, i requires 0 <= i < |emb| => k.silu(emb[i]));
    seq(width, j requires 0 <= j < width => k.linear(act, j))
  }

  /** `norm(x)` followed by the fused `mul_add(norm_x, scale, shift)`, row by row. */
  function Modulate<R, S>(k: NormKernels<R, S>, x: seq<R>, scale: seq<S>, shift: seq<S>): (y: seq<R>)
    ensures |y| == |x|
  {
    seq(|x|, t requires 0 <= t < |x| => k.mulAdd(k.norm(x[t]), scale, shift))
  }

  /** The result shapes of the variants, with named fields. */
  datatype NormOutput<R, S> =
    | Full(x: seq<R>, gateMsa: seq<S>, shiftMlp: seq<S>, scaleMlp: seq<S>, gateMlp: seq<S>)
    | PreOnly(x: seq<R>)

  datatype SingleNormOutput<R, S> = SingleNormOutput(x: seq<R>, gate: seq<S>)

  /** `AdaLayerNormZero(dim, pre_only)`: the linear layer's width is `2*dim` or `6*dim`. */
  datatype AdaLayerNormZero = AdaLayerNormZero(dim: nat, preOnly: bool)
  {
    function Chunks(): (n: nat)
      ensures n == (if preOnly then 2 else 6)
    {
      if preOnly then 2 else 6
    }

    /**
     * `forward(x, emb)`. Chunk order: shift_msa, scale_msa, gate_msa,
     * shift_mlp, scale_mlp, gate_mlp (the pre-only layer has just the first
     * two). `x` is modulated by the first two chunks; the full layer hands
     * back the other four unchanged.
     */
    function Forward<R, S>(k: NormKernels<R, S>, x: seq<R>, emb: seq<S>): (out: NormOutput<R, S>)
      ensures out.PreOnly? <==> preOnly
      ensures var e := Modulation(k, emb, Chunks() * dim);
        && out.x == Modulate(k, x, e[dim..2 * dim], e[..dim])
        && (out.Full? ==>
          && out.gateMsa == e[2 * dim..3 * dim]
          && out.shiftMlp == e[3 * dim..4 * dim]
          && out.scaleMlp == e[4 * dim..5 * dim]
          && out.gateMlp == e[5 * dim..6 * dim])
    {
      var e := Modulation(k, emb, Chunks() * dim);
      var c := SplitMod(e, Chunks(), dim);
      SplitModChunk(e, Chunks(), dim, 0);
      SplitModChunk(e, Chunks(), dim, 1);
      if preOnly then
        PreOnly(Modulate(k, x, c[1], c[0]))
      else
        SplitModChunk(e, 6, dim, 2);
        SplitModChunk(e, 6, dim, 3);
        SplitModChunk(e, 6, dim, 4);
        SplitModChunk(e, 6, dim, 5);
        Full(Modulate(k, x, c[1], c[0]), c[2], c[3], c[4], c[5])
    }
  }

  /** `AdaLayerNormZeroSingle(dim)`: width `3*dim`, chunks shift_msa, scale_msa, gate_msa. */
  datatype AdaLayerNormZeroSingle = AdaLayerNormZeroSingle(dim: nat)
  {
    function Forward<R, S>(k: NormKernels<R, S>, x: seq<R>, emb: seq<S>): (out: SingleNormOutput<R, S>)
      ensures var e := Modulation(k, emb, 3 * dim);
        && out.x == Modulate(k, x, e[dim..2 * dim], e[..dim])
        && out.gate == e[2 * dim..3 * dim]
    {
      var e := Modulation(k, emb, 3 * dim);
      var c := SplitMod(e, 3, dim);
      SplitModChunk(e, 3, dim, 0);
      SplitModChunk(e, 3, dim, 1);
      SplitModChunk(e, 3, dim, 2);
      SingleNormOutput(Modulate(k, x, c[1], c[0]), c[2])
    }
  }
}
