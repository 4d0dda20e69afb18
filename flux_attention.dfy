/**
 * The bookkeeping of `Attention` in src/FluxModel.cpp: the per-head mask-type
 * table filled by the constructor, and the cached table of per-batch token
 * offsets (`cu_seqlens_cpu`) that the block-sparse entry point checks and
 * rebuilds. The attention arithmetic itself is not modelled here.
 */
module FluxAttention {

  /** The attention strategies a block can be switched between. */
  datatype AttentionImpl = FlashAttention2 | NunchakuFP16

  /**
   * The offset table for `batchSize` sequences of `numTokens` tokens each:
   * entry `i` is where sequence `i` starts in the packed token dimension.
   */
  function CuSeqlens(batchSize: nat, numTokens: int): (s: seq<int>)
    ensures |s| == batchSize + 1
  {
    seq(batchSize + 1, i => numTokens * i)
  }

  /**
   * The table really describes the packing: it starts at 0, sequence `i`
   * spans exactly `numTokens` positions from entry `i` to entry `i + 1`, and
   * the last entry is the total token count.
   */
  lemma CuSeqlensDescribesPacking(batchSize: nat, numTokens: int)
    ensures CuSeqlens(batchSize, numTokens)[0] == 0
    ensures forall i :: 0 <= i < batchSize ==>
      CuSeqlens(batchSize, numTokens)[i + 1] - CuSeqlens(batchSize, numTokens)[i] == numTokens
    ensures CuSeqlens(batchSize, numTokens)[batchSize] == batchSize * numTokens
  {
    var s := CuSeqlens(batchSize, numTokens);
    forall i | 0 <= i < batchSize
      ensures s[i + 1] - s[i] == numTokens
    {
      assert s[i + 1] == numTokens * (i + 1) == numTokens * i + numTokens;
    }
  }

  /** The check loop: does the cached table already hold exactly the offsets wanted? */
  method CacheMatches(cache: array<int>, batchSize: nat, numTokens: int) returns (ok: bool)
    ensures ok <==> cache[..] == CuSeqlens(batchSize, numTokens)
  {
    if cache.Length != batchSize + 1 {
      return false;
    }
    ok := true;
    var i := 0;
    while i <= batchSize
      invariant 0 <= i <= batchSize + 1
      invariant forall j :: 0 <= j < i ==> cache[j] == numTokens * j
    {
      if cache[i] != numTokens * i {
        return false;
      }
      i := i + 1;
    }
  }

  /** The rebuild loop: entry 0 is 0 and each entry adds `numTokens` to the previous one. */
  method BuildCuSeqlens(batchSize: nat, numTokens: int) returns (table: array<int>)
    ensures fresh(table)
    ensures table[..] == CuSeqlens(batchSize, numTokens)
  {
    table := new int[batchSize + 1];
    table[0] := 0;
    var i := 1;
    while i <= batchSize
      invariant 1 <= i <= batchSize + 1
      invariant forall j :: 0 <= j < i ==> table[j] == numTokens * j
    {
      table[i] := table[i - 1] + numTokens;
      assert table[i] == numTokens * i;
      i := i + 1;
    }
  }

  class Attention {
    const numHeads: nat
    const dimHead: nat
    var forceFp16: bool
    const headmaskType: array<int>
    /** `cu_seqlens_cpu`; `null` is the empty (invalid) tensor. */
    var cuSeqlensCpu: array?<int>

    /** Head `i` gets mask type `i + 1`; no offset table is cached yet. */
    constructor (numHeads: nat, dimHead: nat)
      ensures this.numHeads == numHeads && this.dimHead == dimHead && !forceFp16
      ensures fresh(headmaskType) && headmaskType.Length == numHeads
      ensures forall i :: 0 <= i < numHeads ==> headmaskType[i] == i + 1
      ensures cuSeqlensCpu == null
    {
      this.numHeads := numHeads;
      this.dimHead := dimHead;
      forceFp16 := false;
      var mask := new int[numHeads];
      var i := 0;
      while i < numHeads
        invariant 0 <= i <= numHeads
        invariant forall j :: 0 <= j < i ==> mask[j] == j + 1
      {
        mask[i] := i + 1;
        i := i + 1;
      }
      headmaskType := mask;
      cuSeqlensCpu := null;
    }

    /**
     * The offset-cache step of the block-sparse `forward`: afterwards the
     * cache holds exactly the offsets for this call; an existing table is
     * kept, untouched, only when it already matched, and is replaced by a
     * freshly built one otherwise.
     */
    method PrepareCuSeqlens(batchSize: nat, numTokens: int)
      modifies this`cuSeqlensCpu
      ensures cuSeqlensCpu != null && cuSeqlensCpu[..] == CuSeqlens(batchSize, numTokens)
      ensures (old(cuSeqlensCpu) != null && old(cuSeqlensCpu[..]) == CuSeqlens(batchSize, numTokens))
        <==> cuSeqlensCpu == old(cuSeqlensCpu)
      ensures cuSeqlensCpu != old(cuSeqlensCpu) ==> fresh(cuSeqlensCpu)
    {
      if cuSeqlensCpu != null {
        var ok := CacheMatches(cuSeqlensCpu, batchSize, numTokens);
        if !ok {
          cuSeqlensCpu := null;
        }
      }
      if cuSeqlensCpu == null {
        cuSeqlensCpu := BuildCuSeqlens(batchSize, numTokens);
      }
    }
  }
}
