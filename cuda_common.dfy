/** Integer helpers and error checking shared by the whole engine (src/common.h). */
module CudaCommon {

  /** The value the driver returns for a successful call. */
  const CudaSuccess: int := 0

  /** The exception `checkCUDA` throws: it carries the failing status code. */
  datatype CudaError = CudaError(code: int)

  datatype Result<+T, +E> = Success(value: T) | Failure(error: E)

  datatype Option<+T> = None | Some(value: T)

  /** `checkCUDA`: hands back its argument when it is `cudaSuccess`, throws otherwise. */
  function CheckCuda(status: int): (r: Result<int, CudaError>)
    ensures r.Success? <==> status == CudaSuccess
    ensures r.Success? ==> r.value == status
    ensures r.Failure? ==> r.error.code == status
  {
    if status != CudaSuccess then Failure(CudaError(status)) else Success(status)
  }

  /** C++ integer division, which truncates toward zero. */
  function TruncDiv(x: int, d: int): (q: int)
    requires d > 0
    ensures x >= 0 ==> q == x / d
  {
    if x >= 0 then x / d else -((-x) / d)
  }

  /** `ceilDiv(a, b) = (a + b - 1) / b`, the number of `b`-sized pieces that cover `a`. */
  function CeilDiv(a: int, b: int): (r: int)
    requires b > 0
    ensures a >= 0 ==> r >= 0 && r * b >= a && (r - 1) * b < a
  {
    var q := TruncDiv(a + b - 1, b);
    assert a >= 0 ==> q * b + (a + b - 1) % b == a + b - 1;
    q
  }

  /** 2 to the power k. */
  function Pow2(k: nat): (p: nat)
    ensures p >= 1
  {
    if k == 0 then 1 else 2 * Pow2(k - 1)
  }

  lemma {:induction false} Pow2Monotone(j: nat, k: nat)
    requires j <= k
    ensures Pow2(j) <= Pow2(k)
  {
    if j < k {
      Pow2Monotone(j, k - 1);
    }
  }

  /**
   * `log2Up(v)`: 0 for every `v <= 1`, otherwise the exponent of the smallest
   * power of two that is at least `v`.
   */
  function Log2Up(v: int): (k: nat)
    ensures v <= 1 ==> k == 0
    ensures v >= 2 ==> k >= 1 && Pow2(k) >= v && Pow2(k - 1) < v
    decreases v
  {
    if v <= 0 then 0
    else if v == 1 then 0
    else
      var half := (v + 1) / 2;
      var k' := Log2Up(half);
      assert 2 * half >= v && 2 * half <= v + 1;
      k' + 1
  }

  /** No smaller exponent reaches `v`: `Log2Up(v)` is the least such `k`. */
  lemma Log2UpIsLeast(v: int, k: nat)
    requires v >= 2 && Pow2(k) >= v
    ensures Log2Up(v) <= k
  {
    var r := Log2Up(v);
    if k < r {
      Pow2Monotone(k, r - 1);
    }
  }
}
