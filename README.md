# Flux transformer graph and CUDA context layer, modelled in Dafny

This project models two parts of the nunchaku inference engine's C++ core.

- **The Flux transformer graph** (`src/FluxModel.cpp`). This is the model's index and layout logic:
  - 19 joint (image + text) blocks followed by 38 single blocks;
  - how a layer number selects a block;
  - the packing of image and text tokens for attention, with 256-token padding on the FP16 path;
  - the split of the attention output back into the two streams;
  - the text-first merge of the streams at the first single block;
  - the ControlNet sample index and injection;
  - lazy loading and release of block weights when offloading;
  - the `cu_seqlens_cpu` offset cache and the head-mask table of `Attention`;
  - the chunk layout of the adaptive layer norms;
  - `forward_layer` and `setAttentionImpl`.
- **The context and utility layer** (`src/common.h`). This covers:
  - `checkCUDA`, `ceilDiv` and `log2Up`;
  - the per-thread stream stack and its guard;
  - `CUDADeviceContext`, the device-switching guard with a cached device id;
  - the per-device property memo.

Tokens are a type parameter `R`. Every numeric kernel is a function-valued parameter: norms, modulation, the quantized GEMMs, the MLP, attention and `kernels::add`. Only attention may read a whole token sequence; everything else works token by token. What the model keeps exact is which token goes where, which block runs, and what state changes.

The files, one module each:

| file | module | models |
|---|---|---|
| `cuda_common.dfy` | `CudaCommon` | `checkCUDA`, `ceilDiv`, `log2Up` |
| `stream_context.dfy` | `StreamContext` | `getCurrentCUDAStream`, `CUDAStreamContext` |
| `device_context.dfy` | `DeviceContext` | `CUDADeviceContext`, `getCurrentDeviceProperties` |
| `flux_attention.dfy` | `FluxAttention` | the `Attention` head mask and offset cache |
| `ada_norm.dfy` | `AdaNorm` | `AdaLayerNormZero`, `AdaLayerNormZeroSingle` |
| `flux_blocks.dfy` | `FluxBlocks` | `JointTransformerBlock`, `FluxSingleTransformerBlock`, lazily loaded weights |
| `flux_model.dfy` | `FluxModelGraph` | `FluxModel`: constructor, `forward`, `forward_layer`, `setAttentionImpl` |

How the CUDA driver is modelled:
- The driver's current device is the field `DeviceRuntime.actualDevice`. `cudaGetDevice` reads it and `cudaSetDevice` writes it.
- Every driver call is appended to a log, `driverCalls`. This lets the contracts say exactly when the cache saves a call.
- The stated soundness invariant: whenever the cached device id is not negative, it equals the driver's device.

## Model

| member | source | states |
|---|---|---|
| CudaCommon.CheckCuda | src/common.h:42-48 | Success exactly when the status is `cudaSuccess`, and then it returns the status. Otherwise it is the error carrying that status code. |
| CudaCommon.CeilDiv | src/common.h:203-206 | For `a >= 0` and `b > 0`, the result is the least number of `b`-sized pieces covering `a`: `r*b >= a` and `(r-1)*b < a`. |
| CudaCommon.Log2Up | src/common.h:208-215 | 0 for every `v <= 1`. For `v >= 2`, the result `k` is at least 1 with `2^k >= v > 2^(k-1)`. |
| CudaCommon.Log2UpIsLeast | src/common.h:208-215 | For `v >= 2`, no exponent smaller than `log2Up(v)` reaches `v`. |
| StreamContext.StreamStack.constructor | src/common.h:58 | A thread starts with an empty stream stack. |
| StreamContext.StreamStack.CurrentStream | src/common.h:60-65 | The default stream 0 when the stack is empty, otherwise the top of the stack. |
| StreamContext.CudaStreamContext.constructor | src/common.h:70-72 | Pushes its stream, which then becomes the current stream. |
| StreamContext.CudaStreamContext.Exit | src/common.h:76-79 | Requires its own stream on top and pops exactly that entry. |
| StreamContext.NestedScopes | src/common.h:58-80 | Two nested guards restore the stack and the current stream exactly. |
| DeviceContext.DeviceRuntime.constructor | src/common.h:183-184 | A fresh thread has no contexts and an empty cache (-1), and satisfies the soundness invariant. |
| DeviceContext.DeviceRuntime.CacheDisabled | src/common.h:186-188 | True exactly when no context is active or the innermost one disables caching. |
| DeviceContext.DeviceRuntime.GetDevice | src/common.h:161-170 | Returns the driver's device. It queries the driver unless caching is on and the cache is set. It leaves the cache at the result, or at -1 when caching is off. Soundness holds afterwards. |
| DeviceContext.DeviceRuntime.SetDevice | src/common.h:172-180 | Requires `idx >= 0`. The driver ends on `idx`. The driver call is skipped exactly when caching is on and the cache already equals `idx`. |
| DeviceContext.DeviceRuntime.RunExternalCode | src/common.h:111-115 | External code may switch the device only while caching is off. The cache is then empty, so soundness survives. |
| DeviceContext.CudaDeviceContext.constructor | src/common.h:118-135 | Pushes itself, so that caching is then disabled exactly when this context disables it, and remembers the previous device. It switches to `device` when that is not negative. Afterwards the cache is -1 when it disables caching and holds the driver's device otherwise. The driver log gains `cudaGetDevice` exactly when caching is off or the cache was empty, then `cudaSetDevice(device)` exactly when `device >= 0` and either caching is off or `device` differs from the previous device. Soundness, and the rule that the cache is empty while caching is off, hold afterwards. |
| DeviceContext.CudaDeviceContext.Exit | src/common.h:139-154 | Requires itself on top. It restores `lastDevice` and pops itself. The cache is then -1 when this context disabled caching or caching is off after the pop, and `lastDevice` otherwise. The driver log gains `cudaSetDevice(lastDevice)` exactly when this context disabled caching or the cache did not already hold `lastDevice`. |
| DeviceContext.CallExternal | src/common.h:111-154 | A guard around external code restores both the context stack and the device, whatever device the external code leaves behind. |
| DeviceContext.DevicePropertiesCache.constructor | src/common.h:192 | The per-thread property memo starts empty. |
| DeviceContext.DevicePropertiesCache.GetCurrentDeviceProperties | src/common.h:191-201 | The device cache afterwards holds the driver's device, or -1 when caching is off. A hit returns the memoised record without querying properties. A miss makes one query. A successful query is memoised; a failing one is returned as the error and memoises nothing. |
| DeviceContext.LookUpTwice | src/common.h:191-201 | After a successful look-up, a second look-up returns the same record, and the two make at most one property query between them. |
| FluxAttention.CuSeqlensDescribesPacking | src/FluxModel.cpp:196-202 | The offset table starts at 0 and ends at `batch_size*num_tokens`. Consecutive entries differ by `num_tokens`. |
| FluxAttention.CacheMatches | src/FluxModel.cpp:186-195 | True exactly when the cached table equals the wanted offset table: length `batch_size+1` and entry `i` equal to `num_tokens*i`. |
| FluxAttention.BuildCuSeqlens | src/FluxModel.cpp:196-202 | The rebuild loop yields a fresh table equal to the wanted offset table. |
| FluxAttention.Attention.constructor | src/FluxModel.cpp:111-119 | `headmask_type[i] == i+1` for every head `i`. `force_fp16` is off and no offset table is cached. |
| FluxAttention.Attention.PrepareCuSeqlens | src/FluxModel.cpp:184-202 | Afterwards the cache holds exactly the wanted offsets. An existing table is kept if and only if it already matched; otherwise a fresh one replaces it. |
| AdaNorm.SplitModChunk | src/FluxModel.cpp:86-97 | Chunk `j` of a `k`-way split is the slice `[j*w, (j+1)*w)`. |
| AdaNorm.SplitModRoundTrip | src/FluxModel.cpp:86-97 | The chunks join back to the input. |
| AdaNorm.AdaLayerNormZero.Chunks | src/FluxModel.cpp:67-69 | The linear layer has 2 chunks when pre-only and 6 otherwise. |
| AdaNorm.AdaLayerNormZero.Forward | src/FluxModel.cpp:78-108 | `x` is modulated with scale from chunk 1 and shift from chunk 0. The full variant returns chunks 2..5 as gate_msa, shift_mlp, scale_mlp and gate_mlp. The pre-only variant returns only `x`. |
| AdaNorm.AdaLayerNormZeroSingle.Forward | src/FluxModel.cpp:51-65 | Three chunks: `x` is modulated with scale chunk 1 and shift chunk 0, and the gate is chunk 2. |
| FluxBlocks.PadTokens | src/FluxModel.cpp:545-546 | `ceilDiv(n,256)*256` is a multiple of 256, at least `n`, and below `n+256`. |
| FluxBlocks.Copy2DSlices | src/FluxModel.cpp:611-619 | The strided copy out of the packed attention output picks, for every item, exactly the rows `[offset, offset+width)`. |
| FluxBlocks.SplitTokens | src/FluxModel.cpp:606-620 | The split is per-item slicing both for one item (zero-copy slice) and for larger batches (strided copy). |
| FluxBlocks.JointSpec | src/FluxModel.cpp:436-732 | The joint block returns an image stream of `nImg` rows and a text stream of `nTxt` rows per item. |
| FluxBlocks.JointImageKeepsPositions | src/FluxModel.cpp:493-620 | Image token `t` is packed at position `t`. Its output is built from attention row `t` and input row `t`. |
| FluxBlocks.JointTextKeepsPositions | src/FluxModel.cpp:545-685 | The image span fits in the padded image length. Text token `j` is packed at `imgPad + j`, and its output reads attention row `imgPad + j`. Padding never lands inside either stream. |
| FluxBlocks.ContextPreOnlyKeepsText | src/FluxModel.cpp:662-664 | A context-pre-only block returns the text stream identical to its input. |
| FluxBlocks.SingleSpec | src/FluxModel.cpp:316-387 | The single block returns `n` rows per item. |
| FluxBlocks.SingleReturnsLeadingRows | src/FluxModel.cpp:344-364 | FP16 padding is a multiple of 256 below `n+256`; the dense path is unpadded. Token `t` is packed at `t`. Output row `t` reads attention row `t`, so only the first `num_tokens` rows come back. |
| FluxBlocks.LazyParams.constructor | src/FluxModel.cpp:735-740 | A freshly built module is not lazily loaded and its weights are resident; joint block 0 keeps that state when offloading is on. |
| FluxBlocks.LazyParams.SetLazyLoad | src/FluxModel.cpp:738-748 | `setLazyLoad(true)` marks the module lazily loaded; its residency is untouched until it is released. |
| FluxBlocks.LazyParams.ReleaseLazyParams | src/FluxModel.cpp:738-741 | Weights are released exactly when the module is lazily loaded. |
| FluxBlocks.LazyParams.LoadLazyParams | src/FluxModel.cpp:818-826 | A lazily loaded module's weights become resident; others stay as they were. |
| FluxBlocks.JointTransformerBlock.constructor | src/FluxModel.cpp:389-411 | Keeps `dim` and `context_pre_only`. Its attention has `num_heads` heads of `attention_head_dim / num_heads` channels. Weights are resident; the mode is FlashAttention2. |
| FluxBlocks.JointTransformerBlock.Forward | src/FluxModel.cpp:436-732 | Requires the block's weights resident. The packing loop, attention and both splits compute exactly `JointSpec` for the block's current mode. |
| FluxBlocks.FluxSingleTransformerBlock.constructor | src/FluxModel.cpp:290-301 | Keeps `dim`, with the same head layout. Weights are resident; the mode is FlashAttention2. |
| FluxBlocks.FluxSingleTransformerBlock.Forward | src/FluxModel.cpp:316-387 | Requires the block's weights resident. The dense path and the padded FP16 path, which needs a batch of one, compute exactly `SingleSpec`. |
| FluxModelGraph.BlockNumbering | src/FluxModel.cpp:818-835 | Layer numbers and blocks correspond one to one. A layer is joint exactly when it is below the joint count. |
| FluxModelGraph.ControlnetIndex | src/FluxModel.cpp:782-784 | For `layer < numBlocks`, the sample index `layer / ceilDiv(numBlocks, samples)` is below the number of samples. |
| FluxModelGraph.ControlnetIndexMonotone | src/FluxModel.cpp:782-784 | A later block never uses an earlier sample. |
| FluxModelGraph.ControlnetNineteenBlocksFourSamples | src/FluxModel.cpp:782-784 | For 19 blocks and 4 samples the interval is 5. Layers 0, 4, 5, 10, 14, 15 and 18 use samples 0, 0, 1, 2, 2, 3 and 3. |
| FluxModelGraph.AddBatch | src/FluxModel.cpp:787 | `kernels::add` acts row by row on equally shaped tensors. |
| FluxModelGraph.InjectImage | src/FluxModel.cpp:807-814 | The single-block ControlNet step keeps text rows `[0,txt)` unchanged. Image row `txt+t` becomes that row plus sample row `t`. |
| FluxModelGraph.MergeTextFirst | src/FluxModel.cpp:790-799 | Each merged item has `txt+img` rows: slicing `[0,txt)` gives that item's text and `[txt,txt+img)` gives its image tokens. |
| FluxModelGraph.MergeStreams | src/FluxModel.cpp:790-799 | The per-item merge loop, written so that item `i` copies its own rows, computes exactly `MergeTextFirst`. |
| FluxModelGraph.MergeAsWritten | src/FluxModel.cpp:792-796 | The merge loop as written copies the whole text and image tensors into each item. It succeeds only when the row counts match. |
| FluxModelGraph.MergeAsWrittenSingleItem | src/FluxModel.cpp:792-796 | For a batch of one, the loop as written equals the intended merge. |
| FluxModelGraph.MergeAsWrittenRejectsBatches | src/FluxModel.cpp:792-796 | For two or more items with any tokens, the loop as written cannot merge. |
| FluxModelGraph.MergeAsWrittenTwoItems | src/FluxModel.cpp:792-796 | A concrete two-item input on which the loop as written fails while the intended merge succeeds. |
| FluxModelGraph.JointLayerSpec | src/FluxModel.cpp:777-788 | A joint layer's ControlNet sample is added to the image stream only. The text stream is the block's output unchanged. Without samples, both streams are the block's output. |
| FluxModelGraph.ComputeSpec | src/FluxModel.cpp:774-817 | `compute(layer)` keeps two streams through the joint layers. It merges them text first only at layer 19, and leaves one stream of `txt+img` rows after that. `skip_first_layer` makes layer 0 a no-op. |
| FluxModelGraph.RunSpec | src/FluxModel.cpp:753-841 | The state after any prefix of layers has the shape that `StateAt` prescribes for that layer. |
| FluxModelGraph.ForwardOutputShape | src/FluxModel.cpp:753-841 | After all 57 layers the text handle is gone and every item has `txt+img` rows. |
| FluxModelGraph.FluxModel.constructor | src/FluxModel.cpp:734-751 | Builds 19 joint and 38 single blocks in FlashAttention2 mode, none context-pre-only. With offload on, every block except joint block 0 is lazily loaded and released; joint block 0 stays resident. |
| FluxModelGraph.FluxModel.ParamsOfSelectedBlock | src/FluxModel.cpp:818-835 | The weights that `load(layer)` and `unload(layer)` act on belong to the block that `BlockOf` selects: joint block `layer` below 19, otherwise single block `layer - 19`. |
| FluxModelGraph.FluxModel.LoadLayer | src/FluxModel.cpp:818-826 | The block that the layer number selects has its weights resident afterwards. |
| FluxModelGraph.FluxModel.UnloadLayer | src/FluxModel.cpp:827-835 | That block's weights are resident afterwards exactly when it is not lazily loaded. |
| FluxModelGraph.FluxModel.Compute | src/FluxModel.cpp:774-817 | Requires the weights that `load(layer)` brings in to be resident, and runs the block whose `forward` needs exactly those weights. The compute step yields exactly `ComputeSpec`, with the intended merge at layer 19 and the image-slice write-back on single layers. |
| FluxModelGraph.FluxModel.RunLayer | src/FluxModel.cpp:837-838 | load, compute and unload of one layer advance the pass by exactly one layer and leave the block released if it is lazy. |
| FluxModelGraph.FluxModel.Forward | src/FluxModel.cpp:753-841 | The pass returns the `RunSpec` result after all layers, with `txt+img` rows per item. Afterwards exactly joint block 0, or every block when offload is off, remains resident. |
| FluxModelGraph.FluxModel.ForwardLayer | src/FluxModel.cpp:843-886 | Requires the selected joint block's weights resident. Fails (out of range) exactly when `layer >= 19`. Otherwise it returns the same joint-layer result that `forward` computes. |
| FluxModelGraph.FluxModel.SetAttentionImpl | src/FluxModel.cpp:888-895 | Every joint and every single block is switched to the given mode. |

## Left out

- Numeric kernels and float arithmetic are parameters, not models. This covers `mha_fwd`, `attention_fp16`, the W4A4 GEMMs, `mul_add`, the norms, `Silu`, the MLP and the `dim_head^-0.5` scale.
- `kernels::split_mod` is not part of this model. The adaptive norms assume it cuts the embedding into consecutive equal chunks in the order the structured bindings name them.
- `Tensor` (its `copy_`, `slice` and allocation) is not part of this model. Tensors are sequences of token rows. The merge finding below depends on how `copy_` treats a source with more rows than the destination.
- What the FP16 projection writes into padding rows is a fixed row, `padding`. The kernel decides that content, and no property relies on its value.
- The block-sparse attention path is left out: the pool tensors, `kernels::topk` and `mha_fwd_block`. `FluxModel` always passes `sparsityRatio = 0`, so the path is never taken. Its `poolTokens` arithmetic does not match the assertion in `Attention::forward`, and the pooled text slice is taken from `concat` rather than `pool`. Only the `cu_seqlens_cpu` cache of that function is modelled.
- FluxModelGraph.SamplesOk requires at least one ControlNet sample when a sample tensor is given. The source passes the sample count straight to `ceilDiv`, so an empty sample tensor would divide by zero; the model excludes that input instead of modelling the crash.
- `LayerOffloadHelper` is not part of this model. `Forward` drives load, compute and unload one layer after another; overlap on other streams is not modelled. With offload off, load and unload act on no module, so the result is the same.
- The lazy-load mechanism (`Module`) is not part of this model. `LazyParams` assumes that release and load act only on lazily loaded modules.
- FluxBlocks.JointTransformerBlock.Forward and FluxBlocks.FluxSingleTransformerBlock.Forward require their own weights to be resident. What a module computes with released weights is decided by `Module`, which is not part of this model. `FluxModel.Compute` proves that the weights it requires are the ones of the block it runs; `Forward` establishes them through `LoadLayer`.
- FluxModelGraph.FluxModel.ForwardLayer does not load weights, as in the source, so it requires the selected joint block's weights to be resident already. With offload on, that holds for joint block 0 only. Its single-block ControlNet branch is unreachable, because `transformer_blocks.at(layer)` throws first.
- FluxModelGraph.ComputeSpec, FluxModelGraph.FluxModel.Compute and FluxModelGraph.FluxModel.Forward model the intended text-first merge (`MergeTextFirst`, `MergeStreams`), not the merge loop as written at src/FluxModel.cpp:793-796. The two differ for batches of two or more; see the finding below.
- The default attention mode of every block is taken to be FlashAttention2. The class header that declares `attnImpl` and its initialiser is not part of this model.
- CudaCommon.CheckCuda does not model the `cudaGetLastError()` call that clears the driver's sticky error before throwing. The driver's error state is not part of this model.
- `FluxBlocks.FluxSingleTransformerBlock.Forward` takes a batch of one on the FP16 path as a precondition, where the source asserts it. The joint block's batch assertion (src/FluxModel.cpp:438) becomes its `Rect` precondition. The width assertions (src/FluxModel.cpp:448-449, `shape[2] == dim`, and :528, `concat.shape[2] == num_heads * dim_head * 3`) are about the width of a token row. Rows are the opaque type `R`, so the model does not represent their width and leaves these assertions out.
- `cudaMemcpy2DAsync` is assumed to succeed, and its `checkCUDA` failure path is not modelled. The copy is counted in token rows rather than bytes.
- `cudaGetDevice` and `cudaSetDevice` are assumed to succeed; their `checkCUDA` failure paths are not modelled. `cudaGetDeviceProperties` does fail in the model, through its status parameter.
- Thread-local state is one object per thread, with no concurrency. The stream and event wrappers, `checkCUBLAS`, `getCUBLAS`, `CUDAError` formatting, nvtx ranges and debug dumps are left out.
- `Attention::setForceFP16` walks the module tree (`Module::traverse` is not part of this model). The model only keeps the `forceFp16` field that the constructor clears.
- The 32-bit `int` arithmetic is unbounded here. This covers the `cu_seqlens` entries, token counts and `ceilDiv` on `size_t`. Overflow for huge batches or token counts is not modelled.
- The Python diffusers adapters and the GPU image test are left out.

## Findings

| source | as written | input that shows it | evidently intended | confidence | as-written member | corrected member |
|---|---|---|---|---|---|---|
| src/FluxModel.cpp:792-796 | Inside the per-item loop, each item's text slot is filled with `copy_(encoder_hidden_states)` and its image slot with `copy_(hidden_states)`. These are the whole batch tensors, not item `i`. | `batch_size = 2` with one text and one image token per item: the text slot of item 0 holds 1 row, the source 2 rows. | Item `i` receives its own text rows followed by its own image rows. | low to medium: depends on `Tensor::copy_` refusing a source with more rows than the destination; not executed | FluxModelGraph.MergeAsWrittenRejectsBatches | FluxModelGraph.MergeTextFirst |
