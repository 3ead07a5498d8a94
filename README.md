# Multi-headed attention: cache and shape bookkeeping

This project models the decision logic of TurboTransformers'
`MultiHeadedAttention::operator()`, the forward call of the attention layer.
It does not model the floating-point arithmetic. One call takes key, value and
query tensors, an attention type (`"context"` for cross-attention, `"self"`
for self-attention), the four mode flags and a caller-owned layer cache. The
call then:

- checks the input ranks, the batch sizes and the attention type;
- scans the cache for the present slots (`memory_keys`, `memory_values`,
  `self_keys`, `self_values`);
- picks where the keys and values come from. For cross-attention that is the
  cached memory, or fresh projections that are written into the cache, or
  temporaries when there is no cache. For self-attention the fresh keys and
  values are appended to any cached history and written back;
- works out the shapes of the per-head queries, the scores, the context layer
  and the output;
- picks one of three output finalisation kernels.

Tensors are abstract. A tensor is a shape, a device tag and a sequence of
opaque *frames*. The frames are meant as one per position along the sequence
axis. The type does not force this. `Tensor.Consistent` states it, and
`Properties.FramesMatchShapes` proves that a call keeps it. Each frame records
the position-wise operations that produced it. Dense projections and
LayerNorm act on one position at a time. An attention row depends on its own
query row and on every key and value. This is enough to state "unchanged",
"the old content is a prefix of the new" and "derived from the query only".

Files:

- `tensors.dfy`: frames, tensors, and cache entries (`Null` for a tensor whose
  `is_null()` holds).
- `kernels.dfy`: the primitives as their call sites use them: the output shape
  the caller sets, the device, and how output frames come from input frames.
- `layer_cache.dfy`: slot names, presence, the presence scan (`ScanCache`, a
  loop over the table), and the `LayerCache` class whose table the call
  updates in place.
- `attention.dfy`: the call. `Forward` is the whole call as a function.
  `MultiHeadedAttention.Apply` is the call done step by step, as the layer does
  it, over a mutable `LayerCache`. `Apply` is proved to return what `Forward`
  returns and to leave the cache `Forward` describes.
- `properties.dfy`: what one call guarantees.
- `decoding.dfy`: what a decoding loop sees over several calls that share one
  cache.

The error message at `multi_headed_attention.cpp:59` says "hidden_size", but
the code compares dimension 0 of key and value, which is their batch size. The
model follows the code and calls this error `BatchMismatch`.

## Model

| member | source | states |
|---|---|---|
| `Attention.MultiHeadedAttention.Apply` | turbo_transformers/layers/multi_headed_attention.cpp:34-407 | The step-by-step call returns exactly `Forward`'s result and leaves exactly `Forward`'s cache. On any error the cache table is unchanged. |
| `Attention.MultiHeadedAttention.ContextKeyValue` | turbo_transformers/layers/multi_headed_attention.cpp:129-225 | The cross-attention stage (query projection, then either memory reuse or projection and cache write) yields the tensors and cache `ContextSources` describes. |
| `Attention.MultiHeadedAttention.SelfKeyValue` | turbo_transformers/layers/multi_headed_attention.cpp:227-297 | The self-attention stage (fused projection, concatenation with present history, write-back) yields the tensors and cache `SelfSources` describes. |
| `Attention.MultiHeadedAttention.Attend` | turbo_transformers/layers/multi_headed_attention.cpp:314-398 | The output is `[batch, query_len, hidden]` on the query's device, one row per query row. The scores are `[batch, heads, query_len, K]` with K read from the chosen keys' axis 2, and are returned exactly when asked for. Output row i is query row i attended over all chosen keys and values and then finished by input-plus-bias when `post_add_input` is set (whatever `post_layernorm` is), by bias plus LayerNorm when only `post_layernorm` is set, and by the bias alone otherwise, the residual being query row i. |
| `Attention.Forward` | turbo_transformers/layers/multi_headed_attention.cpp:34-407 | A successful call keeps the cache's key set and leaves every present slot holding a rank-4 per-head tensor. This is the invariant the next call of a session relies on. |
| `Attention.ContextSources` | turbo_transformers/layers/multi_headed_attention.cpp:160-224 | The cross-attention key/value stage keeps the cache's key set and the per-head invariant. The chosen keys are rank 4. There is one query row per input row. |
| `Attention.SelfSources` | turbo_transformers/layers/multi_headed_attention.cpp:262-297 | The self-attention key/value stage keeps the cache's key set and the per-head invariant. The chosen keys are rank 4. There is one query row per input row. |
| `LayerCaches.ScanCache` | turbo_transformers/layers/multi_headed_attention.cpp:94-112 | The loop over the table sets each flag exactly when that slot's name is in the table and its tensor is not null. Each slot is judged on its own. |
| `Kernels.ConcatSeqAxis` | turbo_transformers/layers/multi_headed_attention.cpp:265-278 | Concatenation on axis 2 adds the two lengths on that axis. The first operand's content is a prefix of the result and the second operand's content follows it. |
| `Properties.SucceedsIffAdmissible` | turbo_transformers/layers/multi_headed_attention.cpp:48-127 | A call succeeds if and only if all three inputs have rank 3, key and value have the same batch size, and the type is `"self"`, or is `"context"` with key and value on the query's device. |
| `Properties.RankAndBatchChecks` | turbo_transformers/layers/multi_headed_attention.cpp:48-59 | The error is the first failing check in source order: key rank, value rank, query rank, then key/value dimension 0 (batch). |
| `Properties.UnknownAttnTypeRejected` | turbo_transformers/layers/multi_headed_attention.cpp:66-73 | Once the rank and batch checks pass, any type other than `"context"` or `"self"` gives `UnsupportedAttnType`, whatever the cache holds. Together with `Apply`, no cache entry is written. |
| `Properties.DeviceChecks` | turbo_transformers/layers/multi_headed_attention.cpp:118-127 | Cross-attention fails on a value on another device first, then on a key on another device. Self-attention makes no device check. |
| `Properties.MemoryReused` | turbo_transformers/layers/multi_headed_attention.cpp:160-162 | With both memory slots present, cross-attention leaves the cache exactly as it was. Every output row attends over the cached memory keys and values. |
| `Properties.MemoryEstablished` | turbo_transformers/layers/multi_headed_attention.cpp:163-224 | Without both memory slots, a non-empty cache gets per-head projections `[batch, heads, key_seq_len, hidden/heads]` of the key and value inputs in its memory slots, and nothing else changes. An empty cache stays empty. |
| `Properties.FreshMemoryAttended` | turbo_transformers/layers/multi_headed_attention.cpp:163-221 | Without both memory slots, every output row attends over the fresh key and value projections of the key and value inputs, whether they were written into the cache or kept in temporaries. |
| `Properties.AppendToSlot` | turbo_transformers/layers/multi_headed_attention.cpp:262-282 | For one self slot, the effective tensor is the concatenation when the slot is present and the fresh tensor otherwise. Its axis-2 length is the held length (0 if absent) plus the fresh length, and its content is the held content followed by the fresh content. |
| `Properties.SelfStage` | turbo_transformers/layers/multi_headed_attention.cpp:287-296 | With a non-empty cache, self-attention writes exactly two entries, each `[batch, heads, held + query_len, hidden/heads]` holding the old content followed by the fresh one. |
| `Properties.SelfCacheGrows` | turbo_transformers/layers/multi_headed_attention.cpp:287-293 | After self-attention with a cache, `self_keys` and `self_values` are each `[batch, heads, L + query_len, hidden/heads]`, where L is that slot's previous axis-2 length, or 0 if it was absent. Nothing else changes. |
| `Properties.SelfCacheKeepsHistory` | turbo_transformers/layers/multi_headed_attention.cpp:262-296 | Each self slot's old content is a prefix of its new content. The appended frames are the fused key (or value) projections of the query rows, normalised under `pre_layernorm`. |
| `Properties.SelfHistoryAttended` | turbo_transformers/layers/multi_headed_attention.cpp:262-282 | In self-attention, every output row attends over each slot's cached history (empty when absent) followed by the fresh fused key and value projections of the query. This holds with and without a cache. |
| `Properties.FramesMatchShapes` | turbo_transformers/layers/multi_headed_attention.cpp:186-296 | Assume the inputs and the table have one frame per sequence position, and for cross-attention assume key and value of one length, as the projections' shapes need. Then the table after the call, the output and the returned score have one frame per sequence position too. |
| `Properties.SelfIgnoresKeyAndValue` | turbo_transformers/layers/multi_headed_attention.cpp:227-297 | Self-attention reads only the query. Replacing the key and value inputs by any others that pass the entry checks changes neither the result nor the cache. |
| `Properties.ScoreShape` | turbo_transformers/layers/multi_headed_attention.cpp:314-324 | The score tensor is `[batch, heads, query_len, K]`. K is taken from the chosen key tensor: the cached memory's axis 2, the key input's length, or the self history plus the query length. It equals the grown `self_keys` length. The score is returned exactly when asked for. |
| `Properties.OutputShape` | turbo_transformers/layers/multi_headed_attention.cpp:372-373 | The output is `[batch, query_len, hidden]` on the query's device for every type and cache state. The per-head queries and the context layer are `[batch, heads, query_len, hidden/heads]`. |
| `Properties.MergedWidth` | turbo_transformers/layers/multi_headed_attention.cpp:367-369 | The context layer transposed back is `[batch, query_len, heads * (hidden/heads)]`. Its width equals `hidden` exactly when `heads` divides `hidden`. |
| `Properties.Finalisation` | turbo_transformers/layers/multi_headed_attention.cpp:385-398 | `post_add_input` selects input-plus-bias whatever `post_layernorm` is. Otherwise `post_layernorm` selects bias plus LayerNorm, or bias alone. The residual is the query as passed in. |
| `Properties.FinishedRows` | turbo_transformers/layers/multi_headed_attention.cpp:331-379 | Output row i attends with per-head query row i over all chosen keys and values. |
| `Properties.QueryProjection` | turbo_transformers/layers/multi_headed_attention.cpp:131-144 | Attention uses the query projection (`q_weight_`, or the query slice of `qkv_weight_`) of a LayerNorm'd copy of the query under `pre_layernorm`, and of the raw query otherwise. |
| `Decoding.SelfDecode` | turbo_transformers/layers/multi_headed_attention.cpp:287-297 | A run of self-attention calls sharing one cache keeps its key set and the per-head invariant. |
| `Decoding.SelfDecodeGrows` | turbo_transformers/layers/multi_headed_attention.cpp:262-297 | Over a session, the cached keys and values grow by the total input length. Every earlier cached content is a prefix of the later one. |
| `Decoding.UnitStepsCountCalls` | turbo_transformers/layers/multi_headed_attention.cpp:288-293 | Start with no history and make one call per position: the cached sequence length then equals the number of calls. |
| `Decoding.SecondStepKeyLength` | turbo_transformers/layers/multi_headed_attention.cpp:314-324 | After one single-position call from an empty history, the second call's scores have key length 2. |
| `Decoding.MemoryFixedAfterFirstCall` | turbo_transformers/layers/multi_headed_attention.cpp:160-202 | The first cross-attention call with a cache leaves both memory slots present. The next cross-attention call, with any query, leaves the cache exactly as it was. |

## Left out

- Floating-point arithmetic: MatMul and BatchMatMul values, the
  `1/sqrt(size_per_head)` scale, ApplyMaskAndSoftmax, LayerNorm (epsilon
  1e-6) and the bias kernels. Frames record only which operations produced
  them, so the numeric invariants are outside the model.
- The attention mask and `is_trans_weight` have no parameter. The mask affects
  only score values. The flag affects only how the weights are read.
- The kernels' own shape checks. MatMul, BatchMatMul, Concat, Copy and the
  fused bias/transpose kernels are not part of this model. The model takes
  the shapes the call sites give their outputs. It trusts the kernels to
  combine what they are given. So it does not model a kernel error on
  mismatched operands, for example `self_keys` present but `self_values`
  absent, which gives key and value tensors of different lengths.
- Attention.Forward, Attention.MultiHeadedAttention.Apply: require that a
  non-empty cache contains every slot name the call reaches through
  `operator[]`. Without it, `operator[]` would insert a null pointer and the
  source would dereference it.
- A null `core::Tensor*` stored under a slot name is not modelled. `Entry`
  has a case for a tensor whose `is_null()` holds, but none for a missing
  pointer. The presence scan calls `is_null()` through the pointer without
  testing it first, so such a table makes the source dereference null.
- Attention.Forward, Attention.MultiHeadedAttention.Apply: require every
  present slot to hold a rank-4 tensor, which is what the layer itself writes.
  Reading axis 2 of a cached tensor of lower rank is outside the model.
  `Attention.Forward` proves that this condition is preserved.
- Properties.FramesMatchShapes: for cross-attention it assumes key and value
  of one length. The value projection is shaped with the key's sequence length
  (`multi_headed_attention.cpp:167-170`), and a value of another length would
  be a kernel shape error, which is not modelled.
- The engine-wide `std::mutex`. Concurrency is not modelled.
- Profiler blocks and `EnforceShapeAndType`, which only log.
- The device check is modelled as equality of abstract device tags in place of
  `is_same_device_ctx`.
- Heap management of the temporaries (`new`/`delete`, the leaked `q_ptr`,
  `k_ptr` and `v_ptr`). A score tensor the caller did not ask for is built
  internally and not returned (`score == None`).
- Aliasing between cache entries is not modelled: each slot is a separate
  value in the table. If two slots referred to one tensor, the later write
  would win in the source.
- The weights' own shapes and their consistency with `hidden` are not
  modelled.
