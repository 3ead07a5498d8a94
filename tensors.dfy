/** Abstract tensors of the attention layer.

    A tensor is its shape, the device that owns it, and its content seen as a
    sequence of opaque frames: one frame per position along the tensor's
    sequence axis (axis 1 of a `[batch, seq, hidden]` input, axis 2 of a
    per-head `[batch, heads, seq, size_per_head]` tensor). The type does not
    tie the number of frames to the shape; `Consistent` does. The numeric values
    are not modelled; a frame records only which position-wise operations
    produced it, which is enough to say "unchanged", "a prefix of" and "derived
    from the query only".
 */
module Tensors {

  /** The projection weights (with their biases) of the layer. */
  datatype Weight =
    | QueryWeight      // q_weight_ / q_bias_
    | KeyWeight        // k_weight_ / k_bias_
    | ValueWeight      // v_weight_ / v_bias_
    | FusedQuery       // slice 0 of qkv_weight_ / qkv_bias_
    | FusedKey         // slice 1
    | FusedValue       // slice 2

  /** One slab of a tensor at one sequence position. */
  datatype Frame =
    | Token(id: int)                                 // a caller-supplied position
    | Normalised(source: Frame)                      // LayerNorm of a copy
    | Projected(weight: Weight, source: Frame)       // MatMul + bias-add + head split
    | Scored(query: Frame, keys: seq<Frame>)         // one row of the masked softmax scores
    | Attended(query: Frame, keys: seq<Frame>, values: seq<Frame>)
                                                     // one context row after the dense projection
    | Biased(context: Frame)                         // + dense_bias_
    | BiasedNormalised(context: Frame, residual: Frame) // LayerNorm(+ bias + residual)
    | BiasedResidual(context: Frame, residual: Frame)   // + input + bias

  /** A tensor with backing storage. `device` is an abstract device tag. */
  datatype Tensor = Tensor(shape: seq<nat>, device: nat, frames: seq<Frame>)
  {
    function Rank(): nat { |shape| }

    /** One frame per position of the sequence axis: axis 1 of a
        `[batch, seq, hidden]` tensor, axis 2 of a per-head tensor. The layer
        relies on this for every tensor it is given and keeps it for every
        tensor it writes (`Properties.FramesMatchShapes`). */
    predicate Consistent()
    {
      (Rank() == 3 ==> |frames| == shape[1]) && (Rank() == 4 ==> |frames| == shape[2])
    }
  }

  /** What a layer-cache slot refers to: a tensor whose `is_null()` holds,
      or a tensor with storage. */
  datatype Entry = Null | Holds(tensor: Tensor)
}
