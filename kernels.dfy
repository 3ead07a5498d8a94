/** The primitives the attention layer calls, at the level of their call sites:
    the shape the caller gives each output, the device it places it on, and how
    each output frame is derived from input frames. The kernels' arithmetic
    (and any shape checking inside them) is not part of this model. */
module Kernels {
  import opened Tensors

  /** Which bias-add kernel finishes the output. */
  datatype Finalisation = AddBias | AddBiasLayerNorm | AddInputBias

  /** Copy of a tensor's content followed by LayerNorm; LayerNorm works over
      the hidden axis, so it acts position by position. */
  function LayerNormed(frames: seq<Frame>): (r: seq<Frame>)
  {
    seq(|frames|, i requires 0 <= i < |frames| => Normalised(frames[i]))
  }

  /** MatMul by one projection weight followed by AddBiasTransposeForScore
      (or one slice of SplitAddBiasTransposeForScore) into a per-head tensor
      that the caller has reshaped to `shape` on `device`. A dense projection
      maps each sequence position on its own. */
  function ProjectForScore(w: Weight, frames: seq<Frame>, shape: seq<nat>, device: nat): (r: Tensor)
  {
    Tensor(shape, device, seq(|frames|, i requires 0 <= i < |frames| => Projected(w, frames[i])))
  }

  /** Reshape of a destination tensor followed by Copy of `source` into it. */
  function CopyInto(source: Tensor, shape: seq<nat>, device: nat): (r: Tensor)
  {
    Tensor(shape, device, source.frames)
  }

  /** Concat along axis 2 (the sequence axis of a per-head tensor): the result
      is as long as both operands together, holds `a` first and `b` after it. */
  function ConcatSeqAxis(a: Tensor, b: Tensor): (r: Tensor)
    requires |a.shape| > 2 && |b.shape| > 2
    ensures |r.shape| == |a.shape| && r.shape[2] == a.shape[2] + b.shape[2]
    ensures |r.frames| == |a.frames| + |b.frames|
    ensures r.frames[..|a.frames|] == a.frames && r.frames[|a.frames|..] == b.frames
  {
    Tensor(a.shape[2 := a.shape[2] + b.shape[2]], a.device, a.frames + b.frames)
  }

  /** BatchMatMul of the per-head queries by the transposed keys, scaled,
      then ApplyMaskAndSoftmax: one score row per query position. */
  function ScoreRows(queries: seq<Frame>, keys: seq<Frame>): (r: seq<Frame>)
  {
    seq(|queries|, i requires 0 <= i < |queries| => Scored(queries[i], keys))
  }

  /** BatchMatMul of the scores by the values, TransposeForScore back to the
      flat hidden layout and MatMul by the dense weight: one row per query
      position, depending on that query and on every key and value. */
  function ContextRows(queries: seq<Frame>, keys: seq<Frame>, values: seq<Frame>): (r: seq<Frame>)
  {
    seq(|queries|, i requires 0 <= i < |queries| => Attended(queries[i], keys, values))
  }

  /** AddBias, AddBiasLayerNorm or AddInputBias on the projected output, with
      `residual` the rows of the input added back. */
  function Finalise(mode: Finalisation, context: seq<Frame>, residual: seq<Frame>): (r: seq<Frame>)
    requires |context| == |residual|
  {
    seq(|context|, i requires 0 <= i < |context| =>
      match mode
      case AddBias => Biased(context[i])
      case AddBiasLayerNorm => BiasedNormalised(context[i], residual[i])
      case AddInputBias => BiasedResidual(context[i], residual[i]))
  }
}
