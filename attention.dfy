/** The multi-headed attention layer's call: input checks, attention-type
    dispatch, the choice of key/value source per cache state, the in-place
    cache updates, and the shapes of every tensor it produces.

    `Forward` states the whole call as a function of its inputs and the cache
    table; `MultiHeadedAttention.Apply` is the call as the layer runs it, step
    by step over a mutable cache, and is proved to agree with `Forward`. */
module Attention {
  import opened Tensors
  import opened Kernels
  import opened LayerCaches

  const ContextAttention: string := "context"
  const SelfAttention: string := "self"

  datatype Option<T> = None | Some(value: T)
  datatype Result<T, E> = Ok(value: T) | Err(error: E)

  datatype Argument = KeyTensor | ValueTensor | QueryTensor

  /** The conditions under which the call aborts. */
  datatype Error =
    | RankMismatch(argument: Argument, rank: nat)
    | BatchMismatch(keyBatch: nat, valueBatch: nat)
    | UnsupportedAttnType(attnType: string)
    | DeviceMismatch(argument: Argument)

  /** The arguments of one call. The attention mask and `is_trans_weight`
      only affect values, which are not modelled. */
  datatype Call = Call(
    key: Tensor, value: Tensor, query: Tensor, attnType: string,
    returnScore: bool, preLayernorm: bool, postLayernorm: bool, postAddInput: bool)

  /** Sizes read off the query and the layer's head count. */
  datatype Dims = Dims(batch: nat, queryLength: nat, hidden: nat, heads: nat, sizePerHead: nat)

  function DimsOf(heads: nat, query: Tensor): Dims
    requires heads > 0 && query.Rank() == 3
  {
    Dims(query.shape[0], query.shape[1], query.shape[2], heads, query.shape[2] / heads)
  }

  /** `[batch, heads, length, size_per_head]` */
  function HeadShape(d: Dims, length: nat): seq<nat>
  {
    [d.batch, d.heads, length, d.sizePerHead]
  }

  /** A non-empty cache holds every slot the call writes or reads through the
      table (the source reads those slots with `operator[]`). */
  predicate Covers(attnType: string, cache: Cache)
  {
    |cache| > 0 ==>
      (attnType == ContextAttention ==> MemoryKeys in cache && MemoryValues in cache) &&
      (attnType == SelfAttention ==> SelfKeys in cache && SelfValues in cache)
  }

  /** `post_add_input` takes precedence; otherwise `post_layernorm` decides. */
  function FinalisationOf(postAddInput: bool, postLayernorm: bool): Finalisation
  {
    if !postAddInput then (if !postLayernorm then AddBias else AddBiasLayerNorm) else AddInputBias
  }

  /** The rows fed to the query (or fused) projection: a layer-normalised copy
      of the query under `pre_layernorm`, the query itself otherwise. */
  function QueryInput(c: Call): (r: seq<Frame>)
    ensures |r| == |c.query.frames|
  {
    if c.preLayernorm then LayerNormed(c.query.frames) else c.query.frames
  }

  /** The effective query, key and value tensors and the cache after the
      key/value stage. */
  datatype Sources = Sources(query: Tensor, keys: Tensor, values: Tensor, cache: Cache)

  /** Cross-attention: reuse cached memory when both slots are present;
      otherwise project the key and value inputs, writing them into the cache
      when one was supplied. */
  function ContextSources(d: Dims, c: Call, cache: Cache): (s: Sources)
    requires c.key.Rank() == 3 && Shaped(cache)
    requires |cache| > 0 ==> MemoryKeys in cache && MemoryValues in cache
    ensures s.cache.Keys == cache.Keys && Shaped(s.cache)
    ensures s.keys.Rank() == 4 && |s.query.frames| == |c.query.frames|
  {
    var q := ProjectForScore(QueryWeight, QueryInput(c), HeadShape(d, d.queryLength), c.query.device);
    if Present(cache, MemoryKeys) && Present(cache, MemoryValues) then
      Sources(q, cache[MemoryKeys].tensor, cache[MemoryValues].tensor, cache)
    else
      var shape := HeadShape(d, c.key.shape[1]);
      var v := ProjectForScore(ValueWeight, c.value.frames, shape, c.query.device);
      var k := ProjectForScore(KeyWeight, c.key.frames, shape, c.query.device);
      if |cache| > 0 then
        Sources(q, k, v, cache[MemoryValues := Holds(v)][MemoryKeys := Holds(k)])
      else
        Sources(q, k, v, cache)
  }

  /** Self-attention: project the query alone through the fused weight,
      append the fresh keys and values to whatever the cache holds, and write
      the results back when a cache was supplied. */
  function SelfSources(d: Dims, c: Call, cache: Cache): (s: Sources)
    requires Shaped(cache)
    requires |cache| > 0 ==> SelfKeys in cache && SelfValues in cache
    ensures s.cache.Keys == cache.Keys && Shaped(s.cache)
    ensures s.keys.Rank() == 4 && |s.query.frames| == |c.query.frames|
  {
    var shape := HeadShape(d, d.queryLength);
    var x := QueryInput(c);
    var q := ProjectForScore(FusedQuery, x, shape, c.query.device);
    var freshKeys := ProjectForScore(FusedKey, x, shape, c.query.device);
    var freshValues := ProjectForScore(FusedValue, x, shape, c.query.device);
    var k := if Present(cache, SelfKeys) then ConcatSeqAxis(cache[SelfKeys].tensor, freshKeys) else freshKeys;
    var v := if Present(cache, SelfValues) then ConcatSeqAxis(cache[SelfValues].tensor, freshValues) else freshValues;
    if |cache| > 0 then
      var cache' := cache[SelfKeys := Holds(CopyInto(k, HeadShape(d, k.shape[2]), c.query.device))]
                         [SelfValues := Holds(CopyInto(v, HeadShape(d, v.shape[2]), c.query.device))];
      Sources(q, k, v, cache')
    else
      Sources(q, k, v, cache)
  }

  /** Shapes of the temporaries: per-head queries, scores, the per-head
      context layer, and the context layer transposed back. */
  datatype Shapes = Shapes(queryHeads: seq<nat>, scores: seq<nat>, contextLayer: seq<nat>, merged: seq<nat>)

  /** What the caller sees: the output tensor, the score tensor when it asked
      for one, and (for the statement of the shape rules) the temporaries. */
  datatype Attention = Attention(output: Tensor, score: Option<Tensor>, shapes: Shapes)

  /** Scores, context and output once the key/value sources are fixed. The
      key length is read back from the chosen key tensor. */
  function Finish(d: Dims, c: Call, q: Tensor, k: Tensor, v: Tensor): (a: Attention)
    requires k.Rank() > 2 && |q.frames| == |c.query.frames|
  {
    var scores := Tensor([d.batch, d.heads, d.queryLength, k.shape[2]], c.query.device,
                         ScoreRows(q.frames, k.frames));
    var rows := ContextRows(q.frames, k.frames, v.frames);
    var output := Tensor([d.batch, d.queryLength, d.hidden], c.query.device,
                         Finalise(FinalisationOf(c.postAddInput, c.postLayernorm), rows, c.query.frames));
    Attention(output, if c.returnScore then Some(scores) else None,
              Shapes(q.shape, scores.shape, HeadShape(d, d.queryLength),
                     [d.batch, d.queryLength, d.heads * d.sizePerHead]))
  }

  /** The outcome of a successful call: what it returns and the cache after it. */
  datatype Step = Step(attention: Attention, cache: Cache)

  /** The whole call. On failure the cache is untouched: every check runs
      before the first cache write. */
  function Forward(heads: nat, c: Call, cache: Cache): (r: Result<Step, Error>)
    requires heads > 0 && Covers(c.attnType, cache) && Shaped(cache)
    ensures r.Ok? ==> r.value.cache.Keys == cache.Keys && Shaped(r.value.cache)
  {
    if c.key.Rank() != 3 then Err(RankMismatch(KeyTensor, c.key.Rank()))
    else if c.value.Rank() != 3 then Err(RankMismatch(ValueTensor, c.value.Rank()))
    else if c.query.Rank() != 3 then Err(RankMismatch(QueryTensor, c.query.Rank()))
    else if c.key.shape[0] != c.value.shape[0] then Err(BatchMismatch(c.key.shape[0], c.value.shape[0]))
    else if c.attnType != ContextAttention && c.attnType != SelfAttention then
      Err(UnsupportedAttnType(c.attnType))
    else
      var d := DimsOf(heads, c.query);
      if c.attnType == ContextAttention then
        if c.query.device != c.value.device then Err(DeviceMismatch(ValueTensor))
        else if c.query.device != c.key.device then Err(DeviceMismatch(KeyTensor))
        else
          var s := ContextSources(d, c, cache);
          Ok(Step(Finish(d, c, s.query, s.keys, s.values), s.cache))
      else
        var s := SelfSources(d, c, cache);
        Ok(Step(Finish(d, c, s.query, s.keys, s.values), s.cache))
  }

  /** The layer. Its weights are fixed at construction and only their roles
      are modelled; the head count is what the shape rules need. */
  class MultiHeadedAttention {
    const numAttentionHeads: nat

    predicate Valid()
    {
      numAttentionHeads > 0
    }

    constructor (numAttentionHeads: nat)
      requires numAttentionHeads > 0
      ensures Valid() && this.numAttentionHeads == numAttentionHeads
    {
      this.numAttentionHeads := numAttentionHeads;
    }

    /** One call of the layer. The cache table's tensors are updated in
        place; the output tensor and the requested score tensor are returned. */
    method Apply(key: Tensor, value: Tensor, query: Tensor, attnType: string, returnScore: bool,
                 preLayernorm: bool, postLayernorm: bool, postAddInput: bool, cache: LayerCache)
      returns (r: Result<Attention, Error>)
      requires Valid()
      requires Covers(attnType, cache.entries) && Shaped(cache.entries)
      modifies cache
      ensures var f := Forward(numAttentionHeads,
                               Call(key, value, query, attnType, returnScore, preLayernorm, postLayernorm, postAddInput),
                               old(cache.entries));
              (f.Ok? ==> r == Ok(f.value.attention) && cache.entries == f.value.cache) &&
              (f.Err? ==> r == Err(f.error) && cache.entries == old(cache.entries))
    {
      var c := Call(key, value, query, attnType, returnScore, preLayernorm, postLayernorm, postAddInput);
      if key.Rank() != 3 {
        return Err(RankMismatch(KeyTensor, key.Rank()));
      }
      if value.Rank() != 3 {
        return Err(RankMismatch(ValueTensor, value.Rank()));
      }
      if query.Rank() != 3 {
        return Err(RankMismatch(QueryTensor, query.Rank()));
      }
      if key.shape[0] != value.shape[0] {
        return Err(BatchMismatch(key.shape[0], value.shape[0]));
      }
      var batch := query.shape[0];
      var queryLength := query.shape[1];
      var keyLength: nat;
      if attnType == ContextAttention {
        keyLength := key.shape[1];
      } else if attnType == SelfAttention {
        keyLength := queryLength;
      } else {
        return Err(UnsupportedAttnType(attnType));
      }
      var hidden := query.shape[2];
      var sizePerHead := hidden / numAttentionHeads;
      var d := Dims(batch, queryLength, hidden, numAttentionHeads, sizePerHead);
      var presence := ScanCache(cache.entries);
      var q, k, v: Tensor;
      if attnType == ContextAttention {
        if query.device != value.device {
          return Err(DeviceMismatch(ValueTensor));
        }
        if query.device != key.device {
          return Err(DeviceMismatch(KeyTensor));
        }
        q, k, v := ContextKeyValue(d, c, keyLength, presence, cache);
      } else {
        q, k, v := SelfKeyValue(d, c, presence, cache);
      }

      assert Forward(numAttentionHeads, c, old(cache.entries)) == Ok(Step(Finish(d, c, q, k, v), cache.entries));
      var a := Attend(d, c, q, k, v);
      r := Ok(a);
    }

    /** Scores, context layer, output projection and finalisation, once the
        query, key and value tensors are chosen. */
    method Attend(d: Dims, c: Call, q: Tensor, k: Tensor, v: Tensor) returns (a: Attention)
      requires k.Rank() > 2 && |q.frames| == |c.query.frames|
      ensures a == Finish(d, c, q, k, v)
      ensures a.output.shape == [d.batch, d.queryLength, d.hidden] && a.output.device == c.query.device
      ensures a.shapes.scores == [d.batch, d.heads, d.queryLength, k.shape[2]]
      ensures c.returnScore <==> a.score.Some?
      ensures a.score.Some? ==> a.score.value.shape == a.shapes.scores && |a.score.value.frames| == |q.frames|
      ensures |a.output.frames| == |c.query.frames|
      ensures forall i :: 0 <= i < |a.output.frames| ==>
                var row := Attended(q.frames[i], k.frames, v.frames);
                (c.postAddInput ==> a.output.frames[i] == BiasedResidual(row, c.query.frames[i])) &&
                (!c.postAddInput && c.postLayernorm ==> a.output.frames[i] == BiasedNormalised(row, c.query.frames[i])) &&
                (!c.postAddInput && !c.postLayernorm ==> a.output.frames[i] == Biased(row))
    {
      var keyLength := k.shape[2];
      var scoreShape := [d.batch, d.heads, d.queryLength, keyLength];
      var scores := Tensor(scoreShape, c.query.device, ScoreRows(q.frames, k.frames));
      var contextShape := [d.batch, d.heads, d.queryLength, d.sizePerHead];
      var mergedShape := [d.batch, d.queryLength, d.heads * d.sizePerHead];
      var mode: Finalisation;
      if !c.postAddInput {
        if !c.postLayernorm {
          mode := AddBias;
        } else {
          mode := AddBiasLayerNorm;
        }
      } else {
        mode := AddInputBias;
      }
      var output := Tensor([d.batch, d.queryLength, d.hidden], c.query.device,
                           Finalise(mode, ContextRows(q.frames, k.frames, v.frames), c.query.frames));
      a := Attention(output, if c.returnScore then Some(scores) else None,
                     Shapes(q.shape, scoreShape, contextShape, mergedShape));
    }

    /** Key/value stage of cross-attention. */
    method ContextKeyValue(d: Dims, c: Call, keyLength: nat, presence: Presence, cache: LayerCache)
      returns (q: Tensor, k: Tensor, v: Tensor)
      requires c.key.Rank() == 3 && keyLength == c.key.shape[1] && Shaped(cache.entries)
      requires |cache.entries| > 0 ==> MemoryKeys in cache.entries && MemoryValues in cache.entries
      requires presence.memoryKeys == Present(cache.entries, MemoryKeys)
      requires presence.memoryValues == Present(cache.entries, MemoryValues)
      modifies cache
      ensures Sources(q, k, v, cache.entries) == ContextSources(d, c, old(cache.entries))
    {
      var device := c.query.device;
      var queryIn := if c.preLayernorm then LayerNormed(c.query.frames) else c.query.frames;
      q := ProjectForScore(QueryWeight, queryIn, [d.batch, d.heads, d.queryLength, d.sizePerHead], device);
      if presence.memoryKeys && presence.memoryValues {
        v := cache.entries[MemoryValues].tensor;
        k := cache.entries[MemoryKeys].tensor;
      } else {
        var shape := [d.batch, d.heads, keyLength, d.sizePerHead];
        var projectedValues := ProjectForScore(ValueWeight, c.value.frames, shape, device);
        var projectedKeys := ProjectForScore(KeyWeight, c.key.frames, shape, device);
        if |cache.entries| > 0 {
          cache.entries := cache.entries[MemoryValues := Holds(projectedValues)];
          cache.entries := cache.entries[MemoryKeys := Holds(projectedKeys)];
          v := cache.entries[MemoryValues].tensor;
          k := cache.entries[MemoryKeys].tensor;
        } else {
          v := projectedValues;
          k := projectedKeys;
        }
      }
    }

    /** Key/value stage of self-attention: only the query is read. */
    method SelfKeyValue(d: Dims, c: Call, presence: Presence, cache: LayerCache)
      returns (q: Tensor, k: Tensor, v: Tensor)
      requires Shaped(cache.entries)
      requires |cache.entries| > 0 ==> SelfKeys in cache.entries && SelfValues in cache.entries
      requires presence.selfKeys == Present(cache.entries, SelfKeys)
      requires presence.selfValues == Present(cache.entries, SelfValues)
      modifies cache
      ensures Sources(q, k, v, cache.entries) == SelfSources(d, c, old(cache.entries))
    {
      var device := c.query.device;
      var queryIn := if c.preLayernorm then LayerNormed(c.query.frames) else c.query.frames;
      var shape := [d.batch, d.heads, d.queryLength, d.sizePerHead];
      q := ProjectForScore(FusedQuery, queryIn, shape, device);
      var freshKeys := ProjectForScore(FusedKey, queryIn, shape, device);
      var freshValues := ProjectForScore(FusedValue, queryIn, shape, device);
      if presence.selfKeys {
        k := ConcatSeqAxis(cache.entries[SelfKeys].tensor, freshKeys);
      } else {
        k := freshKeys;
      }
      if presence.selfValues {
        v := ConcatSeqAxis(cache.entries[SelfValues].tensor, freshValues);
      } else {
        v := freshValues;
      }
      if |cache.entries| > 0 {
        cache.entries := cache.entries[SelfKeys := Holds(CopyInto(k, [d.batch, d.heads, k.shape[2], d.sizePerHead], device))];
        cache.entries := cache.entries[SelfValues := Holds(CopyInto(v, [d.batch, d.heads, v.shape[2], d.sizePerHead], device))];
      }
    }
  }
}
