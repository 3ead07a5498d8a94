/** What one call of the attention layer guarantees, stated over `Forward`
    (which `MultiHeadedAttention.Apply` is proved to compute). */
module Properties {
  import opened Tensors
  import opened Kernels
  import opened LayerCaches
  import opened Attention

  /** The inputs a call accepts. */
  predicate Admissible(c: Call)
  {
    c.key.Rank() == 3 && c.value.Rank() == 3 && c.query.Rank() == 3 &&
    c.key.shape[0] == c.value.shape[0] &&
    (c.attnType == SelfAttention ||
     (c.attnType == ContextAttention && c.query.device == c.value.device && c.query.device == c.key.device))
  }

  /** `t` is the per-position projection of `source` by `w`, with the given
      shape, on the given device. */
  predicate ProjectionOf(t: Tensor, w: Weight, source: seq<Frame>, shape: seq<nat>, device: nat)
  {
    t.shape == shape && t.device == device && |t.frames| == |source| &&
    forall i :: 0 <= i < |source| ==> t.frames[i] == Projected(w, source[i])
  }

  /** An output row that attended over exactly these keys and values. */
  predicate RowOver(f: Frame, keys: seq<Frame>, values: seq<Frame>)
  {
    (f.Biased? || f.BiasedNormalised? || f.BiasedResidual?) &&
    f.context.Attended? && f.context.keys == keys && f.context.values == values
  }

  /** An output row whose attention was driven by this per-head query row. */
  predicate RowFor(f: Frame, query: Frame)
  {
    (f.Biased? || f.BiasedNormalised? || f.BiasedResidual?) &&
    f.context.Attended? && f.context.query == query
  }

  predicate AttendsOver(t: Tensor, keys: seq<Frame>, values: seq<Frame>)
  {
    forall i :: 0 <= i < |t.frames| ==> RowOver(t.frames[i], keys, values)
  }

  /** Every entry other than the two named ones is as before. */
  predicate OthersUnchanged(before: Cache, after: Cache, a: string, b: string)
  {
    after.Keys == before.Keys &&
    forall n :: n in before && n != a && n != b ==> after[n] == before[n]
  }

  /** The key length the score tensor is built with, defined from the cache
      state and the inputs. */
  function EffectiveKeyLength(c: Call, cache: Cache): nat
    requires c.key.Rank() == 3 && c.query.Rank() == 3 && Shaped(cache)
  {
    if c.attnType == ContextAttention then
      if Present(cache, MemoryKeys) && Present(cache, MemoryValues) then cache[MemoryKeys].tensor.shape[2]
      else c.key.shape[1]
    else HeldLength(cache, SelfKeys) + c.query.shape[1]
  }

  /** A call succeeds exactly on admissible inputs. */
  lemma SucceedsIffAdmissible(heads: nat, c: Call, cache: Cache)
    requires heads > 0 && Covers(c.attnType, cache) && Shaped(cache)
    ensures Forward(heads, c, cache).Ok? <==> Admissible(c)
  {
  }

  /** The rank and batch checks, in the order the layer makes them. The batch
      check compares dimension 0 of key and value (their batch size), not
      their hidden size. */
  lemma RankAndBatchChecks(heads: nat, c: Call, cache: Cache)
    requires heads > 0 && Covers(c.attnType, cache) && Shaped(cache)
    ensures c.key.Rank() != 3 ==> Forward(heads, c, cache) == Err(RankMismatch(KeyTensor, c.key.Rank()))
    ensures c.key.Rank() == 3 && c.value.Rank() != 3 ==>
              Forward(heads, c, cache) == Err(RankMismatch(ValueTensor, c.value.Rank()))
    ensures c.key.Rank() == 3 && c.value.Rank() == 3 && c.query.Rank() != 3 ==>
              Forward(heads, c, cache) == Err(RankMismatch(QueryTensor, c.query.Rank()))
    ensures c.key.Rank() == 3 && c.value.Rank() == 3 && c.query.Rank() == 3 && c.key.shape[0] != c.value.shape[0] ==>
              Forward(heads, c, cache) == Err(BatchMismatch(c.key.shape[0], c.value.shape[0]))
  {
  }

  /** Any attention type other than "context" and "self" aborts, whatever
      the cache holds; an aborted call writes nothing into the cache (see
      `MultiHeadedAttention.Apply`). */
  lemma UnknownAttnTypeRejected(heads: nat, c: Call, cache: Cache)
    requires heads > 0 && Covers(c.attnType, cache) && Shaped(cache)
    requires c.key.Rank() == 3 && c.value.Rank() == 3 && c.query.Rank() == 3 && c.key.shape[0] == c.value.shape[0]
    requires c.attnType != ContextAttention && c.attnType != SelfAttention
    ensures Forward(heads, c, cache) == Err(UnsupportedAttnType(c.attnType))
  {
  }

  /** Cross-attention requires the value and then the key input to be on the
      query's device; self-attention makes no such check. */
  lemma DeviceChecks(heads: nat, c: Call, cache: Cache)
    requires heads > 0 && Covers(c.attnType, cache) && Shaped(cache)
    requires c.key.Rank() == 3 && c.value.Rank() == 3 && c.query.Rank() == 3 && c.key.shape[0] == c.value.shape[0]
    ensures c.attnType == ContextAttention && c.query.device != c.value.device ==>
              Forward(heads, c, cache) == Err(DeviceMismatch(ValueTensor))
    ensures c.attnType == ContextAttention && c.query.device == c.value.device && c.query.device != c.key.device ==>
              Forward(heads, c, cache) == Err(DeviceMismatch(KeyTensor))
    ensures c.attnType == SelfAttention ==> Forward(heads, c, cache).Ok?
  {
  }

  /** Cross-attention with both memory slots present: the cached tensors are
      the keys and values, and the cache is left exactly as it was. */
  lemma MemoryReused(heads: nat, c: Call, cache: Cache)
    requires heads > 0 && Covers(c.attnType, cache) && Shaped(cache) && Admissible(c)
    requires c.attnType == ContextAttention && Present(cache, MemoryKeys) && Present(cache, MemoryValues)
    ensures Forward(heads, c, cache).Ok?
    ensures Forward(heads, c, cache).value.cache == cache
    ensures AttendsOver(Forward(heads, c, cache).value.attention.output,
                        cache[MemoryKeys].tensor.frames, cache[MemoryValues].tensor.frames)
  {
  }

  /** Cross-attention without both memory slots: the key and value inputs are
      projected into per-head tensors `[batch, heads, key_seq_len,
      size_per_head]` on the query's device. A non-empty cache gets them in
      its memory slots (replacing a lone present one) and nothing else
      changes; an empty cache stays empty. */
  lemma MemoryEstablished(heads: nat, c: Call, cache: Cache)
    requires heads > 0 && Covers(c.attnType, cache) && Shaped(cache) && Admissible(c)
    requires c.attnType == ContextAttention && !(Present(cache, MemoryKeys) && Present(cache, MemoryValues))
    ensures Forward(heads, c, cache).Ok?
    ensures var shape := [c.query.shape[0], heads, c.key.shape[1], c.query.shape[2] / heads];
            var after := Forward(heads, c, cache).value.cache;
            if |cache| > 0 then
              OthersUnchanged(cache, after, MemoryKeys, MemoryValues) &&
              after[MemoryKeys].Holds? && after[MemoryValues].Holds? &&
              ProjectionOf(after[MemoryKeys].tensor, KeyWeight, c.key.frames, shape, c.query.device) &&
              ProjectionOf(after[MemoryValues].tensor, ValueWeight, c.value.frames, shape, c.query.device)
            else after == cache
  {
  }

  /** What the self path appends to one slot: the previous content (if
      present) followed by the fresh per-head tensor. */
  lemma {:induction false} AppendToSlot(cache: Cache, slot: string, tail: Tensor)
    requires PerHeadSlot(cache, slot) && tail.Rank() == 4
    ensures var k := if Present(cache, slot) then ConcatSeqAxis(cache[slot].tensor, tail) else tail;
            k.Rank() == 4 && k.shape[2] == HeldLength(cache, slot) + tail.shape[2] &&
            k.frames == HeldFrames(cache, slot) + tail.frames
  {
    if Present(cache, slot) {
      var k := ConcatSeqAxis(cache[slot].tensor, tail);
      assert k.frames == k.frames[..|cache[slot].tensor.frames|] + k.frames[|cache[slot].tensor.frames|..];
    }
  }

  /** The self path's cache after the call, spelled out. */
  lemma {:induction false} SelfStage(heads: nat, c: Call, cache: Cache)
    requires heads > 0 && Covers(c.attnType, cache) && Shaped(cache) && Admissible(c)
    requires c.attnType == SelfAttention && |cache| > 0
    ensures Forward(heads, c, cache).Ok?
    ensures var after := Forward(heads, c, cache).value.cache;
            var d := DimsOf(heads, c.query);
            var shape := HeadShape(d, d.queryLength);
            var freshKeys := ProjectForScore(FusedKey, QueryInput(c), shape, c.query.device);
            var freshValues := ProjectForScore(FusedValue, QueryInput(c), shape, c.query.device);
            OthersUnchanged(cache, after, SelfKeys, SelfValues) &&
            after[SelfKeys] == Holds(Tensor(HeadShape(d, HeldLength(cache, SelfKeys) + d.queryLength), c.query.device,
                                            HeldFrames(cache, SelfKeys) + freshKeys.frames)) &&
            after[SelfValues] == Holds(Tensor(HeadShape(d, HeldLength(cache, SelfValues) + d.queryLength), c.query.device,
                                              HeldFrames(cache, SelfValues) + freshValues.frames))
  {
    var d := DimsOf(heads, c.query);
    var shape := HeadShape(d, d.queryLength);
    var freshKeys := ProjectForScore(FusedKey, QueryInput(c), shape, c.query.device);
    var freshValues := ProjectForScore(FusedValue, QueryInput(c), shape, c.query.device);
    AppendToSlot(cache, SelfKeys, freshKeys);
    AppendToSlot(cache, SelfValues, freshValues);
    assert Forward(heads, c, cache) == Ok(Step(Finish(d, c, SelfSources(d, c, cache).query, SelfSources(d, c, cache).keys, SelfSources(d, c, cache).values), SelfSources(d, c, cache).cache));
  }

  /** Self-attention with a cache: each self slot grows by the query length
      along the sequence axis, counting from its previous length (0 when it was
      not present). Keys and values are judged separately. Nothing else in the
      cache changes. */
  lemma SelfCacheGrows(heads: nat, c: Call, cache: Cache)
    requires heads > 0 && Covers(c.attnType, cache) && Shaped(cache) && Admissible(c)
    requires c.attnType == SelfAttention && |cache| > 0
    ensures Forward(heads, c, cache).Ok?
    ensures var after := Forward(heads, c, cache).value.cache;
            var b, l, sph := c.query.shape[0], c.query.shape[1], c.query.shape[2] / heads;
            OthersUnchanged(cache, after, SelfKeys, SelfValues) &&
            after[SelfKeys].Holds? && after[SelfValues].Holds? &&
            after[SelfKeys].tensor.shape == [b, heads, HeldLength(cache, SelfKeys) + l, sph] &&
            after[SelfValues].tensor.shape == [b, heads, HeldLength(cache, SelfValues) + l, sph]
  {
    SelfStage(heads, c, cache);
  }

  /** Appending a projection to a history keeps the history as a prefix and
      puts the projected rows after it. */
  lemma {:induction false} AppendedProjection(history: seq<Frame>, w: Weight, x: seq<Frame>, shape: seq<nat>,
                                              device: nat, grown: seq<Frame>)
    requires grown == history + ProjectForScore(w, x, shape, device).frames
    ensures |grown| == |history| + |x| && grown[..|history|] == history
    ensures forall i :: 0 <= i < |x| ==> grown[|history| + i] == Projected(w, x[i])
  {
    var tail := ProjectForScore(w, x, shape, device).frames;
    assert grown[..|history|] == history;
    forall i | 0 <= i < |x|
      ensures grown[|history| + i] == Projected(w, x[i])
    {
      assert grown[|history| + i] == tail[i];
    }
  }

  /** Self-attention with a cache: each self slot keeps its previous content
      as a prefix and appends the fresh projection of the (possibly
      normalised) query, one frame per query position. */
  lemma SelfCacheKeepsHistory(heads: nat, c: Call, cache: Cache)
    requires heads > 0 && Covers(c.attnType, cache) && Shaped(cache) && Admissible(c)
    requires c.attnType == SelfAttention && |cache| > 0
    ensures Forward(heads, c, cache).Ok?
    ensures var after := Forward(heads, c, cache).value.cache;
            var oldKeys, oldValues := HeldFrames(cache, SelfKeys), HeldFrames(cache, SelfValues);
            after[SelfKeys].Holds? && after[SelfValues].Holds? &&
            var newKeys, newValues := after[SelfKeys].tensor.frames, after[SelfValues].tensor.frames;
            |newKeys| == |oldKeys| + |c.query.frames| && newKeys[..|oldKeys|] == oldKeys &&
            |newValues| == |oldValues| + |c.query.frames| && newValues[..|oldValues|] == oldValues &&
            forall i :: 0 <= i < |c.query.frames| ==>
              newKeys[|oldKeys| + i] == Projected(FusedKey, QueryInput(c)[i]) &&
              newValues[|oldValues| + i] == Projected(FusedValue, QueryInput(c)[i])
  {
    SelfStage(heads, c, cache);
    var d := DimsOf(heads, c.query);
    var shape := HeadShape(d, d.queryLength);
    var after := Forward(heads, c, cache).value.cache;
    AppendedProjection(HeldFrames(cache, SelfKeys), FusedKey, QueryInput(c), shape, c.query.device,
                       after[SelfKeys].tensor.frames);
    AppendedProjection(HeldFrames(cache, SelfValues), FusedValue, QueryInput(c), shape, c.query.device,
                       after[SelfValues].tensor.frames);
  }

  /** Self-attention reads only the query: key and value inputs that pass the
      entry checks make no difference to the outcome. */
  lemma SelfIgnoresKeyAndValue(heads: nat, c: Call, key: Tensor, value: Tensor, cache: Cache)
    requires heads > 0 && Covers(c.attnType, cache) && Shaped(cache)
    requires c.attnType == SelfAttention && Admissible(c)
    requires key.Rank() == 3 && value.Rank() == 3 && key.shape[0] == value.shape[0]
    ensures Forward(heads, c.(key := key, value := value), cache) == Forward(heads, c, cache)
  {
  }

  /** The score tensor is `[batch, heads, query_seq_len, key length]`, the
      key length being that of the key tensor actually used, after any cache
      growth. It is returned only when asked for. */
  lemma ScoreShape(heads: nat, c: Call, cache: Cache)
    requires heads > 0 && Covers(c.attnType, cache) && Shaped(cache) && Admissible(c)
    ensures Forward(heads, c, cache).Ok?
    ensures var a := Forward(heads, c, cache).value.attention;
            var shape := [c.query.shape[0], heads, c.query.shape[1], EffectiveKeyLength(c, cache)];
            a.shapes.scores == shape &&
            (c.returnScore <==> a.score.Some?) &&
            (a.score.Some? ==> a.score.value.shape == shape && a.score.value.device == c.query.device)
    ensures var after := Forward(heads, c, cache).value.cache;
            c.attnType == SelfAttention && |cache| > 0 ==>
              EffectiveKeyLength(c, cache) == after[SelfKeys].tensor.shape[2]
  {
  }

  /** The output is `[batch, query_seq_len, hidden]` on the query's device
      with one row per query position, whatever the attention type and cache
      state; the per-head queries and the context layer are
      `[batch, heads, query_seq_len, size_per_head]`. */
  lemma OutputShape(heads: nat, c: Call, cache: Cache)
    requires heads > 0 && Covers(c.attnType, cache) && Shaped(cache) && Admissible(c)
    ensures Forward(heads, c, cache).Ok?
    ensures var a := Forward(heads, c, cache).value.attention;
            var b, l, h := c.query.shape[0], c.query.shape[1], c.query.shape[2];
            a.output.shape == [b, l, h] && a.output.device == c.query.device &&
            |a.output.frames| == |c.query.frames| &&
            a.shapes.queryHeads == [b, heads, l, h / heads] &&
            a.shapes.contextLayer == [b, heads, l, h / heads]
  {
  }

  /** The context layer transposed back is as wide as the hidden size exactly
      when the head count divides it. */
  lemma MergedWidth(heads: nat, c: Call, cache: Cache)
    requires heads > 0 && Covers(c.attnType, cache) && Shaped(cache) && Admissible(c)
    ensures Forward(heads, c, cache).Ok?
    ensures var a := Forward(heads, c, cache).value.attention;
            a.shapes.merged == [c.query.shape[0], c.query.shape[1], heads * (c.query.shape[2] / heads)] &&
            (a.shapes.merged[2] == c.query.shape[2] <==> c.query.shape[2] % heads == 0)
  {
    var h := c.query.shape[2];
    assert h == heads * (h / heads) + h % heads;
  }

  /** Output finalisation: `post_add_input` adds the input and the bias;
      otherwise `post_layernorm` chooses bias plus LayerNorm with the input as
      residual, or the bias alone. The residual is the query as passed in. */
  lemma Finalisation(heads: nat, c: Call, cache: Cache)
    requires heads > 0 && Covers(c.attnType, cache) && Shaped(cache) && Admissible(c)
    ensures Forward(heads, c, cache).Ok?
    ensures var out := Forward(heads, c, cache).value.attention.output;
            |out.frames| == |c.query.frames| &&
            forall i :: 0 <= i < |out.frames| ==>
              (c.postAddInput ==> out.frames[i].BiasedResidual? && out.frames[i].residual == c.query.frames[i]) &&
              (!c.postAddInput && c.postLayernorm ==>
                 out.frames[i].BiasedNormalised? && out.frames[i].residual == c.query.frames[i]) &&
              (!c.postAddInput && !c.postLayernorm ==> out.frames[i].Biased?)
  {
  }

  /** Each output row of `Finish` attends with the matching query row over
      all keys and values. */
  lemma {:induction false} FinishedRows(d: Dims, c: Call, q: Tensor, k: Tensor, v: Tensor)
    requires k.Rank() > 2 && |q.frames| == |c.query.frames|
    ensures var out := Finish(d, c, q, k, v).output;
            |out.frames| == |q.frames| &&
            forall i :: 0 <= i < |out.frames| ==> RowFor(out.frames[i], q.frames[i]) && RowOver(out.frames[i], k.frames, v.frames)
  {
    var out := Finish(d, c, q, k, v).output;
    var rows := ContextRows(q.frames, k.frames, v.frames);
    forall i | 0 <= i < |out.frames|
      ensures RowFor(out.frames[i], q.frames[i]) && RowOver(out.frames[i], k.frames, v.frames)
    {
      assert rows[i] == Attended(q.frames[i], k.frames, v.frames);
      assert out.frames[i].context == rows[i];
    }
  }

  /** Under `pre_layernorm` the attention sees a normalised copy of the
      query (projected by the query weight for cross-attention, by the query
      slice of the fused weight for self-attention), while the query itself is
      left as it was for the residual. */
  lemma QueryProjection(heads: nat, c: Call, cache: Cache)
    requires heads > 0 && Covers(c.attnType, cache) && Shaped(cache) && Admissible(c)
    ensures Forward(heads, c, cache).Ok?
    ensures var out := Forward(heads, c, cache).value.attention.output;
            var w := if c.attnType == ContextAttention then QueryWeight else FusedQuery;
            |out.frames| == |c.query.frames| &&
            forall i :: 0 <= i < |out.frames| ==>
              RowFor(out.frames[i], Projected(w, if c.preLayernorm then Normalised(c.query.frames[i]) else c.query.frames[i]))
  {
    var d := DimsOf(heads, c.query);
    var s := if c.attnType == ContextAttention then ContextSources(d, c, cache) else SelfSources(d, c, cache);
    var w := if c.attnType == ContextAttention then QueryWeight else FusedQuery;
    assert Forward(heads, c, cache).value.attention == Finish(d, c, s.query, s.keys, s.values);
    FinishedRows(d, c, s.query, s.keys, s.values);
    assert s.query.frames == ProjectForScore(w, QueryInput(c), HeadShape(d, d.queryLength), c.query.device).frames;
    forall i | 0 <= i < |c.query.frames|
      ensures s.query.frames[i] == Projected(w, if c.preLayernorm then Normalised(c.query.frames[i]) else c.query.frames[i])
    {
    }
  }

  /** Cross-attention without both memory slots: every output row attends
      over the fresh key and value projections, whether they went into the
      cache or into temporaries. */
  lemma FreshMemoryAttended(heads: nat, c: Call, cache: Cache)
    requires heads > 0 && Covers(c.attnType, cache) && Shaped(cache) && Admissible(c)
    requires c.attnType == ContextAttention && !(Present(cache, MemoryKeys) && Present(cache, MemoryValues))
    ensures Forward(heads, c, cache).Ok?
    ensures var shape := HeadShape(DimsOf(heads, c.query), c.key.shape[1]);
            AttendsOver(Forward(heads, c, cache).value.attention.output,
                        ProjectForScore(KeyWeight, c.key.frames, shape, c.query.device).frames,
                        ProjectForScore(ValueWeight, c.value.frames, shape, c.query.device).frames)
  {
    var d := DimsOf(heads, c.query);
    var s := ContextSources(d, c, cache);
    assert Forward(heads, c, cache) == Ok(Step(Finish(d, c, s.query, s.keys, s.values), s.cache));
    FinishedRows(d, c, s.query, s.keys, s.values);
  }

  /** Self-attention: every output row attends over the cached history (if
      present) followed by the fresh fused key and value projections of the
      query, with or without a cache. */
  lemma SelfHistoryAttended(heads: nat, c: Call, cache: Cache)
    requires heads > 0 && Covers(c.attnType, cache) && Shaped(cache) && Admissible(c)
    requires c.attnType == SelfAttention
    ensures Forward(heads, c, cache).Ok?
    ensures var shape := HeadShape(DimsOf(heads, c.query), c.query.shape[1]);
            AttendsOver(Forward(heads, c, cache).value.attention.output,
                        HeldFrames(cache, SelfKeys) + ProjectForScore(FusedKey, QueryInput(c), shape, c.query.device).frames,
                        HeldFrames(cache, SelfValues) + ProjectForScore(FusedValue, QueryInput(c), shape, c.query.device).frames)
  {
    var d := DimsOf(heads, c.query);
    var shape := HeadShape(d, d.queryLength);
    AppendToSlot(cache, SelfKeys, ProjectForScore(FusedKey, QueryInput(c), shape, c.query.device));
    AppendToSlot(cache, SelfValues, ProjectForScore(FusedValue, QueryInput(c), shape, c.query.device));
    var s := SelfSources(d, c, cache);
    assert Forward(heads, c, cache) == Ok(Step(Finish(d, c, s.query, s.keys, s.values), s.cache));
    FinishedRows(d, c, s.query, s.keys, s.values);
  }

  /** What a consistent call leaves consistent: the table, the output and
      the returned score. */
  predicate ConsistentStep(step: Step)
  {
    Framed(step.cache) && step.attention.output.Consistent() &&
    (step.attention.score.Some? ==> step.attention.score.value.Consistent())
  }

  lemma {:induction false} ContextFramesMatch(heads: nat, c: Call, cache: Cache)
    requires heads > 0 && Covers(c.attnType, cache) && Shaped(cache) && Admissible(c) && Framed(cache)
    requires c.attnType == ContextAttention && c.query.Consistent()
    requires c.key.Consistent() && c.value.Consistent() && c.value.shape[1] == c.key.shape[1]
    ensures Forward(heads, c, cache).Ok? && ConsistentStep(Forward(heads, c, cache).value)
  {
    var d := DimsOf(heads, c.query);
    var s := ContextSources(d, c, cache);
    assert Forward(heads, c, cache) == Ok(Step(Finish(d, c, s.query, s.keys, s.values), s.cache));
  }

  lemma {:induction false} SelfFramesMatch(heads: nat, c: Call, cache: Cache)
    requires heads > 0 && Covers(c.attnType, cache) && Shaped(cache) && Admissible(c) && Framed(cache)
    requires c.attnType == SelfAttention && c.query.Consistent()
    ensures Forward(heads, c, cache).Ok? && ConsistentStep(Forward(heads, c, cache).value)
  {
    var d := DimsOf(heads, c.query);
    var s := SelfSources(d, c, cache);
    assert Forward(heads, c, cache) == Ok(Step(Finish(d, c, s.query, s.keys, s.values), s.cache));
    if |cache| > 0 {
      SelfStage(heads, c, cache);
      forall n | n in s.cache && s.cache[n].Holds? ensures s.cache[n].tensor.Consistent() {
        if n != SelfKeys && n != SelfValues {
          assert s.cache[n] == cache[n];
        }
      }
    }
  }

  /** A call keeps frames and shapes in step: given consistent inputs (for
      cross-attention, key and value of one length, as the projections'
      shapes assume) and a consistent table, the table after the call, the
      output and the returned score are consistent too. */
  lemma FramesMatchShapes(heads: nat, c: Call, cache: Cache)
    requires heads > 0 && Covers(c.attnType, cache) && Shaped(cache) && Admissible(c) && Framed(cache)
    requires c.query.Consistent()
    requires c.attnType == ContextAttention ==>
               c.key.Consistent() && c.value.Consistent() && c.value.shape[1] == c.key.shape[1]
    ensures Forward(heads, c, cache).Ok?
    ensures var step := Forward(heads, c, cache).value;
            Framed(step.cache) && step.attention.output.Consistent() &&
            (step.attention.score.Some? ==> step.attention.score.value.Consistent())
  {
    if c.attnType == ContextAttention {
      ContextFramesMatch(heads, c, cache);
    } else {
      SelfFramesMatch(heads, c, cache);
    }
  }
}
