/** What a decoding loop sees when it calls the layer step after step with
    one shared cache. */
module Decoding {
  import opened Tensors
  import opened LayerCaches
  import opened Attention
  import opened Properties

  /** A self-attention step passes its input as query, key and value. */
  function SelfCall(template: Call, x: Tensor): Call
  {
    template.(key := x, value := x, query := x, attnType := SelfAttention)
  }

  /** Self-attention over `inputs`, one call per input, threading the cache;
      the first failing call ends the loop. */
  function SelfDecode(heads: nat, template: Call, inputs: seq<Tensor>, cache: Cache): (r: Result<Cache, Error>)
    requires heads > 0 && Covers(SelfAttention, cache) && Shaped(cache)
    ensures r.Ok? ==> r.value.Keys == cache.Keys && Shaped(r.value)
    decreases |inputs|
  {
    if inputs == [] then Ok(cache)
    else
      match Forward(heads, SelfCall(template, inputs[0]), cache)
      case Err(e) => Err(e)
      case Ok(step) =>
        assert |step.cache| == |step.cache.Keys| == |cache.Keys| == |cache|;
        SelfDecode(heads, template, inputs[1..], step.cache)
  }

  predicate AllRankThree(inputs: seq<Tensor>)
  {
    forall i :: 0 <= i < |inputs| ==> inputs[i].Rank() == 3
  }

  /** Sum of the inputs' sequence lengths. */
  function TotalLength(inputs: seq<Tensor>): nat
    requires AllRankThree(inputs)
  {
    if inputs == [] then 0 else inputs[0].shape[1] + TotalLength(inputs[1..])
  }

  /** Sum of the inputs' frame counts. */
  function TotalFrames(inputs: seq<Tensor>): nat
  {
    if inputs == [] then 0 else |inputs[0].frames| + TotalFrames(inputs[1..])
  }

  /** Over a whole self-attention session the cached keys and values grow by
      the total input length, and every earlier state of the cache is a
      prefix of every later one. */
  lemma {:induction false} SelfDecodeGrows(heads: nat, template: Call, inputs: seq<Tensor>, cache: Cache)
    requires heads > 0 && Covers(SelfAttention, cache) && Shaped(cache) && |cache| > 0
    requires AllRankThree(inputs)
    ensures SelfDecode(heads, template, inputs, cache).Ok?
    ensures var after := SelfDecode(heads, template, inputs, cache).value;
            HeldLength(after, SelfKeys) == HeldLength(cache, SelfKeys) + TotalLength(inputs) &&
            HeldLength(after, SelfValues) == HeldLength(cache, SelfValues) + TotalLength(inputs)
    ensures var after := SelfDecode(heads, template, inputs, cache).value;
            HeldFrames(cache, SelfKeys) <= HeldFrames(after, SelfKeys) &&
            HeldFrames(cache, SelfValues) <= HeldFrames(after, SelfValues) &&
            |HeldFrames(after, SelfKeys)| == |HeldFrames(cache, SelfKeys)| + TotalFrames(inputs) &&
            |HeldFrames(after, SelfValues)| == |HeldFrames(cache, SelfValues)| + TotalFrames(inputs)
  {
    if inputs != [] {
      var c := SelfCall(template, inputs[0]);
      SelfCacheGrows(heads, c, cache);
      SelfCacheKeepsHistory(heads, c, cache);
      var step := Forward(heads, c, cache).value;
      assert |step.cache| == |step.cache.Keys| == |cache.Keys| == |cache|;
      assert AllRankThree(inputs[1..]) by {
        forall i | 0 <= i < |inputs[1..]| ensures inputs[1..][i].Rank() == 3 {
          assert inputs[1..][i] == inputs[i + 1];
        }
      }
      SelfDecodeGrows(heads, template, inputs[1..], step.cache);
      assert SelfDecode(heads, template, inputs, cache) == SelfDecode(heads, template, inputs[1..], step.cache);
      var middleKeys := HeldFrames(step.cache, SelfKeys);
      var middleValues := HeldFrames(step.cache, SelfValues);
      assert HeldFrames(cache, SelfKeys) <= middleKeys by {
        assert middleKeys[..|HeldFrames(cache, SelfKeys)|] == HeldFrames(cache, SelfKeys);
      }
      assert HeldFrames(cache, SelfValues) <= middleValues by {
        assert middleValues[..|HeldFrames(cache, SelfValues)|] == HeldFrames(cache, SelfValues);
      }
    }
  }

  /** With one position per call, starting from no cached history, the cached
      sequence length counts the calls made. */
  lemma {:induction false} UnitStepsCountCalls(heads: nat, template: Call, inputs: seq<Tensor>, cache: Cache)
    requires heads > 0 && Covers(SelfAttention, cache) && Shaped(cache) && |cache| > 0
    requires !Present(cache, SelfKeys) && !Present(cache, SelfValues)
    requires AllRankThree(inputs) && forall i :: 0 <= i < |inputs| ==> inputs[i].shape[1] == 1
    ensures SelfDecode(heads, template, inputs, cache).Ok?
    ensures var after := SelfDecode(heads, template, inputs, cache).value;
            HeldLength(after, SelfKeys) == |inputs| && HeldLength(after, SelfValues) == |inputs|
  {
    SelfDecodeGrows(heads, template, inputs, cache);
    UnitLengths(inputs);
  }

  lemma {:induction false} UnitLengths(inputs: seq<Tensor>)
    requires AllRankThree(inputs) && forall i :: 0 <= i < |inputs| ==> inputs[i].shape[1] == 1
    ensures TotalLength(inputs) == |inputs|
  {
    if inputs != [] {
      assert AllRankThree(inputs[1..]) && forall i :: 0 <= i < |inputs[1..]| ==> inputs[1..][i].shape[1] == 1 by {
        forall i | 0 <= i < |inputs[1..]| ensures inputs[1..][i].Rank() == 3 && inputs[1..][i].shape[1] == 1 {
          assert inputs[1..][i] == inputs[i + 1];
        }
      }
      UnitLengths(inputs[1..]);
    }
  }

  /** Two single-position self-attention calls from an empty history: the
      second call scores against two keys, not one. */
  lemma SecondStepKeyLength(heads: nat, template: Call, first: Tensor, second: Tensor, cache: Cache)
    requires heads > 0 && Covers(SelfAttention, cache) && Shaped(cache) && |cache| > 0
    requires !Present(cache, SelfKeys) && !Present(cache, SelfValues)
    requires first.Rank() == 3 && second.Rank() == 3 && first.shape[1] == 1 && second.shape[1] == 1
    ensures Forward(heads, SelfCall(template, first), cache).Ok?
    ensures var middle := Forward(heads, SelfCall(template, first), cache).value.cache;
            |middle| == |cache| &&
            Forward(heads, SelfCall(template, second), middle).Ok? &&
            Forward(heads, SelfCall(template, second), middle).value.attention.shapes.scores[3] == 2
  {
    var c1 := SelfCall(template, first);
    SelfCacheGrows(heads, c1, cache);
    var middle := Forward(heads, c1, cache).value.cache;
    assert |middle| == |middle.Keys| == |cache.Keys| == |cache|;
    ScoreShape(heads, SelfCall(template, second), middle);
  }

  /** Cross-attention memory is written by the first call of a session and
      then left exactly as it is by the next call, whatever its query. */
  lemma MemoryFixedAfterFirstCall(heads: nat, first: Call, second: Call, cache: Cache)
    requires heads > 0 && Covers(ContextAttention, cache) && Shaped(cache) && |cache| > 0
    requires first.attnType == ContextAttention && second.attnType == ContextAttention
    requires Admissible(first) && Admissible(second)
    ensures Forward(heads, first, cache).Ok?
    ensures var middle := Forward(heads, first, cache).value.cache;
            Present(middle, MemoryKeys) && Present(middle, MemoryValues) &&
            |middle| == |cache| &&
            Forward(heads, second, middle).Ok? &&
            Forward(heads, second, middle).value.cache == middle
  {
    if Present(cache, MemoryKeys) && Present(cache, MemoryValues) {
      MemoryReused(heads, first, cache);
    } else {
      MemoryEstablished(heads, first, cache);
    }
    var middle := Forward(heads, first, cache).value.cache;
    assert |middle| == |middle.Keys| == |cache.Keys| == |cache|;
    MemoryReused(heads, second, middle);
  }
}
