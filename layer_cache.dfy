/** The layer cache: a caller-owned table from slot names to tensors, carried
    across decoding steps. A slot is "present" when its name is in the table
    and its tensor has storage. */
module LayerCaches {
  import opened Tensors

  const MemoryKeys: string := "memory_keys"
  const MemoryValues: string := "memory_values"
  const SelfKeys: string := "self_keys"
  const SelfValues: string := "self_values"

  type Cache = map<string, Entry>

  predicate Present(cache: Cache, slot: string)
  {
    slot in cache && cache[slot].Holds?
  }

  /** A present slot holds a per-head tensor `[batch, heads, seq, size_per_head]`,
      which is what the layer itself writes into the cache. */
  predicate PerHeadSlot(cache: Cache, slot: string)
  {
    Present(cache, slot) ==> cache[slot].tensor.Rank() == 4
  }

  predicate Shaped(cache: Cache)
  {
    PerHeadSlot(cache, MemoryKeys) && PerHeadSlot(cache, MemoryValues) &&
    PerHeadSlot(cache, SelfKeys) && PerHeadSlot(cache, SelfValues)
  }

  /** Every tensor in the table has one frame per sequence position. */
  predicate Framed(cache: Cache)
  {
    forall n :: n in cache && cache[n].Holds? ==> cache[n].tensor.Consistent()
  }

  /** Length along the sequence axis of what a slot holds, 0 when it is not present. */
  function HeldLength(cache: Cache, slot: string): nat
    requires PerHeadSlot(cache, slot)
  {
    if Present(cache, slot) then cache[slot].tensor.shape[2] else 0
  }

  /** Content of what a slot holds, empty when it is not present. */
  function HeldFrames(cache: Cache, slot: string): seq<Frame>
  {
    if Present(cache, slot) then cache[slot].tensor.frames else []
  }

  /** The four presence flags of one call. */
  datatype Presence = Presence(memoryKeys: bool, memoryValues: bool, selfKeys: bool, selfValues: bool)
  {
    /** Cross-attention memory is reused only when both of its slots are present. */
    predicate MemoryPresent() { memoryKeys && memoryValues }
  }

  /** The presence scan: walks the table once, setting a flag for each of the
      four names it finds with a non-null tensor. */
  method ScanCache(cache: Cache) returns (p: Presence)
    ensures p.memoryKeys == Present(cache, MemoryKeys)
    ensures p.memoryValues == Present(cache, MemoryValues)
    ensures p.selfKeys == Present(cache, SelfKeys)
    ensures p.selfValues == Present(cache, SelfValues)
  {
    var memoryKeys, memoryValues, selfKeys, selfValues := false, false, false, false;
    if |cache| > 0 {
      var remaining := cache.Keys;
      while remaining != {}
        invariant remaining <= cache.Keys
        invariant memoryKeys == (MemoryKeys in cache.Keys - remaining && cache[MemoryKeys].Holds?)
        invariant memoryValues == (MemoryValues in cache.Keys - remaining && cache[MemoryValues].Holds?)
        invariant selfKeys == (SelfKeys in cache.Keys - remaining && cache[SelfKeys].Holds?)
        invariant selfValues == (SelfValues in cache.Keys - remaining && cache[SelfValues].Holds?)
        decreases remaining
      {
        var name :| name in remaining;
        if name == MemoryKeys && cache[name].Holds? {
          memoryKeys := true;
        }
        if name == MemoryValues && cache[name].Holds? {
          memoryValues := true;
        }
        if name == SelfKeys && cache[name].Holds? {
          selfKeys := true;
        }
        if name == SelfValues && cache[name].Holds? {
          selfValues := true;
        }
        remaining := remaining - {name};
      }
    }
    p := Presence(memoryKeys, memoryValues, selfKeys, selfValues);
  }

  /** The caller's table. Its tensors are updated in place by the layer; the
      entries map is reassigned to the table with those tensors replaced. */
  class LayerCache {
    var entries: Cache

    constructor (entries: Cache)
      ensures this.entries == entries
    {
      this.entries := entries;
    }
  }
}
