/** One named cache of the Cache API as an object whose contents change in place:
    `match`, `keys`, `put` and `delete`, and the two trimming loops of the worker,
    `manageCacheSize` and the body of the periodic cleanup. */
module Caches {
  import opened Wrappers
  import opened Seqs
  import opened Responses
  import opened CacheModel

  class Cache {
    /** The keys in insertion order, as `cache.keys()` lists them. */
    var keys: seq<Key>
    var entries: map<Key, Response>

    /** The contents as a value. */
    function Model(): CacheState
      reads this
    {
      CacheState(keys, entries)
    }

    ghost predicate Valid()
      reads this
    {
      CacheModel.Valid(Model())
    }

    constructor ()
      ensures Valid() && Model() == Empty
    {
      keys := [];
      entries := map[];
    }

    /** `cache.match(key)`. */
    method Match(k: Key) returns (r: Option<Response>)
      requires Valid()
      ensures r.Some? <==> k in keys
      ensures r.Some? ==> r.value == entries[k]
      ensures r == Lookup(Model(), k)
    {
      r := if k in entries then Some(entries[k]) else None;
    }

    /** `cache.keys()`: a snapshot of the keys, oldest first. */
    method Keys() returns (ks: seq<Key>)
      ensures ks == keys
    {
      ks := keys;
    }

    /** `cache.put(key, v)`. */
    method Put(k: Key, v: Response)
      requires Valid()
      modifies this
      ensures Valid()
      ensures Model() == CacheModel.Put(old(Model()), k, v)
    {
      PutSpec(Model(), k, v);
      keys := Remove(keys, k) + [k];
      entries := entries[k := v];
    }

    /** `cache.delete(key)`, resolving to whether there was an entry. */
    method Delete(k: Key) returns (found: bool)
      requires Valid()
      modifies this
      ensures Valid()
      ensures found == (k in old(entries))
      ensures Model() == CacheModel.Delete(old(Model()), k)
    {
      DeleteSpec(Model(), k);
      found := k in entries;
      keys := Remove(keys, k);
      entries := entries - {k};
    }

    /** The loop `for (i = 0; i < n; i++) await cache.delete(keys[i])` over a snapshot of the keys. */
    method DeleteOldest(n: nat)
      requires Valid() && n <= |keys|
      modifies this
      ensures Valid()
      ensures Model() == DropOldest(old(Model()), n)
    {
      DropOldestSpec(Model(), 0);
      var ks := Keys();
      var i := 0;
      while i < n
        invariant 0 <= i <= n
        invariant Model() == DropOldest(old(Model()), i)
        invariant Valid()
      {
        DropOldestStep(old(Model()), i);
        var _ := Delete(ks[i]);
        i := i + 1;
        DropOldestSpec(old(Model()), i);
      }
    }

    /** `manageCacheSize`: above `maxEntries` keys, delete the `count - maxEntries + 5` oldest. */
    method ManageCacheSize()
      requires Valid()
      modifies this
      ensures Valid()
      ensures Model() == Trim(old(Model()))
    {
      var ks := Keys();
      if |ks| > MaxEntries {
        var entriesToDelete := |ks| - MaxEntries + EvictionBuffer;
        DeleteOldest(entriesToDelete);
      }
    }

    /** The body of the periodic cleanup on the dynamic cache: trim, then under memory pressure
        delete `floor(0.3 * n)` of the `n` keys left, oldest first. */
    method PeriodicCleanup(usedHeap: Option<nat>)
      requires Valid()
      modifies this
      ensures Valid()
      ensures Model() == Cleanup(old(Model()), MemoryPressure(usedHeap))
    {
      ManageCacheSize();
      if MemoryPressure(usedHeap) {
        var ks := Keys();
        var deleteCount := PurgeCount(|ks|);
        DeleteOldest(deleteCount);
      }
    }

    /** `cache.add(url)` for each url, each fetch with its own outcome; a failed one stores nothing
        and does not stop the others (`Promise.allSettled`). */
    method AddEach(urls: seq<Key>, outcomes: seq<FetchOutcome>)
      requires Valid() && |urls| == |outcomes|
      modifies this
      ensures Valid()
      ensures Model() == CacheModel.AddEach(old(Model()), urls, outcomes)
    {
      var i := 0;
      while i < |urls|
        invariant 0 <= i <= |urls|
        invariant Valid()
        invariant CacheModel.AddEach(Model(), urls[i..], outcomes[i..]) == CacheModel.AddEach(old(Model()), urls, outcomes)
      {
        assert urls[i..][1..] == urls[i + 1..] && outcomes[i..][1..] == outcomes[i + 1..];
        if IsOkOutcome(outcomes[i]) {
          Put(urls[i], FromNetwork(outcomes[i]));
        }
        i := i + 1;
      }
    }

    /** `cache.addAll(urls)`: when every fetch is ok all are stored, otherwise it rejects
        (`stored` is false) and nothing is stored. */
    method AddAll(urls: seq<Key>, outcomes: seq<FetchOutcome>) returns (stored: bool)
      requires Valid() && |urls| == |outcomes|
      modifies this
      ensures Valid()
      ensures stored == AllOk(outcomes)
      ensures stored ==> Model() == CacheModel.AddEach(old(Model()), urls, outcomes)
      ensures !stored ==> Model() == old(Model())
    {
      stored := AllOk(outcomes);
      if stored {
        AddEach(urls, outcomes);
      }
    }

    /** The install step: `addAll`, and when it rejects, `add` of each url on its own. */
    method AddAllOrEach(urls: seq<Key>, first: seq<FetchOutcome>, retry: seq<FetchOutcome>)
      requires Valid() && |first| == |urls| && |retry| == |urls|
      modifies this
      ensures Valid()
      ensures Model() == CacheModel.AddAllOrEach(old(Model()), urls, first, retry)
    {
      var stored := AddAll(urls, first);
      if !stored {
        AddEach(urls, retry);
      }
    }
  }
}
