/** The contents of one named cache as a value: the keys in insertion order (`cache.keys()`)
    and the entry stored under each. Every operation here is what a `Cache` object does
    to its contents in place; the strategies are stated on these values. */
module CacheModel {
  import opened Wrappers
  import opened Seqs
  import opened Responses

  /** A cache key: the request URL, relative to the worker's origin for a same-origin URL, in full otherwise. */
  type Key = string

  /** `iOSOptimizations.maxEntries`. */
  const MaxEntries: nat := 50
  /** The extra entries `manageCacheSize` removes beyond the overage. */
  const EvictionBuffer: nat := 5
  /** The `usedJSHeapSize` above which the periodic cleanup purges harder. */
  const MemoryPressureThreshold: nat := 50000000

  datatype CacheState = CacheState(keys: seq<Key>, entries: map<Key, Response>)

  const Empty := CacheState([], map[])

  /** The keys are distinct and are exactly the keys that have an entry. */
  ghost predicate Valid(c: CacheState) {
    Distinct(c.keys) && c.entries.Keys == (set k | k in c.keys)
  }

  function Count(c: CacheState): nat {
    |c.keys|
  }

  /** `cache.match(key)`. */
  function Lookup(c: CacheState, k: Key): Option<Response> {
    if k in c.entries then Some(c.entries[k]) else None
  }

  /** `cache.put(key, v)`: an existing entry for `key` is replaced, and `key` becomes the newest. */
  function Put(c: CacheState, k: Key, v: Response): CacheState {
    CacheState(Remove(c.keys, k) + [k], c.entries[k := v])
  }

  /** `cache.delete(key)`. */
  function Delete(c: CacheState, k: Key): CacheState {
    CacheState(Remove(c.keys, k), c.entries - {k})
  }

  /** The cache without its `n` oldest keys. */
  function DropOldest(c: CacheState, n: nat): CacheState
    requires n <= |c.keys|
  {
    CacheState(c.keys[n..], c.entries - (set k | k in c.keys[..n]))
  }

  /** `entriesToDelete` of `manageCacheSize`: the overage plus the buffer, or none at all. */
  function EvictionCount(count: nat, maxEntries: nat): nat {
    if count > maxEntries then count - maxEntries + EvictionBuffer else 0
  }

  /** `manageCacheSize`. */
  function Trim(c: CacheState): CacheState {
    if |c.keys| > MaxEntries then DropOldest(c, EvictionCount(|c.keys|, MaxEntries)) else c
  }

  /** `Math.floor(keys.length * 0.3)`, on integers. */
  function PurgeCount(count: nat): nat {
    (3 * count) / 10
  }

  /** `performance.memory && performance.memory.usedJSHeapSize > 50000000`; `None` when the
      platform has no `performance.memory`. */
  function MemoryPressure(usedHeap: Option<nat>): bool {
    usedHeap.Some? && usedHeap.value > MemoryPressureThreshold
  }

  /** The body of the periodic cleanup: the normal trim, then under memory pressure
      the oldest 30 % of what is left. */
  function Cleanup(c: CacheState, memoryPressure: bool): CacheState {
    var t := Trim(c);
    if memoryPressure then DropOldest(t, PurgeCount(|t.keys|)) else t
  }

  /** Every fetch resolved with an ok status. */
  predicate AllOk(outcomes: seq<FetchOutcome>) {
    forall i :: 0 <= i < |outcomes| ==> IsOkOutcome(outcomes[i])
  }

  /** `cache.add(url)` for each url in turn, the i-th fetch having outcome `outcomes[i]`:
      an ok answer is put, anything else (a rejected fetch, a non-ok status) stores nothing. */
  function AddEach(c: CacheState, urls: seq<Key>, outcomes: seq<FetchOutcome>): CacheState
    requires |urls| == |outcomes|
    decreases |urls|
  {
    if urls == [] then c
    else
      var next := if IsOkOutcome(outcomes[0]) then Put(c, urls[0], FromNetwork(outcomes[0])) else c;
      AddEach(next, urls[1..], outcomes[1..])
  }

  /** `cache.addAll(urls)`: all or nothing. `None` when it rejects because some fetch failed. */
  function AddAll(c: CacheState, urls: seq<Key>, outcomes: seq<FetchOutcome>): Option<CacheState>
    requires |urls| == |outcomes|
  {
    if AllOk(outcomes) then Some(AddEach(c, urls, outcomes)) else None
  }

  /** Every entry is a network response with an ok status. */
  ghost predicate OnlyOk(c: CacheState) {
    forall k :: k in c.entries ==> Cacheable(c.entries[k])
  }

  lemma EmptyValid()
    ensures Valid(Empty) && OnlyOk(Empty) && Count(Empty) == 0
  {
  }

  /** Putting makes the key the newest, stores the value under it, leaves every other
      key's entry and relative order alone, and grows the cache by one exactly when the key is new. */
  lemma PutSpec(c: CacheState, k: Key, v: Response)
    requires Valid(c)
    ensures Valid(Put(c, k, v))
    ensures Put(c, k, v).keys[Count(Put(c, k, v)) - 1] == k
    ensures Lookup(Put(c, k, v), k) == Some(v)
    ensures forall k' :: k' != k ==> Lookup(Put(c, k, v), k') == Lookup(c, k')
    ensures Count(Put(c, k, v)) == if k in c.entries then Count(c) + 0 else Count(c) + 1
    ensures Remove(Put(c, k, v).keys, k) == Remove(c.keys, k)
    ensures forall a, b :: a != k && b != k ==> (Before(Put(c, k, v).keys, a, b) <==> Before(c.keys, a, b))
  {
    PutOrder(c, k, v);
    RemoveDistinct(c.keys, k);
    RemoveLength(c.keys, k);
    DistinctSnoc(Remove(c.keys, k), k);
  }

  /** Putting leaves the other keys in their relative order. */
  lemma PutOrder(c: CacheState, k: Key, v: Response)
    ensures Remove(Put(c, k, v).keys, k) == Remove(c.keys, k)
    ensures forall a, b :: a != k && b != k ==> (Before(Put(c, k, v).keys, a, b) <==> Before(c.keys, a, b))
  {
    var rest := Remove(c.keys, k);
    RemoveAppend(rest, [k], k);
    RemoveAbsent(rest, k);
    assert Remove([k], k) == [] by {
      assert [k][1..] == [];
    }
    forall a, b | a != k && b != k ensures Before(rest + [k], a, b) <==> Before(c.keys, a, b) {
      BeforeSnoc(rest, k, a, b);
      RemoveBefore(c.keys, k, a, b);
    }
  }

  /** Putting an ok network response keeps the only-ok invariant. */
  lemma PutOnlyOk(c: CacheState, k: Key, v: Response)
    requires OnlyOk(c) && Cacheable(v)
    ensures OnlyOk(Put(c, k, v))
  {
  }

  /** Deleting removes exactly that key and keeps the order of the others. */
  lemma DeleteSpec(c: CacheState, k: Key)
    requires Valid(c)
    ensures Valid(Delete(c, k))
    ensures Lookup(Delete(c, k), k) == None
    ensures forall k' :: k' != k ==> Lookup(Delete(c, k), k') == Lookup(c, k')
    ensures Count(Delete(c, k)) == if k in c.entries then Count(c) - 1 else Count(c)
    ensures forall a, b :: a != k && b != k ==> (Before(Delete(c, k).keys, a, b) <==> Before(c.keys, a, b))
  {
    RemoveDistinct(c.keys, k);
    RemoveLength(c.keys, k);
    forall a, b | a != k && b != k ensures Before(Delete(c, k).keys, a, b) <==> Before(c.keys, a, b) {
      RemoveBefore(c.keys, k, a, b);
    }
  }

  /** Dropping the `n` oldest keys keeps the newest `|keys| - n` in their order and their entries,
      and nothing else. */
  lemma DropOldestSpec(c: CacheState, n: nat)
    requires Valid(c) && n <= Count(c)
    ensures Valid(DropOldest(c, n))
    ensures DropOldest(c, n).keys == c.keys[n..]
    ensures Count(DropOldest(c, n)) == Count(c) - n
    ensures forall k :: Lookup(DropOldest(c, n), k) == if k in c.keys[n..] then Lookup(c, k) else None
  {
    DistinctSuffix(c.keys, n);
    DistinctSplit(c.keys, n);
  }

  /** One turn of a deletion loop: deleting the next key of the snapshot drops one more of the oldest. */
  lemma DropOldestStep(c: CacheState, i: nat)
    requires Valid(c) && i < Count(c)
    ensures Delete(DropOldest(c, i), c.keys[i]) == DropOldest(c, i + 1)
  {
    var ks := c.keys;
    DistinctSuffix(ks, i);
    RemoveFirst(ks[i..]);
    assert ks[i..][1..] == ks[i + 1..];
    assert ks[..i + 1] == ks[..i] + [ks[i]];
  }

  /** With a limit of at least the buffer, `manageCacheSize` never asks to delete more keys than there are.
      (Below 5 it would: one key over a limit of 0 asks for 6 deletions.) */
  lemma EvictionCountBounded(count: nat, maxEntries: nat)
    requires maxEntries >= EvictionBuffer
    ensures EvictionCount(count, maxEntries) <= count
    ensures count > maxEntries ==> count - EvictionCount(count, maxEntries) == maxEntries - EvictionBuffer
  {
  }

  /** The trim: above 50 keys it deletes exactly `count - 50 + 5`, the oldest, leaving the newest 45
      in their order; at or below 50 it changes nothing. */
  lemma TrimSpec(c: CacheState)
    requires Valid(c)
    ensures Valid(Trim(c))
    ensures Count(c) <= MaxEntries ==> Trim(c) == c
    ensures Count(c) > MaxEntries ==>
      && Count(Trim(c)) == MaxEntries - EvictionBuffer
      && Count(c) - Count(Trim(c)) == Count(c) - MaxEntries + EvictionBuffer
      && Trim(c).keys == c.keys[Count(c) - (MaxEntries - EvictionBuffer)..]
    ensures Count(Trim(c)) <= MaxEntries
    ensures forall k :: Lookup(Trim(c), k) == if k in Trim(c).keys then Lookup(c, k) else None
  {
    if Count(c) > MaxEntries {
      DropOldestSpec(c, EvictionCount(Count(c), MaxEntries));
    }
  }

  /** The periodic cleanup: after the trim, memory pressure removes `floor(0.3 * n)` more of the oldest
      keys of the `n` left; without pressure it is the trim alone. Nothing else is removed. */
  lemma CleanupSpec(c: CacheState, memoryPressure: bool)
    requires Valid(c)
    ensures Valid(Cleanup(c, memoryPressure))
    ensures !memoryPressure ==> Cleanup(c, memoryPressure) == Trim(c)
    ensures memoryPressure ==>
      && Count(Cleanup(c, memoryPressure)) == Count(Trim(c)) - (3 * Count(Trim(c))) / 10
      && Cleanup(c, memoryPressure).keys == Trim(c).keys[(3 * Count(Trim(c))) / 10..]
    ensures Count(Cleanup(c, memoryPressure)) <= MaxEntries
    ensures forall k :: Lookup(Cleanup(c, memoryPressure), k) ==
                        if k in Cleanup(c, memoryPressure).keys then Lookup(c, k) else None
  {
    TrimSpec(c);
    if memoryPressure {
      DropOldestSpec(Trim(c), PurgeCount(Count(Trim(c))));
    }
  }

  /** Removing entries keeps the only-ok invariant. */
  lemma CleanupOnlyOk(c: CacheState, memoryPressure: bool)
    requires OnlyOk(c)
    ensures OnlyOk(Trim(c)) && OnlyOk(Cleanup(c, memoryPressure))
  {
  }

  /** Some fetch for `k` among `urls` was ok. */
  ghost predicate FetchedOk(urls: seq<Key>, outcomes: seq<FetchOutcome>, k: Key)
    requires |urls| == |outcomes|
  {
    exists i :: 0 <= i < |urls| && urls[i] == k && IsOkOutcome(outcomes[i])
  }

  /** Adding each url keeps the cache valid and only-ok, and afterwards a key has an entry exactly when
      it had one before or one of its fetches was ok. When the urls are distinct, each holds the answer
      of its own fetch when that was ok, and its old entry otherwise. */
  lemma {:induction false} AddEachSpec(c: CacheState, urls: seq<Key>, outcomes: seq<FetchOutcome>)
    requires Valid(c) && |urls| == |outcomes|
    ensures Valid(AddEach(c, urls, outcomes))
    ensures OnlyOk(c) ==> OnlyOk(AddEach(c, urls, outcomes))
    ensures forall k :: k in AddEach(c, urls, outcomes).entries <==> k in c.entries || FetchedOk(urls, outcomes, k)
    ensures Distinct(urls) ==> forall i :: 0 <= i < |urls| ==>
      Lookup(AddEach(c, urls, outcomes), urls[i]) ==
        if IsOkOutcome(outcomes[i]) then Some(FromNetwork(outcomes[i])) else Lookup(c, urls[i])
    decreases |urls|
  {
    if Distinct(urls) {
      AddEachStores(c, urls, outcomes);
    }
    if urls != [] {
      var next := if IsOkOutcome(outcomes[0]) then Put(c, urls[0], FromNetwork(outcomes[0])) else c;
      if IsOkOutcome(outcomes[0]) {
        PutSpec(c, urls[0], FromNetwork(outcomes[0]));
      }
      AddEachSpec(next, urls[1..], outcomes[1..]);
      forall k ensures FetchedOk(urls, outcomes, k) <==>
                       (urls[0] == k && IsOkOutcome(outcomes[0])) || FetchedOk(urls[1..], outcomes[1..], k)
      {
        if FetchedOk(urls, outcomes, k) {
          var i :| 0 <= i < |urls| && urls[i] == k && IsOkOutcome(outcomes[i]);
          if i > 0 {
            assert urls[1..][i - 1] == k && IsOkOutcome(outcomes[1..][i - 1]);
          }
        }
        if FetchedOk(urls[1..], outcomes[1..], k) {
          var i :| 0 <= i < |urls[1..]| && urls[1..][i] == k && IsOkOutcome(outcomes[1..][i]);
          assert urls[i + 1] == k && IsOkOutcome(outcomes[i + 1]);
        }
      }
    }
  }

  /** For distinct urls, each holds the answer of its own fetch when that was ok, and its old entry
      otherwise. */
  lemma {:induction false} AddEachStores(c: CacheState, urls: seq<Key>, outcomes: seq<FetchOutcome>)
    requires Distinct(urls) && |urls| == |outcomes|
    ensures forall i :: 0 <= i < |urls| ==>
      Lookup(AddEach(c, urls, outcomes), urls[i]) ==
        if IsOkOutcome(outcomes[i]) then Some(FromNetwork(outcomes[i])) else Lookup(c, urls[i])
    decreases |urls|
  {
    if urls != [] {
      var next := if IsOkOutcome(outcomes[0]) then Put(c, urls[0], FromNetwork(outcomes[0])) else c;
      DistinctSuffix(urls, 1);
      AddEachStores(next, urls[1..], outcomes[1..]);
      forall j | 0 <= j < |urls[1..]| ensures urls[1..][j] != urls[0] {
        assert urls[1..][j] == urls[j + 1];
      }
      AddEachOutside(next, urls[1..], outcomes[1..], urls[0]);
      forall i | 0 < i < |urls|
        ensures Lookup(AddEach(c, urls, outcomes), urls[i]) ==
          if IsOkOutcome(outcomes[i]) then Some(FromNetwork(outcomes[i])) else Lookup(c, urls[i])
      {
        assert urls[1..][i - 1] == urls[i] && outcomes[1..][i - 1] == outcomes[i];
        assert urls[i] != urls[0];
      }
    }
  }

  /** The install step on a cache: `cache.addAll(urls)`, and when it rejects, `cache.add` of each url
      on its own with the outcomes of that second round of fetches. */
  function AddAllOrEach(c: CacheState, urls: seq<Key>, first: seq<FetchOutcome>, retry: seq<FetchOutcome>): CacheState
    requires |first| == |urls| && |retry| == |urls|
  {
    match AddAll(c, urls, first)
    case Some(all) => all
    case None => AddEach(c, urls, retry)
  }

  /** What the install step leaves: when every first fetch is ok, every url; otherwise exactly what
      the cache held plus the urls whose own retry was ok. Only ok answers are stored, and for distinct
      urls each holds the answer of the round that stored it. */
  lemma AddAllOrEachSpec(c: CacheState, urls: seq<Key>, first: seq<FetchOutcome>, retry: seq<FetchOutcome>)
    requires Valid(c) && |first| == |urls| && |retry| == |urls|
    ensures Valid(AddAllOrEach(c, urls, first, retry))
    ensures OnlyOk(c) ==> OnlyOk(AddAllOrEach(c, urls, first, retry))
    ensures AllOk(first) ==>
      forall k :: k in AddAllOrEach(c, urls, first, retry).entries <==> k in c.entries || k in urls
    ensures !AllOk(first) ==>
      forall k :: k in AddAllOrEach(c, urls, first, retry).entries <==> k in c.entries || FetchedOk(urls, retry, k)
    ensures Distinct(urls) && AllOk(first) ==> forall i :: 0 <= i < |urls| ==>
      Lookup(AddAllOrEach(c, urls, first, retry), urls[i]) == Some(FromNetwork(first[i]))
    ensures Distinct(urls) && !AllOk(first) ==> forall i :: 0 <= i < |urls| ==>
      Lookup(AddAllOrEach(c, urls, first, retry), urls[i]) ==
        if IsOkOutcome(retry[i]) then Some(FromNetwork(retry[i])) else Lookup(c, urls[i])
  {
    if AllOk(first) {
      AddEachSpec(c, urls, first);
      forall k ensures FetchedOk(urls, first, k) <==> k in urls {
        if k in urls {
          var i :| 0 <= i < |urls| && urls[i] == k;
          assert IsOkOutcome(first[i]);
        }
      }
    } else {
      AddEachSpec(c, urls, retry);
    }
  }

  /** When `addAll` rejects and exactly one url fails again on its own, an empty cache ends up with
      every url but that one. */
  lemma AddAllOrEachOneFails(urls: seq<Key>, first: seq<FetchOutcome>, retry: seq<FetchOutcome>, j: nat)
    requires Distinct(urls) && |first| == |urls| && |retry| == |urls| && j < |urls| && !AllOk(first)
    requires !IsOkOutcome(retry[j]) && forall i :: 0 <= i < |urls| && i != j ==> IsOkOutcome(retry[i])
    ensures AddAllOrEach(Empty, urls, first, retry).entries.Keys == (set u | u in urls) - {urls[j]}
    ensures Count(AddAllOrEach(Empty, urls, first, retry)) == |urls| - 1
  {
    var s := AddAllOrEach(Empty, urls, first, retry);
    EmptyValid();
    AddAllOrEachSpec(Empty, urls, first, retry);
    forall k ensures FetchedOk(urls, retry, k) <==> k in urls && k != urls[j] {
      if k in urls && k != urls[j] {
        var i :| 0 <= i < |urls| && urls[i] == k;
      }
    }
    assert s.entries.Keys == (set u | u in urls) - {urls[j]};
    DistinctCard(s.keys);
    DistinctCard(urls);
  }

  /** Adding urls leaves the entry of every other key as it was. */
  lemma {:induction false} AddEachOutside(c: CacheState, urls: seq<Key>, outcomes: seq<FetchOutcome>, k: Key)
    requires |urls| == |outcomes| && k !in urls
    ensures Lookup(AddEach(c, urls, outcomes), k) == Lookup(c, k)
    decreases |urls|
  {
    if urls != [] {
      var next := if IsOkOutcome(outcomes[0]) then Put(c, urls[0], FromNetwork(outcomes[0])) else c;
      assert Lookup(next, k) == Lookup(c, k);
      assert k !in urls[1..];
      AddEachOutside(next, urls[1..], outcomes[1..], k);
    }
  }

  /** The install step leaves the entry of every key that is not one of its urls as it was. */
  lemma AddAllOrEachOutside(c: CacheState, urls: seq<Key>, first: seq<FetchOutcome>, retry: seq<FetchOutcome>, k: Key)
    requires |first| == |urls| && |retry| == |urls| && k !in urls
    ensures Lookup(AddAllOrEach(c, urls, first, retry), k) == Lookup(c, k)
  {
    AddEachOutside(c, urls, first, k);
    AddEachOutside(c, urls, retry, k);
  }
}
