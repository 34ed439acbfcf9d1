/** The worker's named caches (`caches`, the `CacheStorage`) and the lifecycle steps that act on
    them: install seeds the static cache, activate deletes every cache of an older version, and
    the message handler's `CLEAR_CACHE`, `IOS_CACHE_STATUS` and the periodic cleanup reach the
    caches through it. */
module Lifecycle {
  import opened Wrappers
  import opened Seqs
  import opened Responses
  import opened CacheModel
  import opened Caches
  import opened Routing
  import opened Strategies

  /** `CACHE_NAME`, the worker's version string. */
  const CacheName: string := "unfall-manager-ios-v1.2.0"
  /** `STATIC_CACHE`. */
  const StaticCacheName: string := "static-v1.2.0"
  /** `DYNAMIC_CACHE`. */
  const DynamicCacheName: string := "dynamic-v1.2.0"

  /** A name activate keeps. */
  predicate IsCurrent(name: string) {
    name == StaticCacheName || name == DynamicCacheName || name == CacheName
  }

  const CurrentNames: set<string> := {StaticCacheName, DynamicCacheName, CacheName}

  /** The list of names after `caches.open(name)`: a new name is added last. */
  function Opened(names: seq<string>, name: string): (r: seq<string>)
    ensures name in r && forall n :: n in r <==> n in names || n == name
    ensures Distinct(names) ==> Distinct(r)
  {
    if name in names then names else names + [name]
  }

  /** The list of names after `caches.delete(name)`, which rejects and changes nothing when `name`
      is in `rejected`; the other names keep their order. */
  function Deleted(names: seq<string>, name: string, rejected: set<string>): (r: seq<string>)
    ensures forall n :: n in r <==> n in names && (n != name || name in rejected)
  {
    if name in rejected then names else Remove(names, name)
  }

  /** Three deletions that may each be rejected remove the names of the three that are not. */
  lemma MapMinusThree<V>(m: map<string, V>, a: string, b: string, c: string, rejected: set<string>)
    ensures m - ({a} - rejected) - ({b} - rejected) - ({c} - rejected) == m - ({a, b, c} - rejected)
  {
  }

  /** The seed list has no repetitions. */
  lemma StaticAssetsDistinct()
    ensures Distinct(StaticAssets)
  {
  }

  /** When `addAll` rejects and on the retry only the second seed URL (`index.html`) fails, an empty
      static cache ends up with the other three and without that one. */
  lemma SeedPartial(first: seq<FetchOutcome>, retry: seq<FetchOutcome>)
    requires |first| == |StaticAssets| && !AllOk(first) && |retry| == |StaticAssets|
    requires IsOkOutcome(retry[0]) && !IsOkOutcome(retry[1]) && IsOkOutcome(retry[2]) && IsOkOutcome(retry[3])
    ensures AddAllOrEach(Empty, StaticAssets, first, retry).entries.Keys == (set u | u in StaticAssets) - {StaticAssets[1]}
    ensures Count(AddAllOrEach(Empty, StaticAssets, first, retry)) == 3
  {
    StaticAssetsDistinct();
    AddAllOrEachOneFails(StaticAssets, first, retry, 1);
  }

  /** The seed list holds neither `/index.html` nor `/`, the two keys the navigation fallback looks up:
      after installing into an empty static cache an offline navigation gets the generated page
      whatever install fetched. */
  lemma SeedMissesNavigationFallback(first: seq<FetchOutcome>, retry: seq<FetchOutcome>)
    requires |first| == |StaticAssets| && |retry| == |StaticAssets|
    ensures "/index.html" !in StaticAssets && "/" !in StaticAssets
    ensures NavigationStrategy(AddAllOrEach(Empty, StaticAssets, first, retry), Throws) == OfflinePage
  {
    AddAllOrEachOutside(Empty, StaticAssets, first, retry, "/index.html");
    AddAllOrEachOutside(Empty, StaticAssets, first, retry, "/");
  }

  /** The reply to `IOS_CACHE_STATUS`, `{static, dynamic, total, maxEntries}`. */
  datatype CacheStatus = CacheStatus(staticCount: nat, dynamicCount: nat, total: nat, maxEntries: nat)

  /** `caches`: the names in creation order (`caches.keys()`), and the cache object behind each. */
  class CacheStorage {
    var names: seq<string>
    var stores: map<string, Cache>

    /** The names are distinct and are exactly the ones with a cache; every cache is well formed;
        no two names share a cache object. */
    ghost predicate Valid()
      reads this, stores.Values
    {
      && Distinct(names)
      && stores.Keys == (set n | n in names)
      && (forall n :: n in stores ==> stores[n].Valid())
      && (forall n, m :: n in stores && m in stores && n != m ==> stores[n] != stores[m])
    }

    /** The contents of the cache called `name`, empty when there is none. */
    ghost function ContentsOf(name: string): CacheState
      reads this, stores.Values
    {
      if name in stores then stores[name].Model() else Empty
    }

    constructor ()
      ensures Valid() && names == [] && stores == map[]
    {
      names := [];
      stores := map[];
    }

    /** `caches.keys()`. */
    method Keys() returns (ns: seq<string>)
      ensures ns == names
    {
      ns := names;
    }

    /** `caches.open(name)`: the existing cache, or a new empty one added last. */
    method Open(name: string) returns (c: Cache)
      requires Valid()
      modifies this
      ensures Valid()
      ensures name in stores && c == stores[name]
      ensures names == Opened(old(names), name)
      ensures forall n :: ContentsOf(n) == old(ContentsOf(n))
      ensures name in old(stores) ==> stores == old(stores)
      ensures name !in old(stores) ==> fresh(c) && c.Model() == Empty && stores == old(stores)[name := c]
    {
      if name in stores {
        c := stores[name];
      } else {
        c := new Cache();
        names := names + [name];
        stores := stores[name := c];
      }
    }

    /** `caches.delete(name)`, resolving to whether there was such a cache. */
    method DeleteCache(name: string) returns (found: bool)
      requires Valid()
      modifies this
      ensures Valid()
      ensures found == (name in old(stores))
      ensures names == Remove(old(names), name)
      ensures stores == old(stores) - {name}
    {
      RemoveDistinct(names, name);
      found := name in stores;
      names := Remove(names, name);
      stores := stores - {name};
    }

    /** The activate step: every cache whose name is not one of the three current names is deleted. */
    method Activate()
      requires Valid()
      modifies this
      ensures Valid()
      ensures names == Filter(IsCurrent, old(names))
      ensures forall n :: n in stores <==> n in old(stores) && IsCurrent(n)
      ensures forall n :: n in stores ==> stores[n] == old(stores)[n]
    {
      DeleteAllExcept(IsCurrent);
    }

    /** The loop of activate, for any test `keep` of the names: over a snapshot of `caches.keys()`,
        each name `keep` rejects is deleted. */
    method DeleteAllExcept(keep: string -> bool)
      requires Valid()
      modifies this
      ensures Valid()
      ensures names == Filter(keep, old(names))
      ensures forall n :: n in stores <==> n in old(stores) && keep(n)
      ensures forall n :: n in stores ==> stores[n] == old(stores)[n]
    {
      var cacheNames := Keys();
      var i := 0;
      while i < |cacheNames|
        invariant 0 <= i <= |cacheNames|
        invariant Valid() && Distinct(cacheNames)
        invariant names == Filter(keep, cacheNames[..i]) + cacheNames[i..]
        invariant stores.Keys <= old(stores).Keys && forall n :: n in stores ==> stores[n] == old(stores)[n]
      {
        DeleteUnlessKept(keep, cacheNames, i);
        i := i + 1;
      }
      assert cacheNames[..i] == cacheNames && cacheNames[i..] == [];
    }

    /** One turn of that loop: delete `cacheNames[i]` unless `keep` accepts it. */
    method DeleteUnlessKept(keep: string -> bool, cacheNames: seq<string>, i: nat)
      requires Valid() && Distinct(cacheNames) && i < |cacheNames|
      requires names == Filter(keep, cacheNames[..i]) + cacheNames[i..]
      modifies this
      ensures Valid()
      ensures names == Filter(keep, cacheNames[..i + 1]) + cacheNames[i + 1..]
      ensures stores == if keep(cacheNames[i]) then old(stores) else old(stores) - {cacheNames[i]}
    {
      var name := cacheNames[i];
      if keep(name) {
        FilterKeepStep(keep, cacheNames, i);
      } else {
        FilterDropStep(keep, cacheNames, i);
        var _ := DeleteCache(name);
      }
    }

    /** `CLEAR_CACHE`: the three current caches are deleted. A deletion in `rejected` fails and leaves its
        cache; the reply is sent only when none failed. */
    method ClearCache(rejected: set<string>) returns (replied: bool)
      requires Valid()
      modifies this
      ensures Valid()
      ensures replied <==> StaticCacheName !in rejected && DynamicCacheName !in rejected && CacheName !in rejected
      ensures stores == old(stores) - (CurrentNames - rejected)
      ensures names == Deleted(Deleted(Deleted(old(names), StaticCacheName, rejected), DynamicCacheName, rejected), CacheName, rejected)
    {
      replied := DeleteAll3(StaticCacheName, DynamicCacheName, CacheName, rejected);
    }

    /** `Promise.all` of three deletions: it resolves, and the reply is sent, only when none is rejected. */
    method DeleteAll3(a: string, b: string, c: string, rejected: set<string>) returns (resolved: bool)
      requires Valid()
      modifies this
      ensures Valid()
      ensures resolved <==> a !in rejected && b !in rejected && c !in rejected
      ensures stores == old(stores) - ({a, b, c} - rejected)
      ensures names == Deleted(Deleted(Deleted(old(names), a, rejected), b, rejected), c, rejected)
    {
      ghost var before := stores;
      ghost var names0 := names;
      DeleteUnlessRejected(a, rejected);
      ghost var names1 := names;
      DeleteUnlessRejected(b, rejected);
      ghost var names2 := names;
      DeleteUnlessRejected(c, rejected);
      assert names == Deleted(names2, c, rejected) && names2 == Deleted(names1, b, rejected) && names1 == Deleted(names0, a, rejected);
      assert stores == before - ({a} - rejected) - ({b} - rejected) - ({c} - rejected);
      MapMinusThree(before, a, b, c, rejected);
      resolved := a !in rejected && b !in rejected && c !in rejected;
    }

    /** One of the deletions of `CLEAR_CACHE`; it fails, changing nothing, when `name` is in `rejected`. */
    method DeleteUnlessRejected(name: string, rejected: set<string>)
      requires Valid()
      modifies this
      ensures Valid()
      ensures stores == old(stores) - ({name} - rejected)
      ensures names == Deleted(old(names), name, rejected)
    {
      if name !in rejected {
        var _ := DeleteCache(name);
      }
    }

    /** The install step: seed the static cache (all at once, else one by one), and open the dynamic one. */
    method Install(first: seq<FetchOutcome>, retry: seq<FetchOutcome>)
      requires Valid() && |first| == |StaticAssets| && |retry| == |StaticAssets|
      modifies this, stores.Values
      ensures Valid()
      ensures names == Opened(Opened(old(names), StaticCacheName), DynamicCacheName)
      ensures ContentsOf(StaticCacheName) == AddAllOrEach(old(ContentsOf(StaticCacheName)), StaticAssets, first, retry)
      ensures forall n :: n != StaticCacheName ==> ContentsOf(n) == old(ContentsOf(n))
    {
      OpenAndAdd(StaticCacheName, StaticAssets, first, retry);
      var dynamicCache := Open(DynamicCacheName);
    }

    /** The first half of install: open the cache called `name` and add `urls` to it. */
    method OpenAndAdd(name: string, urls: seq<string>, first: seq<FetchOutcome>, retry: seq<FetchOutcome>)
      requires Valid() && |first| == |urls| && |retry| == |urls|
      modifies this, stores.Values
      ensures Valid()
      ensures names == Opened(old(names), name)
      ensures ContentsOf(name) == AddAllOrEach(old(ContentsOf(name)), urls, first, retry)
      ensures forall n :: n != name ==> ContentsOf(n) == old(ContentsOf(n))
    {
      var _ := Open(name);
      AddToCache(name, urls, first, retry);
    }

    /** `addAll`-or-`add` on the existing cache called `name`; no other cache changes. */
    method AddToCache(name: string, urls: seq<string>, first: seq<FetchOutcome>, retry: seq<FetchOutcome>)
      requires Valid() && name in stores && |first| == |urls| && |retry| == |urls|
      modifies stores[name]
      ensures Valid()
      ensures ContentsOf(name) == AddAllOrEach(old(ContentsOf(name)), urls, first, retry)
      ensures forall n :: n != name ==> ContentsOf(n) == old(ContentsOf(n))
    {
      var c := stores[name];
      assert forall n :: n in stores && n != name ==> stores[n] != c;
      c.AddAllOrEach(urls, first, retry);
    }

    /** `getCacheStatus`: the key counts of the static and the dynamic cache (each opened, so created
        when missing), their sum, and the entry limit. */
    method CacheStatusOf() returns (status: CacheStatus)
      requires Valid()
      modifies this
      ensures Valid()
      ensures status.staticCount == Count(old(ContentsOf(StaticCacheName)))
      ensures status.dynamicCount == Count(old(ContentsOf(DynamicCacheName)))
      ensures status.total == status.staticCount + status.dynamicCount
      ensures status.maxEntries == MaxEntries
      ensures names == Opened(Opened(old(names), StaticCacheName), DynamicCacheName)
      ensures forall n :: ContentsOf(n) == old(ContentsOf(n))
    {
      var staticCache := Open(StaticCacheName);
      var dynamicCache := Open(DynamicCacheName);
      var staticKeys := staticCache.Keys();
      var dynamicKeys := dynamicCache.Keys();
      status := CacheStatus(|staticKeys|, |dynamicKeys|, |staticKeys| + |dynamicKeys|, MaxEntries);
    }

    /** The periodic cleanup on the dynamic cache. */
    method PeriodicCleanup(usedHeap: Option<nat>)
      requires Valid()
      modifies this, stores.Values
      ensures Valid()
      ensures names == Opened(old(names), DynamicCacheName)
      ensures ContentsOf(DynamicCacheName) == Cleanup(old(ContentsOf(DynamicCacheName)), MemoryPressure(usedHeap))
      ensures forall n :: n != DynamicCacheName ==> ContentsOf(n) == old(ContentsOf(n))
    {
      var _ := Open(DynamicCacheName);
      CleanupCache(DynamicCacheName, usedHeap);
    }

    /** The cleanup body on the existing cache called `name`; no other cache changes. */
    method CleanupCache(name: string, usedHeap: Option<nat>)
      requires Valid() && name in stores
      modifies stores[name]
      ensures Valid()
      ensures ContentsOf(name) == Cleanup(old(ContentsOf(name)), MemoryPressure(usedHeap))
      ensures forall n :: n != name ==> ContentsOf(n) == old(ContentsOf(n))
    {
      var c := stores[name];
      assert forall n :: n in stores && n != name ==> stores[n] != c;
      c.PeriodicCleanup(usedHeap);
    }
  }
}
