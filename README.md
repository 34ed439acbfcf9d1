# Service worker of the iOS accident-management PWA, modelled in Dafny

The worker in `service-worker.js` sits between the app and the network. For each request it decides
whether to leave it to the browser or to answer it with one of four strategies:

- **static:** cache first, from the static cache;
- **API:** network first, falling back to the dynamic cache;
- **navigation:** network first, falling back to a cached index page or a generated offline page;
- **dynamic:** network first, writing to a dynamic cache that has a size limit.

It also keeps its named caches:

- install seeds the static cache;
- activate deletes the caches of older versions;
- a periodic cleanup trims the dynamic cache, and trims it harder under memory pressure;
- a message protocol clears the caches, reports their sizes and triggers a sync.

The model has these modules:

- `Routing` (routing.dfy): the early returns and the three classifiers of the fetch listener, as predicates on a request record, and the routing decision.
- `CacheModel` (cache_model.dfy): one cache's contents as a value — the keys in insertion order plus a key-to-response map. It also holds `put`, `delete`, the trim of `manageCacheSize`, the periodic cleanup, `add`/`addAll`, and what is proved about them.
- `Caches` (caches.dfy): the same cache as a `class` whose methods change it in place. `ManageCacheSize` and `PeriodicCleanup` keep the source's index loops of deletions. Each method is proved against the `CacheModel` function of its old contents.
- `Strategies` (strategies.dfy): the four strategies and the background refresh, as functions from the contents of a cache and the outcome of one `fetch` (a status and body, or `Throws`) to a response and new contents. It also holds the fetch listener as written (`HandleFetch`), and corrected versions of the static and API strategies (see "## Findings").
- `Lifecycle` (lifecycle.dfy): the cache names, and `caches` as a `CacheStorage` class mapping names to `Cache` objects. It holds install, activate, the deletions of `CLEAR_CACHE`, `getCacheStatus` and the periodic cleanup.
- `Control` (control.dfy): the message switch, the sync-tag routing, and the message types the syncs broadcast.
- `Responses` (responses.dfy) holds the responses the worker builds. `Seqs`, `Strings` and `Wrappers` are helpers.

Some consequences of the code that the model makes explicit:

- The message types of the forced sync and the status query are `IOS_FORCE_SYNC` and `IOS_CACHE_STATUS`.
- `manageCacheSize` runs before a dynamic write and tests `keys.length > 50`. So a dynamic cache filled from empty first evicts on the 52nd distinct key. It removes 6 keys there and is left with 46 (`Strategies.DynamicWriteBound`).
- The API handler writes to the dynamic cache without trimming it. So only dynamic-handler writes are bounded (`Strategies.ApiWritesUnbounded`).

Cache keys are URLs written the way the worker writes the strings it hands to `cache.add` and `cache.match`: relative to the worker's origin for a same-origin URL (`/unfall-management-ios/`), in full for another origin. The Cache API resolves those strings against the origin, so a request's `url` is written in the same form.

Two rules of the Cache API are part of the model:

- `cache.match(request)` finds nothing for a request whose method is not GET.
- `cache.put(request, …)` rejects such a request.

These two rules are behind the findings below.

## Model

| member | source | states |
|---|---|---|
| Routing.RouteCharacterization | service-worker.js:123-144 | each of the five outcomes (not intercepted, static, API, navigation, dynamic) holds exactly when a condition on the request's own fields holds; first match wins |
| Routing.ApiPrefixSubsumed | service-worker.js:372-373 | a path starting with `/api/` contains `api`, so the prefix test adds nothing |
| Routing.AppRootIsStatic | service-worker.js:366 | any intercepted request whose path contains `/unfall-management-ios/` goes to the static handler, whatever its method |
| Routing.MissingAcceptNotIntercepted | service-worker.js:377-381 | a GET that is not static, not API and not a navigation, and has no Accept header, makes `isNavigationRequest` throw and is not intercepted |
| Routing.LateHandlersOnlySeeGet | service-worker.js:138-144 | every request the navigation or dynamic handler sees is a GET whose path does not contain `api` |
| Routing.NotStaticWithoutMarker | service-worker.js:364-368 | a path shorter than every seed entry and without a dot is not static |
| CacheModel.PutSpec | service-worker.js:306 | `put` stores the value under the key and makes the key the newest; every other key keeps its entry and its order relative to the others; the count grows by one exactly when the key is new |
| CacheModel.PutOrder | service-worker.js:306 | after `put`, the keys other than the one put are in the same relative order as before |
| CacheModel.PutOnlyOk | service-worker.js:303-307 | putting an ok network answer keeps a cache that holds only ok answers so |
| CacheModel.DeleteSpec | service-worker.js:353 | `delete` removes the key's entry, leaves every other entry alone and in its relative order, and shrinks the count by one exactly when the key was present |
| CacheModel.DropOldestSpec | service-worker.js:352-354 | deleting the `n` oldest keys leaves the keys after them in their order, `n` fewer, and the entries of exactly those keys |
| CacheModel.DropOldestStep | service-worker.js:352-354 | one more turn of the deletion loop (deleting `keys[i]`) extends the first `i` deletions to `i + 1` |
| CacheModel.EvictionCountBounded | service-worker.js:348-350 | with at least 5 allowed entries, the eviction count never exceeds the count, and above the limit it leaves exactly `maxEntries - 5` keys |
| CacheModel.TrimSpec | service-worker.js:344-361 | at or below 50 keys the trim changes nothing; above, it drops the `count - 50 + 5` oldest, keeps the survivors' order and entries, and leaves at most 50 |
| CacheModel.CleanupSpec | service-worker.js:583-595 | the cleanup is the trim, then under memory pressure also drops the oldest `(3 * n) / 10` of the `n` keys left; nothing else is removed and at most 50 keys remain |
| CacheModel.CleanupOnlyOk | service-worker.js:583-595 | the trim and the cleanup keep a cache that holds only ok answers so |
| CacheModel.AddEachSpec | service-worker.js:44-46 | adding each URL on its own stores exactly the URLs whose fetch was ok, next to the old keys; for distinct URLs each holds its own ok answer, or its old entry when its fetch was not ok |
| CacheModel.AddEachStores | service-worker.js:44-46 | for distinct URLs, each ends up with the answer of its own fetch when that was ok, and with its old entry otherwise |
| CacheModel.AddAllOrEachSpec | service-worker.js:39-47 | install's seeding stores every URL when every `addAll` fetch was ok, each with its own answer; otherwise it stores exactly the URLs whose own retry was ok, each with its retry's answer, and the others keep their old entry |
| CacheModel.AddAllOrEachOneFails | service-worker.js:41-47 | when `addAll` rejects and one URL's retry fails, the empty cache ends up with all the other URLs and only them |
| CacheModel.AddEachOutside | service-worker.js:44-46 | adding a list of URLs leaves the entry of any key outside the list unchanged |
| CacheModel.AddAllOrEachOutside | service-worker.js:39-47 | seeding leaves the entry of any key outside the seed list unchanged |
| Caches.Cache.Match | service-worker.js:151 | finds an entry exactly when the key is in the cache, and it is that key's entry, which is `CacheModel.Lookup` of the contents |
| Caches.Cache.Keys | service-worker.js:346 | returns the keys, oldest first |
| Caches.Cache.Put | service-worker.js:306 | the new contents are `CacheModel.Put` of the old ones |
| Caches.Cache.Delete | service-worker.js:353 | the result says whether the key was present; the new contents are `CacheModel.Delete` of the old |
| Caches.Cache.DeleteOldest | service-worker.js:352-354 | the index loop of deletions over a snapshot of the keys leaves `DropOldest` of the old contents |
| Caches.Cache.ManageCacheSize | service-worker.js:344-361 | the new contents are `Trim` of the old |
| Caches.Cache.PeriodicCleanup | service-worker.js:583-595 | the new contents are `Cleanup` of the old, under the pressure the heap reading gives |
| Caches.Cache.AddEach | service-worker.js:44-46 | the loop of `add` calls leaves `CacheModel.AddEach` of the old contents |
| Caches.Cache.AddAll | service-worker.js:41 | stores all the URLs when every fetch was ok, and reports that; otherwise it changes nothing |
| Caches.Cache.AddAllOrEach | service-worker.js:41-47 | `addAll` and, when it rejects, `add` of each URL leave `CacheModel.AddAllOrEach` of the old contents |
| Strategies.StaticHit | service-worker.js:150-160 | on a static hit the handler as written returns the cached response unchanged, leaves the cache untouched and starts a background refresh; the network outcome plays no part |
| Strategies.BackgroundRefreshSpec | service-worker.js:331-341 | an ok refresh overwrites only the hit's key and keeps the count; a failed or non-ok refresh leaves the cache unchanged |
| Strategies.OnlyOkAnswersStored | service-worker.js:164-172 | in the handlers as written, a non-ok answer is handed to the page and leaves every cache unchanged; an ok answer to a GET is stored under its URL by the static, API and dynamic handlers |
| Strategies.StrategiesKeepOnlyOk | service-worker.js:148-341 | every strategy, as written and corrected, the refresh and the fetch listener keep caches that hold only ok network answers so |
| Strategies.FallbacksOnThrow | service-worker.js:174-327 | on a rejected fetch, as written: API gives the cached copy or a 503 JSON `Offline`; dynamic gives the cached copy or a 503 "Content not available offline" typed `text/plain;charset=UTF-8`; navigation gives `/index.html`, else `/`, else a 200 HTML page; a static miss gives a 503 `text/plain` "Asset not available offline"; the static, API and dynamic handlers leave their cache as it was |
| Strategies.DynamicWriteBound | service-worker.js:303-307 | a non-ok answer leaves the cache alone, so a cache of at most 51 keys stays so; an ok write leaves at most 51 keys for every cache, including one the API handler grew past the limit, and at most 46 when the old count was above 50; the write that adds a new key at 50 keys leaves 51, and at 51 keys leaves 46 |
| Strategies.ApiWritesUnbounded | service-worker.js:197-201 | in the API handler as written, an ok answer for a new GET key always adds a key, whatever the count |
| Strategies.HandleFetchFrame | service-worker.js:135-144 | in the listener as written, a request that is not intercepted is passed through; a request touches only the cache of the handler it is routed to; navigation touches none |
| Strategies.OkAnswerReachesPage | service-worker.js:164-203 | in the corrected strategies every ok network answer of an API call or a static miss reaches the page |
| Strategies.CorrectionOnlyAffectsNonGet | service-worker.js:148-225 | for every GET the corrected static and API strategies agree with the code as written |
| Strategies.ApiNonGetSuccessReportedOffline | service-worker.js:197-224 | as written, a successful non-GET request routed to the API handler reaches the page as the 503 offline answer; corrected, it gets the network's answer |
| Strategies.ReportsPostRoutedToApi | service-worker.js:136-139 | a POST to `https:` `/reports` without a query is intercepted, not static and not a GET, so it is routed to the API handler |
| Strategies.StaticPostSuccessReportedUnavailable | service-worker.js:164-181 | as written, a POST under the app root answered 200 reaches the page as the 503 "Asset not available offline"; corrected, it gets the 200 |
| Lifecycle.Opened | service-worker.js:39 | after `caches.open(name)` the name is listed, the other names stay, and no name repeats |
| Lifecycle.Deleted | service-worker.js:530 | after `caches.delete(name)` the name is gone from the list unless the deletion rejected, and every other name stays |
| Lifecycle.StaticAssetsDistinct | service-worker.js:7-12 | the seed list has no repetitions |
| Lifecycle.SeedPartial | service-worker.js:39-47 | when `addAll` rejects and only `index.html` fails on the retry, the static cache ends up with the other three seed URLs |
| Lifecycle.SeedMissesNavigationFallback | service-worker.js:237-238 | neither `/index.html` nor `/` is a seed URL, so after seeding an empty static cache an offline navigation always gets the generated page |
| Lifecycle.CacheStorage.Keys | service-worker.js:72 | returns the cache names in creation order |
| Lifecycle.CacheStorage.Open | service-worker.js:39 | returns the named cache, creating an empty one listed last if there was none; no cache's contents change |
| Lifecycle.CacheStorage.DeleteCache | service-worker.js:79 | reports whether the name existed, and removes exactly that name and its cache |
| Lifecycle.CacheStorage.Activate | service-worker.js:72-82 | the remaining names are the old names that are current, in their order; the current caches are the same objects as before |
| Lifecycle.CacheStorage.DeleteAllExcept | service-worker.js:72-82 | the loop over a snapshot of the names deletes every name the filter rejects and keeps the rest, in order |
| Lifecycle.CacheStorage.DeleteUnlessKept | service-worker.js:75-80 | one turn of that loop: the name's cache is deleted exactly when the filter rejects it |
| Lifecycle.CacheStorage.ClearCache | service-worker.js:528-536 | each of the three current caches is deleted, and its name removed from the list with the others kept in order, unless its deletion rejects; the reply goes out exactly when none rejects |
| Lifecycle.CacheStorage.DeleteAll3 | service-worker.js:529-533 | deletes each of three names, cache and listing, unless its deletion rejects, resolving exactly when no deletion rejects |
| Lifecycle.CacheStorage.DeleteUnlessRejected | service-worker.js:530 | deletes one name, its cache and its listing, unless its deletion rejects |
| Lifecycle.CacheStorage.Install | service-worker.js:37-54 | opens the static and then the dynamic cache; the static cache's contents become the seeding of its old contents; no other cache changes |
| Lifecycle.CacheStorage.OpenAndAdd | service-worker.js:39-47 | opens one named cache and seeds it; nothing else changes |
| Lifecycle.CacheStorage.AddToCache | service-worker.js:41-47 | seeds one existing cache; nothing else changes |
| Lifecycle.CacheStorage.CacheStatusOf | service-worker.js:554-571 | the static and dynamic counts are the caches' sizes, the total is their sum and `maxEntries` is 50; the two caches are opened and no contents change |
| Lifecycle.CacheStorage.PeriodicCleanup | service-worker.js:583-595 | opens the dynamic cache, and its contents become `Cleanup` of the old; no other cache changes |
| Lifecycle.CacheStorage.CleanupCache | service-worker.js:584-595 | cleans one existing cache; nothing else changes |
| Control.ParseCommandInverse | service-worker.js:516-550 | the switch and the message types are inverse: each known command's type selects it, and a type that selects a command is that command's type |
| Control.SyncRouting | service-worker.js:387-391 | each sync tag selects its sync and only its own, and the two syncs broadcast different completion messages |
| Control.HandleMessage | service-worker.js:516-550 | `SKIP_WAITING` asks to skip waiting; `GET_VERSION` replies `CACHE_NAME`; `CLEAR_CACHE` deletes the three caches, names and objects, and replies success exactly when no deletion rejects; `IOS_FORCE_SYNC` runs the data sync; `IOS_CACHE_STATUS` replies with the counts; replies need a port; other types do nothing |
| Seqs.Filter | service-worker.js:74-81 | the filtered list holds exactly the kept elements of the list and is no longer than it |
| Routing.Route | service-worker.js:123-144 | the fetch listener's decision; its behaviour is stated by `Routing.RouteCharacterization` |
| Routing.IsExcluded | service-worker.js:124-133 | the early returns; `Routing.RouteCharacterization` states that exactly these requests, and the GETs without Accept header that fall through to navigation, are not intercepted |
| Routing.IsStaticAsset | service-worker.js:364-368 | `isStaticAsset`; `Routing.AppRootIsStatic` and `Routing.NotStaticWithoutMarker` state what it accepts and rejects |
| Routing.IsApiRequest | service-worker.js:370-375 | `isAPIRequest`; `Routing.ApiPrefixSubsumed` and `Routing.RouteCharacterization` state it as "path contains `api` or method is not GET" |
| Routing.IsNavigationRequest | service-worker.js:377-381 | `isNavigationRequest`, with its throw; `Routing.MissingAcceptNotIntercepted` and `Routing.RouteCharacterization` state its effect |
| Strategies.StaticAsWritten | service-worker.js:148-182 | `handleStaticAsset` as written; `Strategies.StaticHit`, `Strategies.OnlyOkAnswersStored`, `Strategies.FallbacksOnThrow` and `Strategies.StaticPostSuccessReportedUnavailable` state its behaviour |
| Strategies.ApiAsWritten | service-worker.js:185-225 | `handleAPIRequest` as written; `Strategies.OnlyOkAnswersStored`, `Strategies.FallbacksOnThrow`, `Strategies.ApiWritesUnbounded` and `Strategies.ApiNonGetSuccessReportedOffline` state its behaviour |
| Strategies.StaticStrategy | service-worker.js:148-182 | the corrected static handler; `Strategies.OkAnswerReachesPage` and `Strategies.CorrectionOnlyAffectsNonGet` state its behaviour |
| Strategies.ApiStrategy | service-worker.js:185-225 | the corrected API handler; `Strategies.OkAnswerReachesPage` and `Strategies.CorrectionOnlyAffectsNonGet` state its behaviour |
| Strategies.NavigationStrategy | service-worker.js:228-292 | `handleNavigationRequest`; `Strategies.FallbacksOnThrow` and `Lifecycle.SeedMissesNavigationFallback` state its behaviour |
| Strategies.DynamicStrategy | service-worker.js:295-328 | `handleDynamicRequest`; `Strategies.OnlyOkAnswersStored`, `Strategies.FallbacksOnThrow` and `Strategies.DynamicWriteBound` state its behaviour |
| Strategies.BackgroundRefresh | service-worker.js:331-341 | `updateCacheInBackground`; `Strategies.BackgroundRefreshSpec` states its behaviour |
| Strategies.HandleFetch | service-worker.js:119-145 | the fetch listener as written; `Strategies.HandleFetchFrame` and `Strategies.StrategiesKeepOnlyOk` state its behaviour |
| Strategies.MatchRequest | service-worker.js:151 | `cache.match(request)`, GET only (also :210, :313); `Strategies.CacheApiGetOnly` states its behaviour |
| Strategies.PutRequest | service-worker.js:169 | `cache.put(request, …)`, which rejects a non-GET (also :200, :306); `Strategies.CacheApiGetOnly` states its behaviour |
| Strategies.CacheApiGetOnly | service-worker.js:151 | a request's `match` finds something exactly for a GET whose URL is cached, and then it is that entry; its `put` succeeds exactly for a GET, and then it is the cache's put of that URL |
| Strategies.ApiFallback | service-worker.js:205-223 | the API handler's catch block; `Strategies.FallbacksOnThrow` and `Strategies.ApiNonGetSuccessReportedOffline` state its behaviour |
| CacheModel.DropOldest | service-worker.js:352-354 | the deletion loop over the oldest keys (also :592-594); `CacheModel.DropOldestSpec` and `Caches.Cache.DeleteOldest` state its behaviour |
| CacheModel.EvictionCount | service-worker.js:350 | `entriesToDelete`; `CacheModel.EvictionCountBounded` and `CacheModel.TrimSpec` state its behaviour |
| CacheModel.PurgeCount | service-worker.js:590 | `Math.floor(keys.length * 0.3)`; `CacheModel.CleanupSpec` states its behaviour |
| CacheModel.MemoryPressure | service-worker.js:587 | the memory-pressure test, false without `performance.memory`; `Caches.Cache.PeriodicCleanup` and `Lifecycle.CacheStorage.PeriodicCleanup` state its effect |
| Lifecycle.IsCurrent | service-worker.js:75-77 | the three names activate keeps; `Lifecycle.CacheStorage.Activate` states its effect |
| Control.CompletionMessage | service-worker.js:405 | the message type each sync broadcasts (also :425); `Control.SyncRouting` states that the two differ |
| CacheModel.Put | service-worker.js:306 | `cache.put`; `CacheModel.PutSpec` and `CacheModel.PutOrder` state its behaviour |
| CacheModel.Delete | service-worker.js:353 | `cache.delete`; `CacheModel.DeleteSpec` states its behaviour |
| CacheModel.Trim | service-worker.js:344-361 | `manageCacheSize`; `CacheModel.TrimSpec` states its behaviour |
| CacheModel.Cleanup | service-worker.js:583-595 | the periodic cleanup's body; `CacheModel.CleanupSpec` states its behaviour |
| CacheModel.AddEach | service-worker.js:44-46 | `cache.add` of each URL; `CacheModel.AddEachSpec`, `CacheModel.AddEachStores` and `CacheModel.AddEachOutside` state its behaviour |
| CacheModel.AddAll | service-worker.js:41 | `cache.addAll`, all or nothing; `Caches.Cache.AddAll` states its behaviour |
| CacheModel.AddAllOrEach | service-worker.js:39-47 | install's seeding; `CacheModel.AddAllOrEachSpec`, `CacheModel.AddAllOrEachOneFails` and `CacheModel.AddAllOrEachOutside` state its behaviour |
| Control.ParseCommand | service-worker.js:516-550 | the message switch; `Control.ParseCommandInverse` states its behaviour |
| Control.SyncForTag | service-worker.js:387-391 | the `sync` listener's choice of sync; `Control.SyncRouting` states its behaviour |
| Control.HandleSync | service-worker.js:387-391 | the `sync` listener: the selected sync broadcasts its completion message; `Control.SyncRouting` states that the two messages differ |

## Left out

- Push and notification-click handlers and the offline page's markup: `OfflinePage` stands for the generated 200 `text/html` page; `Responses.BodyOf` gives it the stand-in body `<!DOCTYPE html>`, the page's first tag, in place of its markup.
- URL parsing: `protocol`, `pathname` and `search` are given strings next to `url`, which is the cache key.
- URL resolution: the Cache API resolves a relative URL against the worker's origin. The model does not resolve anything: every key and every request `url` is written relative to that origin when it is on it, and in full otherwise. A request whose `url` is written in the other form would miss an entry the browser would find.
- Real request matching: `Vary`, query handling and accept-based matching are not modelled. A GET's cache key is its URL.
- Response cloning and bodies: a network answer is its status and a body string.
- `AbortController` and timers: the 8-second abort of the API fetch is a `Throws` outcome, as is any rejected fetch.
- `initializeIOSFeatures`, `skipWaiting`, `clients.claim` and the `visibilitychange` listener are platform calls. `SKIP_WAITING` only produces a `SkipWaitingRequested` effect.
- The `clients.matchAll`/`postMessage` broadcasts of the syncs: only the message type each sync broadcasts is modelled (`Control.HandleSync`).
- Concurrency: these run one after the other, in list order: the install's two opens, the retry's parallel `cache.add` calls (`Promise.allSettled`), activate's and `CLEAR_CACHE`'s parallel deletions, `getCacheStatus`'s two parallel opens, and overlapping fetch handlers.
- Caches.Cache.AddEach: the retry's keys are added in list order. In the browser they end up in the order the fetches complete.
- Fire-and-forget scheduling: the background refresh is a separate step after the static hit.
- Timing: the `setInterval` period of the cleanup is not modelled.
- Floating point: `performance.memory.usedJSHeapSize` is an optional natural number. `Math.floor(keys.length * 0.3)` is the integer `(3 * n) / 10`.
- Console logging, and the `error` and `unhandledrejection` listeners.
- Cache API failures: only `CLEAR_CACHE`'s deletions may reject (the `rejected` set). Every other `open`, `match`, `put`, `delete` and `keys` call of a GET succeeds. So the catch blocks of `manageCacheSize`, of the cleanup and of `getCacheStatus`, with its `{error}` reply, are not reached.
- Install's outer `Promise.all`, `then` and `catch`: the model does not say whether install as a whole resolves.
- `dynamicAssets` is declared and never used by the worker (`Routing.DynamicAssets` is kept for the record).
- `maxAge` and `cleanupInterval` of `iOSOptimizations` are never consulted for eviction, so they are not modelled.

## Findings

| source | as written | input that shows it | evidently intended | confidence | as-written member | corrected member |
|---|---|---|---|---|---|---|
| service-worker.js:197-224 | an ok answer is always `put` into the dynamic cache; for a non-GET request the put rejects, the catch block's `cache.match` finds nothing, and the page gets the 503 JSON `Offline` answer | a POST to `https://host/reports` that the server answers 200 | the page gets the server's 200 answer; a non-GET answer is simply not cached | not executed | Strategies.ApiNonGetSuccessReportedOffline | Strategies.OkAnswerReachesPage |
| service-worker.js:164-181 | a POST whose path contains `/unfall-management-ios/` is routed to the static handler; on an ok answer the put rejects and the catch block returns 503 "Asset not available offline" | a POST to `/unfall-management-ios/` answered 200 with an empty static cache | the page gets the 200 answer; nothing is cached | not executed | Strategies.StaticPostSuccessReportedUnavailable | Strategies.OkAnswerReachesPage |

`Strategies.ApiAsWritten` and `Strategies.StaticAsWritten` model the code as written. The fetch listener `Strategies.HandleFetch` and the lemmas about it use them. `Strategies.ApiStrategy` and `Strategies.StaticStrategy` are the corrected versions, which leave out a put the Cache API would reject. `Strategies.OkAnswerReachesPage` proves the intended property of the corrected versions. `Strategies.CorrectionOnlyAffectsNonGet` proves that they agree with the code on every GET.
