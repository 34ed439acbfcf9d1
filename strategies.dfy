/** The four strategies as decision procedures: from the contents of the cache a handler reads
    and the outcome of its one `fetch`, to the response it resolves with and the contents it
    leaves behind. The background refresh after a static hit is a separate, later step.

    Two rules of the Cache API shape every strategy: `cache.match(request)` finds nothing for a
    request whose method is not GET, and `cache.put(request, …)` rejects for such a request. */
module Strategies {
  import opened Wrappers
  import opened Responses
  import opened CacheModel
  import opened Routing
  import opened Strings

  /** `cache.match(request)`. */
  function MatchRequest(c: CacheState, r: Request): Option<Response> {
    if r.verb == "GET" then Lookup(c, r.url) else None
  }

  /** `cache.put(request, v)`; `None` when the put rejects. */
  function PutRequest(c: CacheState, r: Request, v: Response): Option<CacheState> {
    if r.verb == "GET" then Some(Put(c, r.url, v)) else None
  }

  /** The Cache API's method rule: `match` finds nothing and `put` rejects for a request that is
      not a GET; for a GET they are the lookup and the put of the request's URL. */
  lemma CacheApiGetOnly(c: CacheState, r: Request, v: Response)
    ensures MatchRequest(c, r).Some? <==> r.verb == "GET" && Lookup(c, r.url).Some?
    ensures MatchRequest(c, r).Some? ==> MatchRequest(c, r) == Lookup(c, r.url)
    ensures PutRequest(c, r, v).Some? <==> r.verb == "GET"
    ensures PutRequest(c, r, v).Some? ==> PutRequest(c, r, v).value == Put(c, r.url, v)
  {
  }

  /** A handler's response and the contents it leaves in the one cache it uses. */
  datatype Outcome = Outcome(response: Response, cache: CacheState)

  /** The static handler's result; `refresh` says whether a background update was started. */
  datatype StaticOutcome = StaticOutcome(response: Response, cache: CacheState, refresh: bool)

  // ---------------------------------------------------------------------------------------------
  // As written: an ok response is always put, and a rejected put falls into the catch block.

  /** `handleStaticAsset` as written: a rejected put ends in the catch block's 503. */
  function StaticAsWritten(c: CacheState, r: Request, o: FetchOutcome): StaticOutcome {
    match MatchRequest(c, r)
    case Some(cached) => StaticOutcome(cached, c, true)
    case None =>
      match o
      case Throws => StaticOutcome(AssetOffline, c, false)
      case Resp(status, body) =>
        if !IsOkStatus(status) then StaticOutcome(Network(status, body), c, false)
        else match PutRequest(c, r, Network(status, body))
          case Some(stored) => StaticOutcome(Network(status, body), stored, false)
          case None => StaticOutcome(AssetOffline, c, false)
  }

  /** The API handler's catch block: the cached copy, else the JSON offline answer. */
  function ApiFallback(c: CacheState, r: Request): Response {
    match MatchRequest(c, r)
    case Some(cached) => cached
    case None => ApiOffline
  }

  /** `handleAPIRequest` as written: a rejected put ends in the catch block. */
  function ApiAsWritten(c: CacheState, r: Request, o: FetchOutcome): Outcome {
    match o
    case Throws => Outcome(ApiFallback(c, r), c)
    case Resp(status, body) =>
      if !IsOkStatus(status) then Outcome(Network(status, body), c)
      else match PutRequest(c, r, Network(status, body))
        case Some(stored) => Outcome(Network(status, body), stored)
        case None => Outcome(ApiFallback(c, r), c)
  }

  /** Every successful non-GET request the router hands to the API handler reaches the page as
      the 503 offline answer: the put rejects, and the catch block finds no cached copy of it. */
  lemma ApiNonGetSuccessReportedOffline(c: CacheState, r: Request, status: int, body: string)
    requires !IsExcluded(r) && !IsStaticAsset(r) && r.verb != "GET" && IsOkStatus(status)
    ensures Route(r) == RespondWith(ApiHandler)
    ensures ApiAsWritten(c, r, Resp(status, body)) == Outcome(ApiOffline, c)
    ensures ApiStrategy(c, r, Resp(status, body)) == Outcome(Network(status, body), c)
  {
  }

  /** A POST of a report to `/reports` over https, without a query, is such a request. */
  lemma ReportsPostRoutedToApi(r: Request)
    requires r.protocol == "https:" && r.pathname == "/reports" && r.search == "" && r.verb == "POST"
    ensures !IsExcluded(r) && !IsStaticAsset(r) && r.verb != "GET"
    ensures Route(r) == RespondWith(ApiHandler)
  {
    NotStaticWithoutMarker(r);
    NoOccurrence(r.pathname, "__webpack");
    NoOccurrence(r.pathname, "hot-update");
    NoOccurrence(r.search, "_sw-precache");
  }

  /** Any successful non-GET request under the app root (a POST to `/unfall-management-ios/`, say)
      is routed to the static handler and reaches the page as the 503 "Asset not available offline". */
  lemma StaticPostSuccessReportedUnavailable(r: Request, body: string)
    requires !IsExcluded(r) && Contains(r.pathname, "/unfall-management-ios/") && r.verb == "POST"
    ensures Route(r) == RespondWith(StaticHandler)
    ensures StaticAsWritten(Empty, r, Resp(200, body)).response == AssetOffline
    ensures StaticStrategy(Empty, r, Resp(200, body)).response == Network(200, body)
  {
    AppRootIsStatic(r);
  }

  // ---------------------------------------------------------------------------------------------
  // Corrected static and API strategies: a put the Cache API would reject is not attempted, so an
  // ok answer reaches the page. The listener below uses the strategies as written.

  /** `handleStaticAsset`, cache first: a hit is returned at once and starts a background refresh;
      a miss goes to the network and stores an ok answer. */
  function StaticStrategy(c: CacheState, r: Request, o: FetchOutcome): StaticOutcome {
    match MatchRequest(c, r)
    case Some(cached) => StaticOutcome(cached, c, true)
    case None =>
      match o
      case Throws => StaticOutcome(AssetOffline, c, false)
      case Resp(status, body) =>
        if !IsOkStatus(status) then StaticOutcome(Network(status, body), c, false)
        else match PutRequest(c, r, Network(status, body))
          case Some(stored) => StaticOutcome(Network(status, body), stored, false)
          case None => StaticOutcome(Network(status, body), c, false)
  }

  /** `updateCacheInBackground`: overwrite the entry with an ok answer, else leave the cache alone. */
  function BackgroundRefresh(c: CacheState, r: Request, o: FetchOutcome): CacheState {
    if IsOkOutcome(o) then
      match PutRequest(c, r, FromNetwork(o))
      case Some(stored) => stored
      case None => c
    else c
  }

  /** `handleAPIRequest`, network first: an ok answer is written to the dynamic cache without
      a trim; on a rejected fetch (or the 8 s abort) the cached copy or the JSON offline answer. */
  function ApiStrategy(c: CacheState, r: Request, o: FetchOutcome): Outcome {
    match o
    case Throws => Outcome(ApiFallback(c, r), c)
    case Resp(status, body) =>
      if !IsOkStatus(status) then Outcome(Network(status, body), c)
      else match PutRequest(c, r, Network(status, body))
        case Some(stored) => Outcome(Network(status, body), stored)
        case None => Outcome(Network(status, body), c)
  }

  /** `handleNavigationRequest`: whatever the network answers, ok or not; on a rejected fetch the
      static cache's `/index.html`, else its `/`, else the generated offline page. Nothing is stored. */
  function NavigationStrategy(staticCache: CacheState, o: FetchOutcome): Response {
    match o
    case Resp(status, body) => Network(status, body)
    case Throws =>
      match Lookup(staticCache, "/index.html")
      case Some(index) => index
      case None =>
        match Lookup(staticCache, "/")
        case Some(root) => root
        case None => OfflinePage
  }

  /** `handleDynamicRequest`, network first: before an ok answer is written the cache is trimmed;
      on a rejected fetch the cached copy, else 503. */
  function DynamicStrategy(c: CacheState, k: Key, o: FetchOutcome): Outcome {
    match o
    case Resp(status, body) =>
      if IsOkStatus(status) then Outcome(Network(status, body), Put(Trim(c), k, Network(status, body)))
      else Outcome(Network(status, body), c)
    case Throws =>
      match Lookup(c, k)
      case Some(cached) => Outcome(cached, c)
      case None => Outcome(ContentOffline, c)
  }

  /** What the fetch listener does with one request: leave it alone, or answer it with the routed
      handler as written, giving the new contents of the static and the dynamic cache. */
  datatype FetchResult =
    | PassThrough
    | Responded(response: Response, staticCache: CacheState, dynamicCache: CacheState, refresh: bool)

  function HandleFetch(r: Request, staticCache: CacheState, dynamicCache: CacheState, o: FetchOutcome): FetchResult {
    match Route(r)
    case NotIntercepted => PassThrough
    case RespondWith(StaticHandler) =>
      var s := StaticAsWritten(staticCache, r, o);
      Responded(s.response, s.cache, dynamicCache, s.refresh)
    case RespondWith(ApiHandler) =>
      var a := ApiAsWritten(dynamicCache, r, o);
      Responded(a.response, staticCache, a.cache, false)
    case RespondWith(NavigationHandler) =>
      Responded(NavigationStrategy(staticCache, o), staticCache, dynamicCache, false)
    case RespondWith(DynamicHandler) =>
      var d := DynamicStrategy(dynamicCache, r.url, o);
      Responded(d.response, staticCache, d.cache, false)
  }

  // ---------------------------------------------------------------------------------------------
  // Properties.

  /** As written and corrected agree on every GET, the only requests the Cache API lets them store. */
  lemma CorrectionOnlyAffectsNonGet(c: CacheState, r: Request, o: FetchOutcome)
    requires r.verb == "GET"
    ensures StaticAsWritten(c, r, o) == StaticStrategy(c, r, o)
    ensures ApiAsWritten(c, r, o) == ApiStrategy(c, r, o)
  {
  }

  /** The corrected strategies hand every ok network answer of a miss to the page. */
  lemma OkAnswerReachesPage(c: CacheState, r: Request, o: FetchOutcome)
    requires IsOkOutcome(o)
    ensures ApiStrategy(c, r, o).response == FromNetwork(o)
    ensures MatchRequest(c, r) == None ==> StaticStrategy(c, r, o).response == FromNetwork(o)
  {
  }

  /** A static hit: the cached response, unchanged cache, a refresh started, and no dependence on
      the network at all. */
  lemma StaticHit(c: CacheState, r: Request, o: FetchOutcome, o': FetchOutcome)
    requires Lookup(c, r.url).Some? && r.verb == "GET"
    ensures StaticAsWritten(c, r, o) == StaticOutcome(Lookup(c, r.url).value, c, true)
    ensures StaticAsWritten(c, r, o) == StaticAsWritten(c, r, o')
  {
  }

  /** The refresh overwrites the hit's key with an ok answer, and touches nothing else;
      a failed or non-ok refresh leaves the cache as it was. */
  lemma BackgroundRefreshSpec(c: CacheState, r: Request, o: FetchOutcome)
    requires Valid(c) && r.verb == "GET" && r.url in c.entries
    ensures Valid(BackgroundRefresh(c, r, o))
    ensures IsOkOutcome(o) ==>
      && Lookup(BackgroundRefresh(c, r, o), r.url) == Some(FromNetwork(o))
      && Count(BackgroundRefresh(c, r, o)) == Count(c)
      && forall k :: k != r.url ==> Lookup(BackgroundRefresh(c, r, o), k) == Lookup(c, k)
    ensures !IsOkOutcome(o) ==> BackgroundRefresh(c, r, o) == c
  {
    if IsOkOutcome(o) {
      PutSpec(c, r.url, FromNetwork(o));
    }
  }

  /** Only ok answers are written: a non-ok answer is handed to the page and leaves every cache as
      it was; an ok answer to a GET is stored under the request's URL. */
  lemma OnlyOkAnswersStored(c: CacheState, r: Request, o: FetchOutcome)
    requires Valid(c) && o.Resp?
    ensures !IsOkStatus(o.status) ==>
      && ApiAsWritten(c, r, o) == Outcome(FromNetwork(o), c)
      && DynamicStrategy(c, r.url, o) == Outcome(FromNetwork(o), c)
      && (MatchRequest(c, r) == None ==> StaticAsWritten(c, r, o) == StaticOutcome(FromNetwork(o), c, false))
    ensures IsOkStatus(o.status) && r.verb == "GET" ==>
      && Lookup(ApiAsWritten(c, r, o).cache, r.url) == Some(FromNetwork(o))
      && Lookup(DynamicStrategy(c, r.url, o).cache, r.url) == Some(FromNetwork(o))
      && (MatchRequest(c, r) == None ==> Lookup(StaticAsWritten(c, r, o).cache, r.url) == Some(FromNetwork(o)))
  {
  }

  /** Every strategy as written and corrected, and the refresh, keep a cache that holds only ok network
      answers so. */
  lemma StrategiesKeepOnlyOk(staticCache: CacheState, dynamicCache: CacheState, r: Request, o: FetchOutcome)
    requires OnlyOk(staticCache) && OnlyOk(dynamicCache)
    ensures OnlyOk(StaticAsWritten(staticCache, r, o).cache) && OnlyOk(StaticStrategy(staticCache, r, o).cache)
    ensures OnlyOk(BackgroundRefresh(staticCache, r, o))
    ensures OnlyOk(ApiAsWritten(dynamicCache, r, o).cache) && OnlyOk(ApiStrategy(dynamicCache, r, o).cache)
    ensures OnlyOk(DynamicStrategy(dynamicCache, r.url, o).cache)
    ensures HandleFetch(r, staticCache, dynamicCache, o).Responded? ==>
      && OnlyOk(HandleFetch(r, staticCache, dynamicCache, o).staticCache)
      && OnlyOk(HandleFetch(r, staticCache, dynamicCache, o).dynamicCache)
  {
    CleanupOnlyOk(dynamicCache, false);
    if IsOkOutcome(o) {
      PutOnlyOk(Trim(dynamicCache), r.url, FromNetwork(o));
    }
  }

  /** The answers on a rejected fetch. */
  lemma FallbacksOnThrow(staticCache: CacheState, dynamicCache: CacheState, r: Request)
    ensures var a := ApiAsWritten(dynamicCache, r, Throws).response;
      MatchRequest(dynamicCache, r) == None ==>
        StatusOf(a) == 503 && ErrorCodeOf(a) == Some("Offline") && ContentTypeOf(a) == Some("application/json")
    ensures MatchRequest(dynamicCache, r).Some? ==>
      ApiAsWritten(dynamicCache, r, Throws).response == MatchRequest(dynamicCache, r).value
    ensures var d := DynamicStrategy(dynamicCache, r.url, Throws).response;
      && (Lookup(dynamicCache, r.url).Some? ==> d == Lookup(dynamicCache, r.url).value)
      && (Lookup(dynamicCache, r.url).None? ==>
            StatusOf(d) == 503 && BodyOf(d) == "Content not available offline" && ContentTypeOf(d) == Some("text/plain;charset=UTF-8"))
    ensures var n := NavigationStrategy(staticCache, Throws);
      && (Lookup(staticCache, "/index.html").Some? ==> n == Lookup(staticCache, "/index.html").value)
      && (Lookup(staticCache, "/index.html").None? && Lookup(staticCache, "/").Some? ==> n == Lookup(staticCache, "/").value)
      && (Lookup(staticCache, "/index.html").None? && Lookup(staticCache, "/").None? ==>
            StatusOf(n) == 200 && ContentTypeOf(n) == Some("text/html"))
    ensures var s := StaticAsWritten(staticCache, r, Throws).response;
      MatchRequest(staticCache, r) == None ==>
        StatusOf(s) == 503 && ContentTypeOf(s) == Some("text/plain") && BodyOf(s) == "Asset not available offline"
    ensures ApiAsWritten(dynamicCache, r, Throws).cache == dynamicCache
    ensures DynamicStrategy(dynamicCache, r.url, Throws).cache == dynamicCache
    ensures StaticAsWritten(staticCache, r, Throws).cache == staticCache
  {
  }

  /** Dynamic writes keep the cache within one key of the limit: the trim runs before the put,
      only when the count is already above 50. So the first eviction comes with the 52nd distinct
      key, which leaves 46. An ok write brings any cache, even one the API handler has grown
      past the limit, back to at most 51 keys, and to at most 46 from above 50. */
  lemma DynamicWriteBound(c: CacheState, k: Key, o: FetchOutcome)
    requires Valid(c)
    ensures Valid(DynamicStrategy(c, k, o).cache)
    ensures !IsOkOutcome(o) ==> DynamicStrategy(c, k, o).cache == c
    ensures Count(c) <= MaxEntries + 1 ==> Count(DynamicStrategy(c, k, o).cache) <= MaxEntries + 1
    ensures IsOkOutcome(o) ==> Count(DynamicStrategy(c, k, o).cache) <= MaxEntries + 1
    ensures IsOkOutcome(o) && Count(c) > MaxEntries ==>
      Count(DynamicStrategy(c, k, o).cache) <= MaxEntries - EvictionBuffer + 1
    ensures IsOkOutcome(o) && k !in c.entries && Count(c) == MaxEntries ==>
      Count(DynamicStrategy(c, k, o).cache) == MaxEntries + 1
    ensures IsOkOutcome(o) && k !in c.entries && Count(c) == MaxEntries + 1 ==>
      Count(DynamicStrategy(c, k, o).cache) == MaxEntries - EvictionBuffer + 1
  {
    TrimSpec(c);
    if IsOkOutcome(o) {
      PutSpec(Trim(c), k, FromNetwork(o));
      if Count(c) > MaxEntries && k !in c.entries {
        assert Lookup(Trim(c), k) == None;
      }
    }
  }

  /** API writes are not bounded: an ok answer for a new GET key always adds a key, whatever the count. */
  lemma ApiWritesUnbounded(c: CacheState, r: Request, o: FetchOutcome)
    requires Valid(c) && IsOkOutcome(o) && r.verb == "GET" && r.url !in c.entries
    ensures Count(ApiAsWritten(c, r, o).cache) == Count(c) + 1
  {
    PutSpec(c, r.url, FromNetwork(o));
  }

  /** Each request touches at most the cache of the handler it is routed to. */
  lemma HandleFetchFrame(r: Request, staticCache: CacheState, dynamicCache: CacheState, o: FetchOutcome)
    ensures HandleFetch(r, staticCache, dynamicCache, o).PassThrough? <==> Route(r) == NotIntercepted
    ensures var res := HandleFetch(r, staticCache, dynamicCache, o);
      res.Responded? && Route(r) != RespondWith(StaticHandler) ==> res.staticCache == staticCache && !res.refresh
    ensures var res := HandleFetch(r, staticCache, dynamicCache, o);
      res.Responded? && Route(r) != RespondWith(ApiHandler) && Route(r) != RespondWith(DynamicHandler) ==>
        res.dynamicCache == dynamicCache
    ensures var res := HandleFetch(r, staticCache, dynamicCache, o);
      Route(r) == RespondWith(NavigationHandler) ==> res.staticCache == staticCache && res.dynamicCache == dynamicCache
  {
  }
}
