/** The fetch listener's routing: which requests are left alone, and which of the four
    handlers answers each of the others. */
module Routing {
  import opened Wrappers
  import opened Strings

  /** A request as the fetch listener sees it; `verb` is its HTTP method. `url` is its URL and also its
      cache key, written the way the worker writes the URLs it hands to `cache.add` and `cache.match`:
      relative to the worker's origin when it is on that origin (`/unfall-management-ios/`), in full
      otherwise. The Cache API resolves those strings against the origin, so both forms name the same
      entry. `protocol` (with its colon, "https:"), `pathname` and `search` are its parsed parts.
      `accept` is the Accept header, `None` when the request has none. */
  datatype Request = Request(
    url: string,
    protocol: string,
    pathname: string,
    search: string,
    verb: string,
    mode: string,
    accept: Option<string>)

  /** `staticAssets`: the install seed list, and the substrings that mark a path as static. */
  const StaticAssets: seq<string> := [
    "/unfall-management-ios/",
    "/unfall-management-ios/index.html",
    "/unfall-management-ios/manifest.json",
    "https://fonts.googleapis.com/css2?family=Inter:wght@300;400;500;600;700;800&display=swap"
  ]

  /** `dynamicAssets`: declared by the worker, consulted nowhere. */
  const DynamicAssets: seq<string> := [
    "https://fonts.gstatic.com/",
    "/unfall-management-ios/apple-touch-icon",
    "/unfall-management-ios/icon-",
    "/unfall-management-ios/splash-"
  ]

  /** The alternatives of the regular expression `/\.(css|js|png|jpg|jpeg|gif|svg|ico|woff|woff2|ttf)$/`. */
  const StaticExtensions: seq<string> := ["css", "js", "png", "jpg", "jpeg", "gif", "svg", "ico", "woff", "woff2", "ttf"]

  /** The early returns of the fetch listener: no `respondWith`, the browser handles the request. */
  predicate IsExcluded(r: Request) {
    || !StartsWith(r.protocol, "http")
    || Contains(r.pathname, "__webpack")
    || Contains(r.pathname, "hot-update")
    || Contains(r.search, "_sw-precache")
  }

  /** `isStaticAsset`: the path contains a seed entry, or ends in one of the extensions. */
  predicate IsStaticAsset(r: Request) {
    || (exists a :: a in StaticAssets && Contains(r.pathname, a))
    || (exists e :: e in StaticExtensions && EndsWith(r.pathname, "." + e))
  }

  /** `isAPIRequest`. */
  predicate IsApiRequest(r: Request) {
    || StartsWith(r.pathname, "/api/")
    || Contains(r.pathname, "api")
    || r.verb != "GET"
  }

  /** `isNavigationRequest`, with its failure: for a GET that is not a navigation and has no
      Accept header, `headers.get('accept')` is null and `.includes` throws (`None`). */
  function IsNavigationRequest(r: Request): Option<bool> {
    if r.mode == "navigate" then Some(true)
    else if r.verb != "GET" then Some(false)
    else match r.accept
      case None => None
      case Some(accept) => Some(Contains(accept, "text/html"))
  }

  datatype Handler = StaticHandler | ApiHandler | NavigationHandler | DynamicHandler

  /** What the fetch listener does with a request: nothing, or `respondWith` one handler. */
  datatype Decision = NotIntercepted | RespondWith(handler: Handler)

  /** The fetch listener. An exception thrown by `isNavigationRequest` escapes the listener
      before `respondWith`, so such a request is not intercepted either. */
  function Route(r: Request): Decision {
    if IsExcluded(r) then NotIntercepted
    else if IsStaticAsset(r) then RespondWith(StaticHandler)
    else if IsApiRequest(r) then RespondWith(ApiHandler)
    else match IsNavigationRequest(r)
      case None => NotIntercepted
      case Some(true) => RespondWith(NavigationHandler)
      case Some(false) => RespondWith(DynamicHandler)
  }

  /** The `/api/` prefix test is subsumed by the `api` substring test. */
  lemma ApiPrefixSubsumed(path: string)
    requires StartsWith(path, "/api/")
    ensures Contains(path, "api")
  {
    assert "/api/"[1..4] == "api";
    StartsWithContains(path, "/api/", 1, "api");
  }

  /** Routing, first match wins. Each outcome is characterised by the request's fields alone. */
  lemma RouteCharacterization(r: Request)
    ensures Route(r) == NotIntercepted <==>
      IsExcluded(r) ||
      (!IsStaticAsset(r) && !Contains(r.pathname, "api") && r.verb == "GET" && r.mode != "navigate" && r.accept.None?)
    ensures Route(r) == RespondWith(StaticHandler) <==> !IsExcluded(r) && IsStaticAsset(r)
    ensures Route(r) == RespondWith(ApiHandler) <==>
      !IsExcluded(r) && !IsStaticAsset(r) && (Contains(r.pathname, "api") || r.verb != "GET")
    ensures Route(r) == RespondWith(NavigationHandler) <==>
      !IsExcluded(r) && !IsStaticAsset(r) && !Contains(r.pathname, "api") && r.verb == "GET" &&
      (r.mode == "navigate" || (r.accept.Some? && Contains(r.accept.value, "text/html")))
    ensures Route(r) == RespondWith(DynamicHandler) <==>
      !IsExcluded(r) && !IsStaticAsset(r) && !Contains(r.pathname, "api") && r.verb == "GET" &&
      r.mode != "navigate" && r.accept.Some? && !Contains(r.accept.value, "text/html")
  {
    if StartsWith(r.pathname, "/api/") {
      ApiPrefixSubsumed(r.pathname);
    }
  }

  /** Any path containing the app root, even a POST's, goes to the static handler:
      the static test comes first and does not look at the method. */
  lemma AppRootIsStatic(r: Request)
    requires !IsExcluded(r) && Contains(r.pathname, "/unfall-management-ios/")
    ensures Route(r) == RespondWith(StaticHandler)
  {
    assert StaticAssets[0] in StaticAssets;
  }

  /** A GET that is neither static nor API, not a navigation and without an Accept header
      makes `isNavigationRequest` throw, so the request is not intercepted. */
  lemma MissingAcceptNotIntercepted(r: Request)
    requires !IsExcluded(r) && !IsStaticAsset(r) && !IsApiRequest(r)
    requires r.mode != "navigate" && r.accept == None
    ensures Route(r) == NotIntercepted
  {
  }

  /** Every request Route hands to the navigation or dynamic handler is a GET. */
  lemma LateHandlersOnlySeeGet(r: Request)
    requires Route(r) == RespondWith(NavigationHandler) || Route(r) == RespondWith(DynamicHandler)
    ensures r.verb == "GET" && !Contains(r.pathname, "api")
  {
  }

  /** A path shorter than every seed entry and without a dot is not static. */
  lemma NotStaticWithoutMarker(r: Request)
    requires |r.pathname| < 23 && '.' !in r.pathname
    ensures !IsStaticAsset(r)
  {
    forall a | a in StaticAssets ensures !Contains(r.pathname, a) {
      ShorterNotContains(r.pathname, a);
    }
    forall e | e in StaticExtensions ensures !EndsWith(r.pathname, "." + e) {
      if EndsWith(r.pathname, "." + e) {
        EndsWithHasFirst(r.pathname, "." + e);
      }
    }
  }
}
