/** What the network hands back to the worker, and what the worker hands back to the page. */
module Responses {
  import opened Wrappers

  /** The result of one `fetch`: it rejects (network failure, or the API strategy's 8 s abort),
      or it resolves with a status and a body. */
  datatype FetchOutcome = Throws | Resp(status: int, body: string)

  /** `response.ok`: the status is in the range 200 to 299. */
  predicate IsOkStatus(status: int) {
    200 <= status <= 299
  }

  /** A response produced by the worker. `Network` is a response that came from `fetch`
      (directly or out of a cache); the others are the worker's own offline answers. */
  datatype Response =
    | Network(status: int, body: string)
      /** Static-asset failure: 503, text/plain, "Asset not available offline". */
    | AssetOffline
      /** API failure without a cached copy: 503, JSON `{error: 'Offline', message: …}`. */
    | ApiOffline
      /** Dynamic failure without a cached copy: 503, "Content not available offline". No header is given,
          so the string body's own type, text/plain;charset=UTF-8, is its content type. */
    | ContentOffline
      /** Navigation failure without a cached index: the generated offline page, 200, text/html. */
    | OfflinePage

  function StatusOf(r: Response): int {
    match r
    case Network(status, _) => status
    case AssetOffline => 503
    case ApiOffline => 503
    case ContentOffline => 503
    case OfflinePage => 200
  }

  /** The `Content-Type` of a response the worker builds; `None` for a network response, whose type is
      whatever the server sent and is not modelled. */
  function ContentTypeOf(r: Response): Option<string> {
    match r
    case Network(_, _) => None
    case AssetOffline => Some("text/plain")
    case ApiOffline => Some("application/json")
    case ContentOffline => Some("text/plain;charset=UTF-8")
    case OfflinePage => Some("text/html")
  }

  /** The `error` member of the JSON body, for the one response that has a JSON body. */
  function ErrorCodeOf(r: Response): Option<string> {
    if r.ApiOffline? then Some("Offline") else None
  }

  /** The body text of a response. The generated offline page's markup is not modelled: its
      first tag, `<!DOCTYPE html>`, stands in for the whole page. */
  function BodyOf(r: Response): string {
    match r
    case Network(_, body) => body
    case AssetOffline => "Asset not available offline"
    case ApiOffline => "{\"error\":\"Offline\",\"message\":\"Diese Funktion ist offline nicht verfügbar\"}"
    case ContentOffline => "Content not available offline"
    case OfflinePage => "<!DOCTYPE html>"
  }

  /** The response a resolved fetch produces. */
  function FromNetwork(o: FetchOutcome): Response
    requires o.Resp?
  {
    Network(o.status, o.body)
  }

  /** A fetch that resolved with an ok status. */
  predicate IsOkOutcome(o: FetchOutcome) {
    o.Resp? && IsOkStatus(o.status)
  }

  /** A response the strategies are willing to store: one from the network with an ok status. */
  predicate Cacheable(r: Response) {
    r.Network? && IsOkStatus(r.status)
  }
}
