/**
 * The request handler of source/handlers/http.ts: the route key taken from the request
 * path, the image and error responses, and the `report` step of utils.ts that tags every
 * response with the `ga4: success` header before it leaves.
 *
 * Header names are kept lower-case, as the Fetch standard's `Headers` object stores them.
 */
module HttpHandler {
  import opened Wrappers
  import opened Types
  import opened Errors
  import opened Cache
  import opened Fetch
  import opened ImageCache

  /** A response body: the image's bytes, or a text message. */
  datatype Body = BinaryBody(bytes: seq<byte>) | TextBody(text: string)

  /** An HTTP response: status, headers (lower-case names) and body. */
  datatype Response = Response(status: nat, headers: map<string, string>, body: Body)

  const ContentType: string := "content-type"
  const SvgType: string := "image/svg+xml"
  /** The type the Fetch standard gives a response constructed from a string body. */
  const PlainTextType: string := "text/plain;charset=UTF-8"
  const ReportHeader: string := "ga4"
  const ReportValue: string := "success"

  /** `extractRequestPath`, from the URL's pathname on: `pathname.slice(1)` as a route key. */
  function ExtractRequestPath(pathname: string): (k: RouteKey)
    ensures |pathname| == 0 ==> k.value == ""
    ensures |pathname| > 0 ==> pathname == [pathname[0]] + k.value
  {
    MakeRouteKey(if |pathname| == 0 then "" else pathname[1..])
  }

  /** The path `/<name>` is served as route `name`, whatever characters `name` holds. */
  lemma PathOfRoute(name: string)
    ensures ExtractRequestPath("/" + name) == RouteKey(name)
  {
    assert ("/" + name)[1..] == name;
  }

  /** Two paths that agree after their first character ask for the same route. */
  lemma PathsOfSameRoute(p: string, q: string)
    requires |p| > 0 && |q| > 0
    ensures ExtractRequestPath(p) == ExtractRequestPath(q) <==> p[1..] == q[1..]
  {
  }

  /** `createImageResponse`: the bytes, status 200, typed as SVG. */
  function CreateImageResponse(bytes: ImageBytes): (resp: Response)
    ensures resp.status == 200
    ensures resp.body == BinaryBody(bytes.value)
    ensures resp.headers.Keys == {ContentType} && resp.headers[ContentType] == SvgType
  {
    Response(200, map[ContentType := SvgType], BinaryBody(bytes.value))
  }

  /** `createErrorResponse`: the error's message as text, status 500. */
  function CreateErrorResponse(error: CacheError): (resp: Response)
    ensures resp.status == 500
    ensures resp.body == TextBody(error.error.message)
    ensures resp.headers.Keys == {ContentType} && resp.headers[ContentType] == PlainTextType
  {
    Response(500, map[ContentType := PlainTextType], TextBody(error.error.message))
  }

  /**
   * `report` without its analytics: the same status and body, the same headers, and
   * `ga4: success` set on top of them.
   */
  function Report(resp: Response): (r: Response)
    ensures r.status == resp.status && r.body == resp.body
    ensures r.headers.Keys == resp.headers.Keys + {ReportHeader}
    ensures r.headers[ReportHeader] == ReportValue
    ensures forall h :: h in resp.headers && h != ReportHeader ==> r.headers[h] == resp.headers[h]
  {
    Response(resp.status, resp.headers[ReportHeader := ReportValue], resp.body)
  }

  /** `RTE.map(createImageResponse)` then `RTE.orElse(createErrorResponse)`: never a failure. */
  function Respond(result: Result<ImageBytes, CacheError>): (resp: Response)
    ensures resp.status == 200 <==> result.Success?
    ensures result.Success? ==> resp == CreateImageResponse(result.value)
    ensures result.Failure? ==> resp == CreateErrorResponse(result.error)
  {
    match result
    case Success(bytes) => CreateImageResponse(bytes)
    case Failure(e) => CreateErrorResponse(e)
  }

  /** What one request leaves behind: the response, the store and the events it caused. */
  datatype Served = Served(response: Response, store: Store, events: seq<Event>)

  /** `handleRequest`: a plain (never forced) call for the path's route, answered and reported. */
  function Handle(routes: RouteTable, env: map<string, string>, store: Store, pathname: string, a: Answers): (s: Served)
    ensures ReportHeader in s.response.headers && s.response.headers[ReportHeader] == ReportValue
  {
    var o := GetOrFetch(routes, env, store, ExtractRequestPath(pathname), false, a);
    Served(Report(Respond(o.result)), o.store, o.events)
  }

  /**
   * Every request is answered: 200 with the image's bytes as SVG exactly when the cache
   * call succeeded, otherwise 500 with the error's message; the store and events are the
   * cache call's.
   */
  lemma HandleAnswersEveryRequest(routes: RouteTable, env: map<string, string>, store: Store, pathname: string, a: Answers)
    ensures var o := GetOrFetch(routes, env, store, ExtractRequestPath(pathname), false, a);
            var s := Handle(routes, env, store, pathname, a);
            s.store == o.store && s.events == o.events &&
            (s.response.status == 200 <==> o.result.Success?) &&
            (o.result.Success? ==> s.response.body == BinaryBody(o.result.value.value) &&
                                   s.response.headers[ContentType] == SvgType) &&
            (o.result.Failure? ==> s.response.status == 500 &&
                                   s.response.body == TextBody(o.result.error.error.message) &&
                                   s.response.headers[ContentType] == PlainTextType)
  {
  }

  /** A request never forces a fetch: the store is read first, before anything else. */
  lemma RequestReadsStoreFirst(routes: RouteTable, env: map<string, string>, store: Store, pathname: string, a: Answers)
    ensures var s := Handle(routes, env, store, pathname, a);
            |s.events| > 0 && s.events[0] == KvRead(MakeCacheKey(ExtractRequestPath(pathname).value).value)
  {
    PlainCallReadsFirst(routes, env, store, ExtractRequestPath(pathname), a);
  }

  /** A cached route is served from the store without asking the origin. */
  lemma CachedRouteServedFromStore(routes: RouteTable, env: map<string, string>, store: Store, name: string, a: Answers)
    requires a.read.Resolves? && a.write.Resolves? && MakeCacheKey(name).value in store
    ensures var s := Handle(routes, env, store, "/" + name, a);
            s.response.status == 200 && s.response.body == BinaryBody(store[MakeCacheKey(name).value]) &&
            OriginCalls(s.events) == 0
  {
    PathOfRoute(name);
    HitServesStoredBytes(routes, env, store, RouteKey(name), a);
  }

  /**
   * A request for a route missing from the table, on a cold store, fetches the fallback
   * URL (or "" when FALLBACK_URL is unset) and serves what came back.
   */
  lemma UnlistedRouteUsesFallback(routes: RouteTable, env: map<string, string>, store: Store, name: string, a: Answers)
    requires forall i :: 0 <= i < |routes| ==> routes[i].0 != name
    requires a.read.Resolves? && a.write.Resolves? && MakeCacheKey(name).value !in store
    ensures var s := Handle(routes, env, store, "/" + name, a);
            var fetched := FetchImageBytes(a.fetch, FallbackUrl(env));
            OriginCalls(s.events) == 1 && s.events[1] == OriginCall(FallbackUrl(env)) &&
            (fetched.Success? ==> s.response.body == BinaryBody(fetched.value.value)) &&
            (fetched.Failure? ==> s.response.status == 500 && s.response.body == TextBody(fetched.error.error.message))
  {
    PathOfRoute(name);
    UrlOfUnlistedRoute(routes, env, RouteKey(name));
    MissFetchesOnce(routes, env, store, RouteKey(name), a);
    if FetchImageBytes(a.fetch, FallbackUrl(env)).Failure? {
      FetchFailurePropagates(routes, env, store, RouteKey(name), false, a);
    }
  }

  /**
   * Two requests for the same path, the store answering: the second gets the same 200
   * response as the first, and the origin is asked at most once across both.
   */
  lemma RepeatedRequestServedFromStore(routes: RouteTable, env: map<string, string>, store: Store, pathname: string, a1: Answers, a2: Answers)
    requires a1.write.Resolves? && a2.read.Resolves? && a2.write.Resolves?
    requires Handle(routes, env, store, pathname, a1).response.status == 200
    ensures var first := Handle(routes, env, store, pathname, a1);
            var second := Handle(routes, env, first.store, pathname, a2);
            second.response == first.response && second.store == first.store &&
            OriginCalls(first.events + second.events) <= 1
  {
    GetOrFetchIdempotent(routes, env, store, ExtractRequestPath(pathname), a1, a2);
  }

  /** `handleRequest(request)` run against `deps`. */
  method HandleRequest(deps: Deps, pathname: string, a: Answers) returns (resp: Response)
    modifies deps
    ensures var s := Handle(deps.config, deps.env, old(deps.kv), pathname, a);
            resp == s.response && deps.kv == s.store && deps.trace == old(deps.trace) + s.events
  {
    var routeKey := ExtractRequestPath(pathname);
    var result := GetOrFetchImageBytes(deps, routeKey, false, a);
    resp := Report(Respond(result));
  }
}
