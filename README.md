# brownie image cache, modelled in Dafny

brownie is an HTTP service that serves SVG images through a read-through cache. A request for
`/<route>` names a route. The service looks the route up in a configured route table to find
its origin URL. If the route is missing, it uses the `FALLBACK_URL` environment variable, or
`""` when that is unset. It then serves the bytes stored in a key-value database under the key
`["cache", route]`. When the store has nothing under that key, the service fetches the URL and
serves what comes back. Whatever bytes were obtained are written back under the route's key,
and this happens on a hit as well. A scheduled job refreshes every route in table order: it
fetches each route's URL without reading the store, writes the result, and stops at the first
failure.

The model has one module per source file:

- `Errors`: the two-kind error union.
- `Types`: cache keys, route keys, image bytes, the route table, and the `Deps` class for the
  `Dependencies` record. `Deps` holds the configuration, the environment, the store as a
  mutable `map`, and a ghost trace of store reads, store writes and origin calls.
- `Cache`: reading and writing the store.
- `Fetch`: the origin fetch.
- `ImageCache`: route resolution, the per-route read-or-fetch procedure, and the sequential
  refresh.
- `HttpHandler`: the request handler, with the `ga4: success` header that `report` adds.
- `CronHandler`: the scheduled refresh.

Each operation that touches the store comes in two forms:

- A pure function over the store value, which returns an `Outcome`: the result, the new store
  and the events caused. The properties are proved about this function.
- A `method` that changes `Deps` in place. The method is proved to do exactly what the
  function describes.

The outside world is handed to each operation as an oracle, an `Answers` value:

- whether the store's read succeeds, or fails with a reason;
- what the origin answers for each URL;
- whether the store's write succeeds, or fails with a reason.

Each answer is consulted only when the operation gets that far.

Two behaviours of the code worth noting:

- On a cache hit, the code writes the stored bytes back (`RTE.chainFirst` runs after both
  branches). So a hit rewrites the store, and a rejected write turns a hit into a
  `CacheError`.
- A route missing from the table, with `FALLBACK_URL` unset, resolves silently to the URL `""`
  and is fetched like any other URL.

## Model

| member | source | states |
|---|---|---|
| Errors.Tag | source/domain/errors.ts:1-3 | every error carries one of exactly two tags, and the tag is "FetchError" precisely for the fetch kind |
| Errors.MakeFetchError | source/domain/errors.ts:5-8 | builds the fetch kind of error, tagged "FetchError", wrapping the given Error unchanged |
| Errors.MakeCacheError | source/domain/errors.ts:10-13 | builds the store kind of error, tagged "CacheError", wrapping the given Error unchanged |
| Errors.ErrorOf | source/infra/cache.ts:23 | a caught rejection becomes an Error whose message is the rejection's string form |
| Errors.TaxonomyClosed | source/domain/errors.ts:1-3 | an error value is never both kinds and always has one of the two tags |
| Errors.ConstructorsDisjoint | source/domain/errors.ts:5-13 | a fetch error and a store error are never equal and never share a tag |
| Types.MakeCacheKey | source/domain/types.ts:25-28 | a cache key is the two-element key whose first part is the namespace "cache" and whose second is the route |
| Types.MakeImageBytes | source/domain/types.ts:30-33 | wraps the buffer without changing it |
| Types.MakeRouteKey | source/domain/types.ts:35-38 | wraps the route string without changing it |
| Types.CacheKeyRoundTrip | source/domain/types.ts:25-28 | the route can be read back out of its cache key |
| Types.MakeCacheKeyInjective | source/domain/types.ts:25-28 | two routes share a cache key if and only if they are the same route |
| Types.CacheKeyOfRoute | source/domain/types.ts:10-13 | every cache key, whose type fixes its first part to "cache", is the cache key of the route it names |
| Types.Lookup | source/services/image-cache.ts:21 | a found URL is listed in the table under the route, and no entry carries the route when nothing is found |
| Types.LookupListed | source/services/image-cache.ts:21 | in a table with distinct route names, a listed route finds exactly its own URL |
| Types.OriginCalls | source/services/image-cache.ts:37-41 | counts the origin fetches in a trace; the count is zero exactly when the trace has no fetch |
| Types.OriginCallsAppend | source/services/image-cache.ts:59-68 | the fetches of two traces run one after the other add up |
| Types.NoReadsAppend | source/services/image-cache.ts:59-68 | two traces run one after the other are free of store reads exactly when each is |
| Types.Deps.constructor | source/domain/types.ts:3-8 | the dependencies start with the given configuration, environment and store, and an empty trace |
| Cache.KvValue | source/infra/cache.ts:26-27 | an entry's value is present exactly when the key is stored, and is then the stored bytes |
| Cache.GetCached | source/infra/cache.ts:16-30 | a rejected read is a store error carrying the reason; otherwise the read finds bytes exactly when the key is stored, and they are the stored bytes |
| Cache.SetCached | source/infra/cache.ts:32-40 | a rejected write is a store error carrying the reason and changes nothing; otherwise the key maps to the bytes, is added to the keys, and every other key is unchanged |
| Cache.SetThenGet | source/infra/cache.ts:16-40 | a read right after a successful write returns the written bytes |
| Cache.SetLeavesOtherKeys | source/infra/cache.ts:16-40 | a write under one key does not change what a read under another key returns |
| Cache.GetCachedBytes | source/infra/cache.ts:16-30 | the read against the live store returns what GetCached says, changes no entry, and records one read |
| Cache.SetCachedBytes | source/infra/cache.ts:32-40 | the write against the live store leaves the store SetCached describes, and records one write |
| Fetch.OkIsSuccessClass | source/infra/http.ts:18 | `response.ok` holds exactly for the statuses whose first digit is 2 (200 to 299) |
| Fetch.StatusMessage | source/infra/http.ts:19 | the message is "HTTP ", the status's digits, ": " and the status text, each at its place |
| Fetch.StatusMessageInjective | source/infra/http.ts:19 | two messages are equal only for the same status and the same status text |
| Fetch.NatToString | source/infra/http.ts:19 | the status is printed as a non-empty string of decimal digits |
| Fetch.NatToStringRoundTrip | source/infra/http.ts:19 | the printed status, read back as a decimal number, is the status |
| Fetch.FetchImageBytes | source/infra/http.ts:11-32 | succeeds exactly when a response arrives with a status from 200 to 299 and a readable body, and then yields the body; every failure is a fetch error; a thrown call, a non-ok status (message "Error: HTTP <status>: <text>") and an unreadable body each give their own message |
| Fetch.NotOkIgnoresBody | source/infra/http.ts:18-20 | a non-ok response fails the same way whatever its body, because the body is never read |
| Fetch.OnlyTheUrlMatters | source/infra/http.ts:17 | the result depends only on the origin's answer for this URL |
| ImageCache.FallbackUrl | source/services/image-cache.ts:23 | FALLBACK_URL's value when it is set, and "" otherwise |
| ImageCache.GetUrlForRoute | source/services/image-cache.ts:18-25 | the URL is either the fallback or the URL listed for the route |
| ImageCache.UrlOfListedRoute | source/services/image-cache.ts:21 | a listed route resolves to exactly its own URL |
| ImageCache.UrlOfUnlistedRoute | source/services/image-cache.ts:22-23 | an unlisted route resolves to FALLBACK_URL when it is set, and to "" otherwise |
| ImageCache.Obtain | source/services/image-cache.ts:36-46 | forced: the fetch of the URL; otherwise a read first, then a rejected read's store error, the stored bytes on a hit, or the fetch of the URL on a miss, each with the events it caused |
| ImageCache.GetOrFetch | source/services/image-cache.ts:27-49 | on success the store maps the route's cache key to the returned bytes and nothing else changes; on failure the store is unchanged |
| ImageCache.OriginCallsOfGetOrFetch | source/services/image-cache.ts:36-46 | the origin is asked once when the call is forced or the read missed, and never otherwise |
| ImageCache.ForcedCallSkipsStore | source/services/image-cache.ts:37 | a forced call never reads the store, first fetches the route's URL, and on success returns what was fetched |
| ImageCache.PlainCallReadsFirst | source/services/image-cache.ts:38 | a plain call first reads the route's cache key |
| ImageCache.HitServesStoredBytes | source/services/image-cache.ts:39-43 | a hit makes no origin call and, when the write succeeds, returns the stored bytes |
| ImageCache.MissFetchesOnce | source/services/image-cache.ts:40-41 | a miss fetches the route's URL once, right after the read, and on success returns what was fetched |
| ImageCache.ReadFailureIsFatal | source/services/image-cache.ts:38-39 | a rejected read is the call's store error, with no fetch, no write and no change to the store |
| ImageCache.FetchFailurePropagates | source/services/image-cache.ts:36-47 | a failed fetch, forced or after a miss, is the call's fetch error, and nothing is written |
| ImageCache.ObtainedBytesAreWritten | source/services/image-cache.ts:47 | bytes obtained by any branch, hit included, are written back as the last step, and a rejected write makes the call a store error |
| ImageCache.GetOrFetchIdempotent | source/services/image-cache.ts:27-49 | a second plain call after a successful one returns the same bytes, leaves the same store and makes no fetch; both together make at most one fetch |
| ImageCache.OverwriteThenRead | source/services/image-cache.ts:27-49 | after a forced call, a plain call serves the freshly fetched bytes without a fetch |
| ImageCache.Sequence | source/services/image-cache.ts:66 | a successful run of n tasks, each on the store the previous left, returns n results |
| ImageCache.SequenceExtend | source/services/image-cache.ts:66 | running one more task extends a successful run by that task's result, store and events, or stops with its error |
| ImageCache.SequenceStep | source/services/image-cache.ts:66 | one step of the in-order run, as the loop of ProcessAllRoutes takes it |
| ImageCache.FailureSticks | source/services/image-cache.ts:66 | once the run has failed, running more tasks changes nothing |
| ImageCache.StepFacts | source/services/image-cache.ts:66 | a successful run of n+1 tasks is the successful run of n followed by a successful step |
| ImageCache.SequenceResults | source/services/image-cache.ts:66 | a successful run returns each task's result in order, each computed on the store the previous tasks left |
| ImageCache.SequenceStoresEach | source/services/image-cache.ts:66 | after a successful run that writes distinct keys, each task's result is in the store under its key |
| ImageCache.SequenceStopsAtFirstFailure | source/services/image-cache.ts:66 | a failed run failed at some task k after k successes, with task k's error and the store and events reached at that point |
| ImageCache.RouteEntryIgnoresUrl | source/services/image-cache.ts:51-57 | a route entry's task depends on its route name only: the entry's URL is ignored and the URL comes from the table lookup |
| ImageCache.RouteTasksFrom | source/services/image-cache.ts:65 | one task per remaining route |
| ImageCache.RouteTasks | source/services/image-cache.ts:65 | one task per route of the table |
| ImageCache.RouteTaskIs | source/services/image-cache.ts:51-57 | task j is the decision procedure for route j's name, with the route's URL ignored |
| ImageCache.RouteTaskAt | source/services/image-cache.ts:51-57 | task j, run on a store, is the decision procedure for route j on that store |
| ImageCache.RouteCacheKeys | source/services/image-cache.ts:63 | the routes' cache keys are pairwise distinct |
| ImageCache.ProcessAll | source/services/image-cache.ts:59-68 | a successful refresh returns one result per route |
| ImageCache.RefreshResultsPerRoute | source/services/image-cache.ts:59-68 | a successful refresh returns, in table order, what each route's call returned when its turn came, and each is stored under its route's key |
| ImageCache.RefreshStopsAtFirstFailure | source/services/image-cache.ts:59-68 | a failed refresh failed at some route k: every earlier route succeeded, the error is route k's, no later route ran, and the earlier writes remain |
| ImageCache.ForcedRouteStep | source/services/image-cache.ts:51-57 | one route of a forced refresh makes no read, one fetch, and on success returns the body from the route's own URL |
| ImageCache.ForcedRefreshFetches | source/services/image-cache.ts:59-68 | a successful forced refresh of the first n routes makes no read and n fetches, and route j's result is what its own URL returned |
| ImageCache.ForcedRefreshStoresFreshBytes | source/services/image-cache.ts:59-68 | after a successful forced refresh of the table, every route's freshly fetched body is in the store under its key |
| ImageCache.GetOrFetchImageBytes | source/services/image-cache.ts:27-49 | against the live dependencies: the result, the new store and the recorded events are those of GetOrFetch |
| ImageCache.ProcessRouteEntry | source/services/image-cache.ts:51-57 | against the live dependencies: the decision procedure for the entry's route name |
| ImageCache.ProcessAllRoutes | source/services/image-cache.ts:59-68 | the loop over the table leaves the result, store and events of ProcessAll |
| HttpHandler.ExtractRequestPath | source/handlers/http.ts:12-17 | the route is the pathname without its first character, and "" for an empty pathname |
| HttpHandler.PathOfRoute | source/handlers/http.ts:12-17 | the path "/" + name asks for the route name |
| HttpHandler.PathsOfSameRoute | source/handlers/http.ts:12-17 | two paths ask for the same route if and only if they agree after the first character |
| HttpHandler.CreateImageResponse | source/handlers/http.ts:19-22 | status 200, the bytes as the body, and content type image/svg+xml as the only header |
| HttpHandler.CreateErrorResponse | source/handlers/http.ts:24-25 | status 500, the error's message as a text body, and the plain-text content type a string body gets |
| HttpHandler.Report | utils.ts:96-108 | the same status, body and headers, with ga4: success added |
| HttpHandler.Respond | source/handlers/http.ts:35-36 | status 200 exactly when the cache call succeeded; the image response on success and the error response on failure |
| HttpHandler.Handle | source/handlers/http.ts:27-39 | every response carries ga4: success |
| HttpHandler.HandleAnswersEveryRequest | source/handlers/http.ts:27-39 | every request is answered: 200 with the SVG bytes exactly when the plain cache call succeeded, otherwise 500 with the error's message; the store and events are the cache call's |
| HttpHandler.RequestReadsStoreFirst | source/handlers/http.ts:34 | a request never forces a fetch: its first event is a read of the route's cache key |
| HttpHandler.CachedRouteServedFromStore | source/handlers/http.ts:27-39 | a stored route is served with status 200 and the stored bytes, without a fetch |
| HttpHandler.UnlistedRouteUsesFallback | source/services/image-cache.ts:23 | an unlisted route on a cold store fetches the fallback URL once and serves what came back, or answers 500 with the fetch error |
| HttpHandler.RepeatedRequestServedFromStore | source/handlers/http.ts:27-39 | a repeated request gets the same 200 response and leaves the same store; both together make at most one fetch |
| HttpHandler.HandleRequest | source/handlers/http.ts:27-39 | against the live dependencies: the response, store and events of Handle |
| CronHandler.DiscardResults | source/handlers/cron.ts:9 | a success forgets its value; a failure keeps its error |
| CronHandler.Cron | source/handlers/cron.ts:6-10 | the store and events of the forced refresh, success exactly when it succeeded, and otherwise its error unchanged |
| CronHandler.CronRefreshesEveryRoute | source/handlers/cron.ts:6-10 | a successful run makes no read, one fetch per route, and leaves each route's fetched body under its key |
| CronHandler.CronFailsAtFirstFailingRoute | source/handlers/cron.ts:6-10 | a failed run failed at some route k: every earlier route succeeded, the error is route k's, no later route ran, the store is the one the earlier routes left, no read was made and k + 1 fetches were |
| CronHandler.RequestAfterCronServesFreshBytes | source/handlers/cron.ts:6-10 | after a successful run, a request for any configured route is served the body that run fetched, without a fetch |
| CronHandler.CronJob | source/handlers/cron.ts:6-10 | against the live dependencies: the result, store and events of Cron |

## Left out

- Analytics: `report`'s GA4 event (utils.ts) is not part of this model. Only the `ga4: success` header it adds is modelled.
- Report: the catch branch (utils.ts:109-114) is not modelled. It builds a 500 response only to hand it to the analytics in `finally`, then rethrows. Neither the header copy nor the new `Response` (utils.ts:105-107) can throw for the bodies and the statuses 200 and 500 built here.
- URL parsing: `new URL(request.url)` is not modelled. The handler starts from the pathname.
- Request objects and the connection info are not modelled. The handler starts from the pathname.
- Concurrency: requests and cron runs arriving at the same time are not modelled. Every operation runs alone against the store.
- Timeouts and transport details of `fetch` and Deno KV are not modelled. They appear only as a rejection reason supplied by the oracle.
- ErrorToString: `String(e)` of an `Error` is taken to be "Error: " followed by its message, the form `Error.prototype.toString` gives for a non-empty message.
- Rejection reasons: `String(reason)` is not computed. Each oracle supplies the string form directly, and for a thrown `Error` it is "Error: " followed by the message.
- Stored values: the store holds bytes or nothing. An entry holding `null` is modelled as absent, which is also how the code treats it.
- SetCached: a rejected write is modelled as changing nothing. A write that changed the database and then reported failure is not modelled.
- Commit: `kv.set`'s versionstamp is not modelled, because nothing reads it.
- Route table: `Object.entries` order is taken as given. The JavaScript rule that integer-like keys come first is not modelled.
- Route table: inherited properties of the configuration object (a prototype lookup such as `routes["constructor"]`) are not modelled.
- main.ts, source/app.ts and config.ts are not part of this model: server setup, the cron schedule and the concrete route values.
- FetchImageBytes: the status text and status are whatever the oracle gives. The Fetch standard's default status texts are not modelled.

