/**
 * The scheduled refresh of source/handlers/cron.ts: a forced refresh of every configured
 * route whose collected results are discarded.
 */
module CronHandler {
  import opened Wrappers
  import opened Types
  import opened Errors
  import opened Fetch
  import opened ImageCache
  import opened HttpHandler

  /** `RTE.map(F.constVoid)`: a success forgets its value, a failure keeps its error. */
  function DiscardResults<T>(r: Result<T, CacheError>): (v: Result<(), CacheError>)
    ensures v.Success? <==> r.Success?
    ensures r.Failure? ==> v.error == r.error
  {
    match r
    case Success(_) => Success(())
    case Failure(e) => Failure(e)
  }

  /** `cronJob`: `processAllRoutes(true)` with its results discarded. */
  function Cron(routes: RouteTable, env: map<string, string>, store: Store, answers: nat -> Answers): (o: Outcome<()>)
    ensures var refresh := ProcessAll(routes, env, store, true, answers);
            o.store == refresh.store && o.events == refresh.events &&
            (o.result.Success? <==> refresh.result.Success?) &&
            (o.result.Failure? ==> o.result.error == refresh.result.error)
  {
    var refresh := ProcessAll(routes, env, store, true, answers);
    Outcome(DiscardResults(refresh.result), refresh.store, refresh.events)
  }

  /**
   * A successful cron run never read the store, asked the origin once per route for that
   * route's URL, and left under each route's cache key exactly what the origin returned.
   */
  lemma CronRefreshesEveryRoute(routes: RouteTable, env: map<string, string>, store: Store, answers: nat -> Answers)
    requires Cron(routes, env, store, answers).result.Success?
    ensures var o := Cron(routes, env, store, answers);
            NoReads(o.events) && OriginCalls(o.events) == |routes| &&
            forall j :: 0 <= j < |routes| ==>
              MakeCacheKey(routes[j].0).value in o.store &&
              FetchImageBytes(answers(j).fetch, routes[j].1) == Success(ImageBytes(o.store[MakeCacheKey(routes[j].0).value]))
  {
    ForcedRefreshStoresFreshBytes(routes, env, store, answers);
  }

  /**
   * A failed cron run failed at some route `k`: every route before it succeeded, the error
   * is route `k`'s, nothing after it ran, and the store is the one the earlier routes left.
   * Failed or not, the run never read the store and asked the origin once per route it tried.
   */
  lemma CronFailsAtFirstFailingRoute(routes: RouteTable, env: map<string, string>, store: Store, answers: nat -> Answers) returns (k: nat)
    requires Cron(routes, env, store, answers).result.Failure?
    ensures k < |routes|
    ensures var before := Sequence(RouteTasks(routes, env, true, answers), store, k);
            var failed := GetOrFetch(routes, env, before.store, MakeRouteKey(routes[k].0), true, answers(k));
            var o := Cron(routes, env, store, answers);
            before.result.Success? && failed.result.Failure? && o.result.error == failed.result.error &&
            o.events == before.events + failed.events && o.store == before.store
    ensures var o := Cron(routes, env, store, answers);
            NoReads(o.events) && OriginCalls(o.events) == k + 1
  {
    k := RefreshStopsAtFirstFailure(routes, env, store, true, answers);
    var before := Sequence(RouteTasks(routes, env, true, answers), store, k);
    var failed := GetOrFetch(routes, env, before.store, MakeRouteKey(routes[k].0), true, answers(k));
    ForcedRefreshFetches(routes, env, store, answers, k);
    ForcedCallSkipsStore(routes, env, before.store, MakeRouteKey(routes[k].0), answers(k));
    NoReadsAppend(before.events, failed.events);
    OriginCallsAppend(before.events, failed.events);
  }

  /**
   * After a successful cron run, a request for any configured route is served, without
   * asking the origin, the body the cron run fetched for that route.
   */
  lemma RequestAfterCronServesFreshBytes(routes: RouteTable, env: map<string, string>, store: Store, answers: nat -> Answers, j: nat, a: Answers)
    requires Cron(routes, env, store, answers).result.Success?
    requires j < |routes| && a.read.Resolves? && a.write.Resolves?
    ensures var o := Cron(routes, env, store, answers);
            var s := Handle(routes, env, o.store, "/" + routes[j].0, a);
            OriginCalls(s.events) == 0 && s.response.status == 200 && s.response.body.BinaryBody? &&
            FetchImageBytes(answers(j).fetch, routes[j].1) == Success(ImageBytes(s.response.body.bytes))
  {
    var o := Cron(routes, env, store, answers);
    ForcedRefreshStoresFreshBytes(routes, env, store, answers);
    CachedRouteServedFromStore(routes, env, o.store, routes[j].0, a);
  }

  /** `cronJob` run against `deps`. */
  method CronJob(deps: Deps, answers: nat -> Answers) returns (r: Result<(), CacheError>)
    modifies deps
    ensures var o := Cron(deps.config, deps.env, old(deps.kv), answers);
            r == o.result && deps.kv == o.store && deps.trace == old(deps.trace) + o.events
  {
    var refreshed := ProcessAllRoutes(deps, true, answers);
    r := DiscardResults(refreshed);
  }
}
