/**
 * The read-through image cache of source/services/image-cache.ts: route resolution, the
 * per-route decision between store and origin with its trailing write, and the sequential
 * refresh of every configured route.
 */
module ImageCache {
  import opened Wrappers
  import opened Types
  import opened Errors
  import opened Cache
  import opened Fetch

  /**
   * The outside world's answers to one call of the decision procedure: how the store
   * answers the read, what the origin returns for each URL, and how the store answers
   * the write. Each is consulted only if the procedure gets that far.
   */
  datatype Answers = Answers(read: KvAnswer, fetch: string -> OriginResponse, write: KvAnswer)

  /** The result of a store-changing operation, the store it leaves and the events it caused. */
  datatype Outcome<T> = Outcome(result: Result<T, CacheError>, store: Store, events: seq<Event>)

  /** The environment variable that supplies the URL of routes missing from the table. */
  const FallbackVariable: string := "FALLBACK_URL"

  /** `deps.env.get("FALLBACK_URL") ?? ""`. */
  function FallbackUrl(env: map<string, string>): (u: string)
    ensures FallbackVariable in env ==> u == env[FallbackVariable]
    ensures FallbackVariable !in env ==> u == ""
  {
    if FallbackVariable in env then env[FallbackVariable] else ""
  }

  /** `getUrlForRoute`: the table's URL for the route, otherwise the fallback. */
  function GetUrlForRoute(routes: RouteTable, env: map<string, string>, routeKey: RouteKey): (url: string)
    ensures url == FallbackUrl(env) || exists i :: 0 <= i < |routes| && routes[i] == (routeKey.value, url)
  {
    match Lookup(routes, routeKey.value)
    case Some(u) => u
    case None => FallbackUrl(env)
  }

  /** A route listed in the table resolves to exactly its own URL. */
  lemma UrlOfListedRoute(routes: RouteTable, env: map<string, string>, i: nat)
    requires i < |routes|
    ensures GetUrlForRoute(routes, env, RouteKey(routes[i].0)) == routes[i].1
  {
    LookupListed(routes, i);
  }

  /** A route missing from the table resolves to FALLBACK_URL, or to "" when that is unset. */
  lemma UrlOfUnlistedRoute(routes: RouteTable, env: map<string, string>, routeKey: RouteKey)
    requires forall i :: 0 <= i < |routes| ==> routes[i].0 != routeKey.value
    ensures FallbackVariable in env ==> GetUrlForRoute(routes, env, routeKey) == env[FallbackVariable]
    ensures FallbackVariable !in env ==> GetUrlForRoute(routes, env, routeKey) == ""
  {
  }

  /** Whether the decision procedure goes to the origin: forced, or a resolved read that missed. */
  predicate GoesToOrigin(store: Store, routeKey: RouteKey, overwrite: bool, a: Answers)
  {
    overwrite || (a.read.Resolves? && MakeCacheKey(routeKey.value).value !in store)
  }

  /**
   * The first half of `getOrFetchImageBytes` (the `RTE.chain` on the URL): the bytes that
   * the forced fetch, the cache hit or the fetch after a miss produced, and the events so far.
   */
  function Obtain(store: Store, cacheKey: CacheKey, url: string, overwrite: bool, a: Answers): (o: (Result<ImageBytes, CacheError>, seq<Event>))
    ensures overwrite ==> o == (FetchImageBytes(a.fetch, url), [OriginCall(url)])
    ensures !overwrite ==> |o.1| > 0 && o.1[0] == KvRead(cacheKey.value)
    ensures !overwrite && a.read.Rejects? ==> o == (Failure(MakeCacheError(ErrorOf(a.read.reason))), [KvRead(cacheKey.value)])
    ensures !overwrite && a.read.Resolves? && cacheKey.value in store ==>
              o == (Success(ImageBytes(store[cacheKey.value])), [KvRead(cacheKey.value)])
    ensures !overwrite && a.read.Resolves? && cacheKey.value !in store ==>
              o == (FetchImageBytes(a.fetch, url), [KvRead(cacheKey.value), OriginCall(url)])
  {
    if overwrite then
      (FetchImageBytes(a.fetch, url), [OriginCall(url)])
    else
      match GetCached(store, cacheKey, a.read)
      case Failure(e) => (Failure(e), [KvRead(cacheKey.value)])
      case Success(None) => (FetchImageBytes(a.fetch, url), [KvRead(cacheKey.value), OriginCall(url)])
      case Success(Some(cached)) => (Success(cached), [KvRead(cacheKey.value)])
  }

  /**
   * `getOrFetchImageBytes(routeKey, overwrite)` against `store`: obtain the bytes, then
   * (`RTE.chainFirst`) write whatever bytes were obtained back under the route's cache key.
   * A success of any branch, hit included, ends with the store mapping the route's cache
   * key to the returned bytes and no other key changed; a failure leaves the store as it was.
   */
  function GetOrFetch(routes: RouteTable, env: map<string, string>, store: Store, routeKey: RouteKey, overwrite: bool, a: Answers): (o: Outcome<ImageBytes>)
    ensures o.result.Success? ==> o.store == store[MakeCacheKey(routeKey.value).value := o.result.value.value]
    ensures o.result.Failure? ==> o.store == store
  {
    var cacheKey := MakeCacheKey(routeKey.value);
    var obtained := Obtain(store, cacheKey, GetUrlForRoute(routes, env, routeKey), overwrite, a);
    match obtained.0
    case Failure(e) => Outcome(Failure(e), store, obtained.1)
    case Success(bytes) =>
      var written := SetCached(store, cacheKey, bytes, a.write);
      var result := if written.0.Failure? then Failure(written.0.error) else Success(bytes);
      Outcome(result, written.1, obtained.1 + [KvWrite(cacheKey.value, bytes.value)])
  }

  /** The origin is asked exactly when the call is forced or the read missed, and then once. */
  lemma OriginCallsOfGetOrFetch(routes: RouteTable, env: map<string, string>, store: Store, routeKey: RouteKey, overwrite: bool, a: Answers)
    ensures OriginCalls(GetOrFetch(routes, env, store, routeKey, overwrite, a).events) ==
              if GoesToOrigin(store, routeKey, overwrite, a) then 1 else 0
  {
    var cacheKey := MakeCacheKey(routeKey.value);
    var obtained := Obtain(store, cacheKey, GetUrlForRoute(routes, env, routeKey), overwrite, a);
    OriginCallsAppend(obtained.1, [KvWrite(cacheKey.value, [])]);
    OriginCallsAppend(obtained.1, [KvWrite(cacheKey.value, if obtained.0.Success? then obtained.0.value.value else [])]);
    if !overwrite {
      assert obtained.1 == [KvRead(cacheKey.value)] || obtained.1 == [KvRead(cacheKey.value), OriginCall(GetUrlForRoute(routes, env, routeKey))];
      assert obtained.1[..1] == [KvRead(cacheKey.value)];
      OriginCallsAppend(obtained.1[..1], obtained.1[1..]);
      assert obtained.1[..1] + obtained.1[1..] == obtained.1;
    }
  }

  /** Forced: the store is never read, and the origin is asked once, first, for the route's URL. */
  lemma ForcedCallSkipsStore(routes: RouteTable, env: map<string, string>, store: Store, routeKey: RouteKey, a: Answers)
    ensures var o := GetOrFetch(routes, env, store, routeKey, true, a);
            NoReads(o.events) && OriginCalls(o.events) == 1 &&
            o.events[0] == OriginCall(GetUrlForRoute(routes, env, routeKey)) &&
            (o.result.Success? ==> o.result == FetchImageBytes(a.fetch, GetUrlForRoute(routes, env, routeKey)))
  {
    OriginCallsOfGetOrFetch(routes, env, store, routeKey, true, a);
  }

  /** Not forced: the first thing done is a read of the route's cache key. */
  lemma PlainCallReadsFirst(routes: RouteTable, env: map<string, string>, store: Store, routeKey: RouteKey, a: Answers)
    ensures var o := GetOrFetch(routes, env, store, routeKey, false, a);
            |o.events| > 0 && o.events[0] == KvRead(MakeCacheKey(routeKey.value).value)
  {
  }

  /** A hit is served from the store: the stored bytes, and no origin call. */
  lemma HitServesStoredBytes(routes: RouteTable, env: map<string, string>, store: Store, routeKey: RouteKey, a: Answers)
    requires a.read.Resolves? && MakeCacheKey(routeKey.value).value in store
    ensures var o := GetOrFetch(routes, env, store, routeKey, false, a);
            OriginCalls(o.events) == 0 &&
            (a.write.Resolves? ==> o.result == Success(ImageBytes(store[MakeCacheKey(routeKey.value).value])))
  {
    OriginCallsOfGetOrFetch(routes, env, store, routeKey, false, a);
  }

  /** A miss asks the origin once, for the route's URL, and returns exactly what it fetched. */
  lemma MissFetchesOnce(routes: RouteTable, env: map<string, string>, store: Store, routeKey: RouteKey, a: Answers)
    requires a.read.Resolves? && MakeCacheKey(routeKey.value).value !in store
    ensures var o := GetOrFetch(routes, env, store, routeKey, false, a);
            var url := GetUrlForRoute(routes, env, routeKey);
            OriginCalls(o.events) == 1 && o.events[1] == OriginCall(url) &&
            (o.result.Success? ==> o.result == FetchImageBytes(a.fetch, url))
  {
    OriginCallsOfGetOrFetch(routes, env, store, routeKey, false, a);
  }

  /** A failed read is fatal: a CacheError, no origin call and no write. */
  lemma ReadFailureIsFatal(routes: RouteTable, env: map<string, string>, store: Store, routeKey: RouteKey, a: Answers)
    requires a.read.Rejects?
    ensures var o := GetOrFetch(routes, env, store, routeKey, false, a);
            o.result == Failure(MakeCacheError(ErrorOf(a.read.reason))) &&
            o.events == [KvRead(MakeCacheKey(routeKey.value).value)] && o.store == store
  {
  }

  /** A failed fetch (forced or after a miss) is the call's error, and nothing is written. */
  lemma FetchFailurePropagates(routes: RouteTable, env: map<string, string>, store: Store, routeKey: RouteKey, overwrite: bool, a: Answers)
    requires GoesToOrigin(store, routeKey, overwrite, a)
    requires FetchImageBytes(a.fetch, GetUrlForRoute(routes, env, routeKey)).Failure?
    ensures var o := GetOrFetch(routes, env, store, routeKey, overwrite, a);
            o.result == FetchImageBytes(a.fetch, GetUrlForRoute(routes, env, routeKey)) &&
            o.result.error.FetchError? && o.store == store &&
            forall i :: 0 <= i < |o.events| ==> !o.events[i].KvWrite?
  {
  }

  /**
   * Whenever bytes were obtained (hit, miss or forced), they are written back under the
   * route's cache key as the call's last step; a rejected write makes the call a CacheError.
   */
  lemma ObtainedBytesAreWritten(routes: RouteTable, env: map<string, string>, store: Store, routeKey: RouteKey, overwrite: bool, a: Answers)
    requires Obtain(store, MakeCacheKey(routeKey.value), GetUrlForRoute(routes, env, routeKey), overwrite, a).0.Success?
    ensures var bytes := Obtain(store, MakeCacheKey(routeKey.value), GetUrlForRoute(routes, env, routeKey), overwrite, a).0.value;
            var o := GetOrFetch(routes, env, store, routeKey, overwrite, a);
            o.events[|o.events| - 1] == KvWrite(MakeCacheKey(routeKey.value).value, bytes.value) &&
            (a.write.Resolves? ==> o.result == Success(bytes)) &&
            (a.write.Rejects? ==> o.result == Failure(MakeCacheError(ErrorOf(a.write.reason))))
  {
  }

  /**
   * Two plain calls for the same route in a row, with the store answering both: the second
   * is served from the store, returns the same bytes and leaves the same store, and the
   * origin is asked at most once across both.
   */
  lemma GetOrFetchIdempotent(routes: RouteTable, env: map<string, string>, store: Store, routeKey: RouteKey, a1: Answers, a2: Answers)
    requires a1.write.Resolves? && a2.read.Resolves? && a2.write.Resolves?
    requires GetOrFetch(routes, env, store, routeKey, false, a1).result.Success?
    ensures var first := GetOrFetch(routes, env, store, routeKey, false, a1);
            var second := GetOrFetch(routes, env, first.store, routeKey, false, a2);
            second.result == first.result && second.store == first.store &&
            OriginCalls(second.events) == 0 && OriginCalls(first.events + second.events) <= 1
  {
    var first := GetOrFetch(routes, env, store, routeKey, false, a1);
    var second := GetOrFetch(routes, env, first.store, routeKey, false, a2);
    HitServesStoredBytes(routes, env, first.store, routeKey, a2);
    OriginCallsOfGetOrFetch(routes, env, store, routeKey, false, a1);
    OriginCallsAppend(first.events, second.events);
  }

  /** A forced refresh is what a following plain call sees: the freshly fetched bytes, without a fetch. */
  lemma OverwriteThenRead(routes: RouteTable, env: map<string, string>, store: Store, routeKey: RouteKey, a1: Answers, a2: Answers)
    requires a2.read.Resolves? && a2.write.Resolves?
    requires GetOrFetch(routes, env, store, routeKey, true, a1).result.Success?
    ensures var forced := GetOrFetch(routes, env, store, routeKey, true, a1);
            var plain := GetOrFetch(routes, env, forced.store, routeKey, false, a2);
            forced.result.value == FetchImageBytes(a1.fetch, GetUrlForRoute(routes, env, routeKey)).value &&
            plain.result == forced.result && OriginCalls(plain.events) == 0
  {
    var forced := GetOrFetch(routes, env, store, routeKey, true, a1);
    ForcedCallSkipsStore(routes, env, store, routeKey, a1);
    HitServesStoredBytes(routes, env, forced.store, routeKey, a2);
  }

  /** One route's `ReaderTaskEither`, as a function of the store it meets when it runs. */
  type Task = Store -> Outcome<ImageBytes>

  /**
   * `A.sequence(RTE.ApplicativeSeq)` over the first `n` tasks: each runs on the store the
   * previous one left, results are collected in order, and the first failure stops the run
   * with the store and events it had reached.
   */
  function Sequence(tasks: seq<Task>, store: Store, n: nat): (o: Outcome<seq<ImageBytes>>)
    requires n <= |tasks|
    ensures o.result.Success? ==> |o.result.value| == n
  {
    if n == 0 then Outcome(Success([]), store, [])
    else
      var before := Sequence(tasks, store, n - 1);
      if before.result.Failure? then before
      else
        var step := tasks[n - 1](before.store);
        var result := if step.result.Failure? then Failure(step.result.error) else Success(before.result.value + [step.result.value]);
        Outcome(result, step.store, before.events + step.events)
  }

  /** One more task: the run of `n + 1` tasks in terms of the run of `n`. */
  lemma SequenceExtend(tasks: seq<Task>, store: Store, n: nat)
    requires n < |tasks|
    requires Sequence(tasks, store, n).result.Success?
    ensures var before := Sequence(tasks, store, n);
            var step := tasks[n](before.store);
            Sequence(tasks, store, n + 1) ==
              Outcome(if step.result.Failure? then Failure(step.result.error) else Success(before.result.value + [step.result.value]),
                      step.store, before.events + step.events)
  {
  }

  /** The loop step of a refresh: running task `i` on the store the run has reached extends the run, or ends it. */
  lemma SequenceStep(tasks: seq<Task>, store: Store, i: nat, results: seq<ImageBytes>, reached: Store, events: seq<Event>, step: Outcome<ImageBytes>)
    requires i < |tasks|
    requires Sequence(tasks, store, i) == Outcome(Success(results), reached, events)
    requires step == tasks[i](reached)
    ensures step.result.Success? ==>
              Sequence(tasks, store, i + 1) == Outcome(Success(results + [step.result.value]), step.store, events + step.events)
    ensures step.result.Failure? ==>
              Sequence(tasks, store, |tasks|) == Outcome(Failure(step.result.error), step.store, events + step.events)
  {
    if step.result.Failure? {
      FailureSticks(tasks, store, i + 1, |tasks|);
    }
  }

  /** What task `i` does when its turn comes: it runs on the store the tasks before it left. */
  function StepAt(tasks: seq<Task>, store: Store, i: nat): Outcome<ImageBytes>
    requires i < |tasks|
  {
    tasks[i](Sequence(tasks, store, i).store)
  }

  /** Once a prefix has failed, longer prefixes change nothing: later tasks are not run. */
  lemma {:induction false} FailureSticks(tasks: seq<Task>, store: Store, n: nat, m: nat)
    requires n <= m <= |tasks|
    requires Sequence(tasks, store, n).result.Failure?
    ensures Sequence(tasks, store, m) == Sequence(tasks, store, n)
    decreases m
  {
    if m > n {
      FailureSticks(tasks, store, n, m - 1);
    }
  }

  /** How a successful run of `n + 1` tasks extends the run of `n`. */
  lemma StepFacts(tasks: seq<Task>, store: Store, n: nat)
    requires n < |tasks|
    requires Sequence(tasks, store, n + 1).result.Success?
    ensures var before := Sequence(tasks, store, n);
            var step := StepAt(tasks, store, n);
            var after := Sequence(tasks, store, n + 1);
            before.result.Success? && step.result.Success? &&
            after.result.value == before.result.value + [step.result.value] &&
            after.store == step.store && after.events == before.events + step.events
  {
  }

  /** After a successful run, result `j` is what task `j` returned when its turn came. */
  lemma {:induction false} SequenceResults(tasks: seq<Task>, store: Store, n: nat)
    requires n <= |tasks|
    requires Sequence(tasks, store, n).result.Success?
    ensures forall j :: 0 <= j < n ==> StepAt(tasks, store, j).result == Success(Sequence(tasks, store, n).result.value[j])
  {
    if n > 0 {
      StepFacts(tasks, store, n - 1);
      SequenceResults(tasks, store, n - 1);
      var o := Sequence(tasks, store, n);
      var before := Sequence(tasks, store, n - 1);
      forall j | 0 <= j < n - 1
        ensures StepAt(tasks, store, j).result == Success(o.result.value[j])
      {
        assert o.result.value[j] == before.result.value[j];
      }
    }
  }

  /**
   * When each task, on success, writes its result under its own key, and the keys are
   * distinct, a successful run leaves every task's result in the store under its key.
   */
  lemma {:induction false} SequenceStoresEach(tasks: seq<Task>, keys: seq<KvKey>, store: Store, n: nat)
    requires n <= |tasks| == |keys|
    requires forall i, j :: 0 <= i < j < |keys| ==> keys[i] != keys[j]
    requires forall i, s :: 0 <= i < |tasks| && tasks[i](s).result.Success? ==>
               tasks[i](s).store == s[keys[i] := tasks[i](s).result.value.value]
    requires Sequence(tasks, store, n).result.Success?
    ensures var o := Sequence(tasks, store, n);
            forall j :: 0 <= j < n ==> keys[j] in o.store && o.store[keys[j]] == o.result.value[j].value
  {
    if n > 0 {
      StepFacts(tasks, store, n - 1);
      SequenceStoresEach(tasks, keys, store, n - 1);
      var o := Sequence(tasks, store, n);
      var before := Sequence(tasks, store, n - 1);
      var step := StepAt(tasks, store, n - 1);
      assert o.store == before.store[keys[n - 1] := step.result.value.value];
      forall j | 0 <= j < n
        ensures keys[j] in o.store && o.store[keys[j]] == o.result.value[j].value
      {
        if j < n - 1 {
          assert o.result.value[j] == before.result.value[j];
        }
      }
    }
  }

  /**
   * A failed run failed at some task `k`: every earlier task succeeded, the error is task
   * `k`'s, no later task ran, and the store keeps what the earlier tasks wrote.
   */
  lemma {:induction false} SequenceStopsAtFirstFailure(tasks: seq<Task>, store: Store, n: nat) returns (k: nat)
    requires n <= |tasks|
    requires Sequence(tasks, store, n).result.Failure?
    ensures k < n
    ensures Sequence(tasks, store, k).result.Success?
    ensures var o := Sequence(tasks, store, n);
            var failed := StepAt(tasks, store, k);
            failed.result.Failure? && o.result.error == failed.result.error &&
            o.events == Sequence(tasks, store, k).events + failed.events &&
            o.store == failed.store
  {
    if Sequence(tasks, store, n - 1).result.Failure? {
      k := SequenceStopsAtFirstFailure(tasks, store, n - 1);
    } else {
      k := n - 1;
    }
  }

  /** `processRouteEntry(overwrite)([key, _])`: the decision procedure for the entry's route name. */
  function RouteEntryTask(routes: RouteTable, env: map<string, string>, overwrite: bool, entry: (string, string), a: Answers): Task
  {
    (s: Store) => GetOrFetch(routes, env, s, MakeRouteKey(entry.0), overwrite, a)
  }

  /**
   * The entry's URL is ignored (`[key, _]`): two entries with the same route name give the
   * same task, and the URL fetched is the one the table lookup finds.
   */
  lemma RouteEntryIgnoresUrl(routes: RouteTable, env: map<string, string>, overwrite: bool, name: string, url1: string, url2: string, a: Answers)
    ensures RouteEntryTask(routes, env, overwrite, (name, url1), a) == RouteEntryTask(routes, env, overwrite, (name, url2), a)
  {
  }

  /** `A.map(processRouteEntry(overwrite))` over the entries from position `i` on; route `j` meets `answers(j)`. */
  function RouteTasksFrom(routes: RouteTable, env: map<string, string>, overwrite: bool, answers: nat -> Answers, i: nat): (tasks: seq<Task>)
    requires i <= |routes|
    ensures |tasks| == |routes| - i
    decreases |routes| - i
  {
    if i == |routes| then []
    else [RouteEntryTask(routes, env, overwrite, routes[i], answers(i))] + RouteTasksFrom(routes, env, overwrite, answers, i + 1)
  }

  /** `A.map(processRouteEntry(overwrite))` over `Object.entries(routes)`. */
  function RouteTasks(routes: RouteTable, env: map<string, string>, overwrite: bool, answers: nat -> Answers): (tasks: seq<Task>)
    ensures |tasks| == |routes|
  {
    RouteTasksFrom(routes, env, overwrite, answers, 0)
  }

  lemma {:induction false} RouteTasksFromIs(routes: RouteTable, env: map<string, string>, overwrite: bool, answers: nat -> Answers, i: nat, j: nat)
    requires i <= j < |routes|
    ensures RouteTasksFrom(routes, env, overwrite, answers, i)[j - i] == RouteEntryTask(routes, env, overwrite, routes[j], answers(j))
    decreases j - i
  {
    if i < j {
      RouteTasksFromIs(routes, env, overwrite, answers, i + 1, j);
    }
  }

  /** Task `j` of the refresh is `processRouteEntry` applied to entry `j`. */
  lemma RouteTaskIs(routes: RouteTable, env: map<string, string>, overwrite: bool, answers: nat -> Answers, j: nat)
    requires j < |routes|
    ensures RouteTasks(routes, env, overwrite, answers)[j] == RouteEntryTask(routes, env, overwrite, routes[j], answers(j))
  {
    RouteTasksFromIs(routes, env, overwrite, answers, 0, j);
  }

  /** Task `j` of the refresh is the decision procedure for route `j`, run on whatever store it meets. */
  lemma RouteTaskAt(routes: RouteTable, env: map<string, string>, overwrite: bool, answers: nat -> Answers, j: nat, s: Store)
    requires j < |routes|
    ensures RouteTasks(routes, env, overwrite, answers)[j](s) == GetOrFetch(routes, env, s, MakeRouteKey(routes[j].0), overwrite, answers(j))
  {
    RouteTaskIs(routes, env, overwrite, answers, j);
  }

  /** The cache keys of the table's routes, in table order. */
  function RouteCacheKeys(routes: RouteTable): (keys: seq<KvKey>)
    ensures |keys| == |routes|
    ensures forall i :: 0 <= i < |routes| ==> keys[i] == MakeCacheKey(routes[i].0).value
    ensures forall i, j :: 0 <= i < j < |keys| ==> keys[i] != keys[j]
  {
    var keys := seq(|routes|, i requires 0 <= i < |routes| => MakeCacheKey(routes[i].0).value);
    assert forall i, j :: 0 <= i < j < |keys| ==> routes[i].0 != routes[j].0;
    keys
  }

  /** `processAllRoutes(overwrite)`: every entry of the table, in `Object.entries` order. */
  function ProcessAll(routes: RouteTable, env: map<string, string>, store: Store, overwrite: bool, answers: nat -> Answers): (o: Outcome<seq<ImageBytes>>)
    ensures o.result.Success? ==> |o.result.value| == |routes|
  {
    Sequence(RouteTasks(routes, env, overwrite, answers), store, |routes|)
  }

  /**
   * A successful refresh returns one result per route, in table order, each what that
   * route's decision procedure returned when its turn came, and each stored under that
   * route's cache key.
   */
  lemma RefreshResultsPerRoute(routes: RouteTable, env: map<string, string>, store: Store, overwrite: bool, answers: nat -> Answers)
    requires ProcessAll(routes, env, store, overwrite, answers).result.Success?
    ensures var tasks := RouteTasks(routes, env, overwrite, answers);
            var o := ProcessAll(routes, env, store, overwrite, answers);
            forall j :: 0 <= j < |routes| ==>
              GetOrFetch(routes, env, Sequence(tasks, store, j).store, MakeRouteKey(routes[j].0), overwrite, answers(j)).result == Success(o.result.value[j]) &&
              MakeCacheKey(routes[j].0).value in o.store &&
              o.store[MakeCacheKey(routes[j].0).value] == o.result.value[j].value
  {
    var tasks := RouteTasks(routes, env, overwrite, answers);
    var keys := RouteCacheKeys(routes);
    forall i, s | 0 <= i < |tasks| && tasks[i](s).result.Success?
      ensures tasks[i](s).store == s[keys[i] := tasks[i](s).result.value.value]
    {
      RouteTaskAt(routes, env, overwrite, answers, i, s);
    }
    SequenceResults(tasks, store, |routes|);
    SequenceStoresEach(tasks, keys, store, |routes|);
    forall j | 0 <= j < |routes|
      ensures GetOrFetch(routes, env, Sequence(tasks, store, j).store, MakeRouteKey(routes[j].0), overwrite, answers(j)) == StepAt(tasks, store, j)
    {
      RouteTaskAt(routes, env, overwrite, answers, j, Sequence(tasks, store, j).store);
    }
  }

  /**
   * A failed refresh failed at some route `k`: every earlier route succeeded, the error is
   * route `k`'s, no later route was attempted, and the writes of earlier routes remain.
   */
  lemma RefreshStopsAtFirstFailure(routes: RouteTable, env: map<string, string>, store: Store, overwrite: bool, answers: nat -> Answers) returns (k: nat)
    requires ProcessAll(routes, env, store, overwrite, answers).result.Failure?
    ensures k < |routes|
    ensures var tasks := RouteTasks(routes, env, overwrite, answers);
            var before := Sequence(tasks, store, k);
            var failed := GetOrFetch(routes, env, before.store, MakeRouteKey(routes[k].0), overwrite, answers(k));
            var o := ProcessAll(routes, env, store, overwrite, answers);
            before.result.Success? && failed.result.Failure? && o.result.error == failed.result.error &&
            o.events == before.events + failed.events && o.store == before.store
  {
    var tasks := RouteTasks(routes, env, overwrite, answers);
    k := SequenceStopsAtFirstFailure(tasks, store, |routes|);
    RouteTaskAt(routes, env, overwrite, answers, k, Sequence(tasks, store, k).store);
  }

  /** Route `i` of a forced refresh: no read, one origin call, and on success the body of the route's own URL. */
  lemma ForcedRouteStep(routes: RouteTable, env: map<string, string>, store: Store, answers: nat -> Answers, i: nat)
    requires i < |routes|
    ensures var step := StepAt(RouteTasks(routes, env, true, answers), store, i);
            NoReads(step.events) && OriginCalls(step.events) == 1 &&
            (step.result.Success? ==> FetchImageBytes(answers(i).fetch, routes[i].1) == step.result)
  {
    var s := Sequence(RouteTasks(routes, env, true, answers), store, i).store;
    RouteTaskAt(routes, env, true, answers, i, s);
    ForcedCallSkipsStore(routes, env, s, MakeRouteKey(routes[i].0), answers(i));
    UrlOfListedRoute(routes, env, i);
  }

  /**
   * A successful forced refresh of the first `n` routes never read the store and asked the
   * origin once per route, each time for that route's own URL, and returned what it fetched.
   */
  lemma {:induction false} ForcedRefreshFetches(routes: RouteTable, env: map<string, string>, store: Store, answers: nat -> Answers, n: nat)
    requires n <= |routes|
    requires Sequence(RouteTasks(routes, env, true, answers), store, n).result.Success?
    ensures var o := Sequence(RouteTasks(routes, env, true, answers), store, n);
            NoReads(o.events) && OriginCalls(o.events) == n &&
            forall j :: 0 <= j < n ==> FetchImageBytes(answers(j).fetch, routes[j].1) == Success(o.result.value[j])
  {
    var tasks := RouteTasks(routes, env, true, answers);
    if n > 0 {
      StepFacts(tasks, store, n - 1);
      ForcedRefreshFetches(routes, env, store, answers, n - 1);
      var o := Sequence(tasks, store, n);
      var before := Sequence(tasks, store, n - 1);
      var step := StepAt(tasks, store, n - 1);
      ForcedRouteStep(routes, env, store, answers, n - 1);
      assert FetchImageBytes(answers(n - 1).fetch, routes[n - 1].1) == Success(o.result.value[n - 1]);
      forall j | 0 <= j < n - 1
        ensures FetchImageBytes(answers(j).fetch, routes[j].1) == Success(o.result.value[j])
      {
        assert o.result.value[j] == before.result.value[j];
      }
      OriginCallsAppend(before.events, step.events);
      NoReadsAppend(before.events, step.events);
    }
  }

  /**
   * A successful forced refresh of the whole table never read the store, asked the origin
   * once per route for the route's URL, and left each freshly fetched body in the store.
   */
  lemma ForcedRefreshStoresFreshBytes(routes: RouteTable, env: map<string, string>, store: Store, answers: nat -> Answers)
    requires ProcessAll(routes, env, store, true, answers).result.Success?
    ensures var o := ProcessAll(routes, env, store, true, answers);
            NoReads(o.events) && OriginCalls(o.events) == |routes| &&
            forall j :: 0 <= j < |routes| ==>
              FetchImageBytes(answers(j).fetch, routes[j].1) == Success(o.result.value[j]) &&
              MakeCacheKey(routes[j].0).value in o.store &&
              o.store[MakeCacheKey(routes[j].0).value] == o.result.value[j].value
  {
    ForcedRefreshFetches(routes, env, store, answers, |routes|);
    RefreshResultsPerRoute(routes, env, store, true, answers);
  }

  /** `getOrFetchImageBytes`: the decision procedure, changing the store in place. */
  method GetOrFetchImageBytes(deps: Deps, routeKey: RouteKey, shouldOverwrite: bool, a: Answers) returns (r: Result<ImageBytes, CacheError>)
    modifies deps
    ensures var o := GetOrFetch(deps.config, deps.env, old(deps.kv), routeKey, shouldOverwrite, a);
            r == o.result && deps.kv == o.store && deps.trace == old(deps.trace) + o.events
  {
    var cacheKey := MakeCacheKey(routeKey.value);
    var url := GetUrlForRoute(deps.config, deps.env, routeKey);
    var obtained: Result<ImageBytes, CacheError>;
    if shouldOverwrite {
      deps.trace := deps.trace + [OriginCall(url)];
      obtained := FetchImageBytes(a.fetch, url);
    } else {
      var cached := GetCachedBytes(deps, cacheKey, a.read);
      match cached
      case Failure(e) =>
        obtained := Failure(e);
      case Success(None) =>
        deps.trace := deps.trace + [OriginCall(url)];
        obtained := FetchImageBytes(a.fetch, url);
      case Success(Some(bytes)) =>
        obtained := Success(bytes);
    }
    if obtained.Success? {
      var written := SetCachedBytes(deps, cacheKey, obtained.value, a.write);
      r := if written.Failure? then Failure(written.error) else obtained;
    } else {
      r := obtained;
    }
  }

  /** `processRouteEntry(overwrite)([key, _])`, run against `deps`. */
  method ProcessRouteEntry(deps: Deps, shouldOverwrite: bool, entry: (string, string), a: Answers) returns (r: Result<ImageBytes, CacheError>)
    modifies deps
    ensures var o := RouteEntryTask(deps.config, deps.env, shouldOverwrite, entry, a)(old(deps.kv));
            r == o.result && deps.kv == o.store && deps.trace == old(deps.trace) + o.events
  {
    r := GetOrFetchImageBytes(deps, MakeRouteKey(entry.0), shouldOverwrite, a);
  }

  /** `processAllRoutes`: the routes one at a time, in table order, stopping at the first failure. */
  method ProcessAllRoutes(deps: Deps, shouldOverwrite: bool, answers: nat -> Answers) returns (r: Result<seq<ImageBytes>, CacheError>)
    modifies deps
    ensures var o := ProcessAll(deps.config, deps.env, old(deps.kv), shouldOverwrite, answers);
            r == o.result && deps.kv == o.store && deps.trace == old(deps.trace) + o.events
  {
    var entries := deps.config;
    ghost var tasks := RouteTasks(entries, deps.env, shouldOverwrite, answers);
    ghost var events: seq<Event> := [];
    var results: seq<ImageBytes> := [];
    var i := 0;
    while i < |entries|
      invariant i <= |entries|
      invariant Sequence(tasks, old(deps.kv), i) == Outcome(Success(results), deps.kv, events)
      invariant deps.trace == old(deps.trace) + events
    {
      RouteTaskIs(entries, deps.env, shouldOverwrite, answers, i);
      ghost var step := tasks[i](deps.kv);
      SequenceStep(tasks, old(deps.kv), i, results, deps.kv, events, step);
      var bytes := ProcessRouteEntry(deps, shouldOverwrite, entries[i], answers(i));
      AppendAssociative(old(deps.trace), events, step.events);
      events := events + step.events;
      if bytes.Failure? {
        return Failure(bytes.error);
      }
      results := results + [bytes.value];
      i := i + 1;
    }
    r := Success(results);
  }
}
