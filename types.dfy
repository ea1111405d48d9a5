/**
 * The domain records of source/domain/types.ts, the route table of config.ts and the
 * `Dependencies` record every operation runs against.
 */
module Types {
  import opened Wrappers

  /** One byte of an `ArrayBuffer`. */
  newtype byte = x: int | 0 <= x < 256

  /** A Deno KV key: a sequence of key parts. */
  type KvKey = seq<string>

  /** The contents of the Deno KV database: every stored key and its byte payload. */
  type Store = map<KvKey, seq<byte>>

  /** The namespace every cache key is filed under. */
  const CacheNamespace: string := "cache"

  /** `readonly ["cache", string]`: a two-part key in the cache namespace. */
  type CacheKeyValue = k: KvKey | |k| == 2 && k[0] == CacheNamespace witness [CacheNamespace, ""]

  datatype CacheKey = CacheKey(value: CacheKeyValue)

  datatype ImageBytes = ImageBytes(value: seq<byte>)

  datatype RouteKey = RouteKey(value: string)

  function MakeCacheKey(key: string): (k: CacheKey)
    ensures |k.value| == 2 && k.value[0] == CacheNamespace && k.value[1] == key
  {
    CacheKey([CacheNamespace, key])
  }

  function MakeImageBytes(buffer: seq<byte>): (b: ImageBytes)
    ensures b.value == buffer
  {
    ImageBytes(buffer)
  }

  function MakeRouteKey(key: string): (k: RouteKey)
    ensures k.value == key
  {
    RouteKey(key)
  }

  /** The route a cache key names: its second part. */
  function RouteOfCacheKey(k: CacheKey): string
  {
    k.value[1]
  }

  /** A cache key determines the route it was made from, so distinct routes never share a key. */
  lemma CacheKeyRoundTrip(key: string)
    ensures RouteOfCacheKey(MakeCacheKey(key)) == key
  {
  }

  lemma MakeCacheKeyInjective(a: string, b: string)
    ensures MakeCacheKey(a) == MakeCacheKey(b) <==> a == b
  {
    if MakeCacheKey(a) == MakeCacheKey(b) {
      CacheKeyRoundTrip(a);
      CacheKeyRoundTrip(b);
    }
  }

  /** Every cache key is the cache key of the route it names. */
  lemma CacheKeyOfRoute(k: CacheKey)
    ensures MakeCacheKey(RouteOfCacheKey(k)) == k
  {
    assert k.value == [k.value[0], k.value[1]];
  }

  /** The keys of a JavaScript object are pairwise distinct. */
  predicate DistinctKeys(entries: seq<(string, string)>)
  {
    forall i, j :: 0 <= i < j < |entries| ==> entries[i].0 != entries[j].0
  }

  /**
   * The `routes` record of the configuration, as `Object.entries` lists it: route name
   * and origin URL, in enumeration order.
   */
  type RouteTable = entries: seq<(string, string)> | DistinctKeys(entries) witness []

  /** `routes[key]`: the URL the table holds for `key`, if any. */
  function Lookup(entries: seq<(string, string)>, key: string): (r: Option<string>)
    ensures r.Some? ==> exists i :: 0 <= i < |entries| && entries[i] == (key, r.value)
    ensures r.None? ==> forall i :: 0 <= i < |entries| ==> entries[i].0 != key
  {
    if |entries| == 0 then None
    else if entries[0].0 == key then Some(entries[0].1)
    else
      var r := Lookup(entries[1..], key);
      assert r.None? ==> forall i :: 1 <= i < |entries| ==> entries[i] == entries[1..][i - 1];
      r
  }

  /** In a table with distinct keys, looking up a listed route yields that route's own URL. */
  lemma {:induction false} LookupListed(entries: RouteTable, i: nat)
    requires i < |entries|
    ensures Lookup(entries, entries[i].0) == Some(entries[i].1)
  {
    var r := Lookup(entries, entries[i].0);
    assert r.Some?;
    var j :| 0 <= j < |entries| && entries[j] == (entries[i].0, r.value);
    assert j == i;
  }

  /** What the program did to the outside world: a KV read, a KV write or an origin fetch. */
  datatype Event = KvRead(key: KvKey) | KvWrite(key: KvKey, bytes: seq<byte>) | OriginCall(url: string)

  /** The number of origin fetches in a trace. */
  function OriginCalls(events: seq<Event>): (n: nat)
    ensures n <= |events|
    ensures n == 0 <==> forall i :: 0 <= i < |events| ==> !events[i].OriginCall?
  {
    if |events| == 0 then 0
    else
      var rest := OriginCalls(events[1..]);
      assert forall i :: 1 <= i < |events| ==> events[i] == events[1..][i - 1];
      (if events[0].OriginCall? then 1 else 0) + rest
  }

  lemma {:induction false} OriginCallsAppend(a: seq<Event>, b: seq<Event>)
    ensures OriginCalls(a + b) == OriginCalls(a) + OriginCalls(b)
  {
    if |a| > 0 {
      assert (a + b)[1..] == a[1..] + b;
      OriginCallsAppend(a[1..], b);
    } else {
      assert a + b == b;
    }
  }

  /**
   * Regrouping a trace extension. Stated once as a lemma: the loop of a refresh that asserts
   * it inline costs the solver about twice as much.
   */
  lemma AppendAssociative(a: seq<Event>, b: seq<Event>, c: seq<Event>)
    ensures (a + b) + c == a + (b + c)
  {
  }

  /** True when a trace never reads the store. */
  predicate NoReads(events: seq<Event>)
  {
    forall i :: 0 <= i < |events| ==> !events[i].KvRead?
  }

  lemma NoReadsAppend(a: seq<Event>, b: seq<Event>)
    ensures NoReads(a + b) <==> NoReads(a) && NoReads(b)
  {
    if NoReads(a) && NoReads(b) {
      forall i | 0 <= i < |a + b|
        ensures !(a + b)[i].KvRead?
      {
        if i < |a| {
          assert (a + b)[i] == a[i];
        } else {
          assert (a + b)[i] == b[i - |a|];
        }
      }
    }
    if NoReads(a + b) {
      forall i | 0 <= i < |a|
        ensures !a[i].KvRead?
      {
        assert a[i] == (a + b)[i];
      }
      forall i | 0 <= i < |b|
        ensures !b[i].KvRead?
      {
        assert b[i] == (a + b)[|a| + i];
      }
    }
  }

  /**
   * The `Dependencies` record: the route configuration, the process environment, the
   * Deno KV database (whose contents the program changes) and, as ghost state, the trace
   * of everything the program asked of the store and the origin. The `fetch` capability
   * and the store's failures are oracles handed to each operation.
   */
  class Deps {
    const config: RouteTable
    const env: map<string, string>
    var kv: Store
    ghost var trace: seq<Event>

    constructor (config: RouteTable, env: map<string, string>, kv: Store)
      ensures this.config == config && this.env == env && this.kv == kv && trace == []
    {
      this.config := config;
      this.env := env;
      this.kv := kv;
      trace := [];
    }
  }
}
