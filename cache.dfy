/**
 * The cache store of source/infra/cache.ts: reading and writing image bytes in the Deno KV
 * database under a cache key, with every store failure classified as a `CacheError`.
 */
module Cache {
  import opened Wrappers
  import opened Types
  import opened Errors

  /**
   * How the KV database answers one call: it resolves, or it rejects. `reason` is the
   * rejection's string form, `String(reason)`.
   */
  datatype KvAnswer = Resolves | Rejects(reason: string)

  /** `Deno.KvCommitResult`: the acknowledgement of a committed write (its versionstamp is opaque). */
  datatype Commit = Commit

  /** `kv.get(key)`: the entry's `value`, or `None` where the entry's value is `null`. */
  function KvValue(store: Store, key: KvKey): (v: Option<seq<byte>>)
    ensures v.Some? <==> key in store
    ensures v.Some? ==> v.value == store[key]
  {
    if key in store then Some(store[key]) else None
  }

  /**
   * What `getCachedBytes` yields against `store` when the database answers `answer`:
   * a rejection becomes a `CacheError`; otherwise `Some` of the stored bytes, or `None`.
   */
  function GetCached(store: Store, key: CacheKey, answer: KvAnswer): (r: Result<Option<ImageBytes>, CacheError>)
    ensures r.Failure? <==> answer.Rejects?
    ensures r.Failure? ==> r.error == MakeCacheError(ErrorOf(answer.reason))
    ensures r.Success? ==> (r.value.Some? <==> key.value in store)
    ensures r.Success? && r.value.Some? ==> r.value.value.value == store[key.value]
  {
    match answer
    case Rejects(reason) => Failure(MakeCacheError(ErrorOf(reason)))
    case Resolves =>
      match KvValue(store, key.value)
      case None => Success(None)
      case Some(buffer) => Success(Some(MakeImageBytes(buffer)))
  }

  /**
   * What `setCachedBytes` yields and leaves behind: a resolved write stores the bytes
   * under the key and touches no other key; a rejected write changes nothing.
   */
  function SetCached(store: Store, key: CacheKey, bytes: ImageBytes, answer: KvAnswer): (w: (Result<Commit, CacheError>, Store))
    ensures w.0.Failure? <==> answer.Rejects?
    ensures w.0.Failure? ==> w.0.error == MakeCacheError(ErrorOf(answer.reason)) && w.1 == store
    ensures w.0.Success? ==> key.value in w.1 && w.1[key.value] == bytes.value
    ensures w.0.Success? ==> w.1.Keys == store.Keys + {key.value}
    ensures w.0.Success? ==> forall k :: k in store && k != key.value ==> w.1[k] == store[k]
  {
    match answer
    case Rejects(reason) => (Failure(MakeCacheError(ErrorOf(reason))), store)
    case Resolves => (Success(Commit), store[key.value := bytes.value])
  }

  /** After a resolved write of `bytes` under `key`, a resolved read of `key` returns `bytes`. */
  lemma SetThenGet(store: Store, key: CacheKey, bytes: ImageBytes)
    ensures GetCached(SetCached(store, key, bytes, Resolves).1, key, Resolves) == Success(Some(bytes))
  {
  }

  /** A write under one key is invisible to reads of every other key. */
  lemma SetLeavesOtherKeys(store: Store, key: CacheKey, other: CacheKey, bytes: ImageBytes, write: KvAnswer, read: KvAnswer)
    requires other != key
    ensures GetCached(SetCached(store, key, bytes, write).1, other, read) == GetCached(store, other, read)
  {
    assert other.value != key.value;
  }

  /** `getCachedBytes`: reads the store, records the read, and leaves the store as it was. */
  method GetCachedBytes(deps: Deps, key: CacheKey, answer: KvAnswer) returns (r: Result<Option<ImageBytes>, CacheError>)
    modifies deps`trace
    ensures r == GetCached(deps.kv, key, answer)
    ensures deps.kv == old(deps.kv)
    ensures deps.trace == old(deps.trace) + [KvRead(key.value)]
  {
    deps.trace := deps.trace + [KvRead(key.value)];
    if answer.Rejects? {
      r := Failure(MakeCacheError(ErrorOf(answer.reason)));
    } else if key.value in deps.kv {
      r := Success(Some(MakeImageBytes(deps.kv[key.value])));
    } else {
      r := Success(None);
    }
  }

  /** `setCachedBytes`: writes the bytes in place, unless the database rejects the write. */
  method SetCachedBytes(deps: Deps, key: CacheKey, bytes: ImageBytes, answer: KvAnswer) returns (r: Result<Commit, CacheError>)
    modifies deps`kv, deps`trace
    ensures (r, deps.kv) == SetCached(old(deps.kv), key, bytes, answer)
    ensures deps.trace == old(deps.trace) + [KvWrite(key.value, bytes.value)]
  {
    deps.trace := deps.trace + [KvWrite(key.value, bytes.value)];
    if answer.Rejects? {
      r := Failure(MakeCacheError(ErrorOf(answer.reason)));
    } else {
      deps.kv := deps.kv[key.value := bytes.value];
      r := Success(Commit);
    }
  }
}
