/** The closed error taxonomy of the service (source/domain/errors.ts). */
module Errors {

  /** A JavaScript `Error`; only its `message` is ever observed. */
  datatype Error = Error(message: string)

  /**
   * The two-variant tagged union: `FetchError` when the origin could not deliver,
   * `CacheError` when the key-value store failed. The constructor names are the `_tag`s.
   */
  datatype CacheError = FetchError(error: Error) | CacheError(error: Error)

  /** The `_tag` string of an error value. */
  function Tag(e: CacheError): (t: string)
    ensures t == "FetchError" || t == "CacheError"
    ensures t == "FetchError" <==> e.FetchError?
  {
    match e
    case FetchError(_) => "FetchError"
    case CacheError(_) => "CacheError"
  }

  function MakeFetchError(error: Error): (r: CacheError)
    ensures r.FetchError? && Tag(r) == "FetchError" && r.error == error
  {
    FetchError(error)
  }

  function MakeCacheError(error: Error): (r: CacheError)
    ensures r.CacheError? && Tag(r) == "CacheError" && r.error == error
  {
    CacheError(error)
  }

  /**
   * `new Error(String(reason))`: a caught rejection becomes an Error whose message is
   * the rejection's string form. `reason` is that string form already.
   */
  function ErrorOf(reason: string): (e: Error)
    ensures e.message == reason
  {
    Error(reason)
  }

  /**
   * `String(e)` of a JavaScript `Error`: its name "Error", a colon, a space and its message,
   * as `Error.prototype.toString` gives for an Error with a non-empty message.
   */
  function ErrorToString(e: Error): string
  {
    "Error: " + e.message
  }

  /** Every error value carries exactly one of the two tags. */
  lemma TaxonomyClosed(e: CacheError)
    ensures e.FetchError? != e.CacheError?
    ensures Tag(e) == "FetchError" || Tag(e) == "CacheError"
  {
  }

  /** The two constructors never produce the same value, whatever they wrap. */
  lemma ConstructorsDisjoint(a: Error, b: Error)
    ensures MakeFetchError(a) != MakeCacheError(b)
    ensures Tag(MakeFetchError(a)) != Tag(MakeCacheError(b))
  {
  }
}
