/**
 * The origin fetcher of source/infra/http.ts: one GET against a URL, a status check, a
 * read of the whole body, and every failure classified as a `FetchError`.
 */
module Fetch {
  import opened Wrappers
  import opened Types
  import opened Errors

  /** What reading the response body (`response.arrayBuffer()`) gives: the bytes, or a rejection. */
  datatype BodyRead = Body(bytes: seq<byte>) | BodyRejects(reason: string)

  /**
   * The origin's answer to `fetch(url)`: the call throws or rejects (with the string form
   * of the reason), or a response arrives with a status, a status text and a body.
   */
  datatype OriginResponse =
    | Threw(reason: string)
    | Responded(status: nat, statusText: string, body: BodyRead)

  /** `response.ok`: the status is in the range 200 to 299. */
  predicate IsOk(status: nat)
  {
    200 <= status <= 299
  }

  /** The ok statuses are exactly the success class, the statuses whose first digit is 2. */
  lemma OkIsSuccessClass(status: nat)
    ensures IsOk(status) <==> status / 100 == 2
  {
  }

  function DigitChar(d: nat): (c: char)
    requires d < 10
    ensures '0' <= c <= '9'
  {
    "0123456789"[d]
  }

  /** The decimal form of a number, as a template literal prints it. */
  function NatToString(n: nat): (s: string)
    ensures |s| > 0
    ensures forall i :: 0 <= i < |s| ==> '0' <= s[i] <= '9'
  {
    if n < 10 then [DigitChar(n)] else NatToString(n / 10) + [DigitChar(n % 10)]
  }

  /** The number a string of decimal digits denotes. */
  function DigitsValue(s: string): nat
    requires forall i :: 0 <= i < |s| ==> '0' <= s[i] <= '9'
  {
    if |s| == 0 then 0 else 10 * DigitsValue(s[..|s| - 1]) + (s[|s| - 1] as int - '0' as int)
  }

  /** The decimal form is faithful: read back, it denotes the status it was made from. */
  lemma {:induction false} NatToStringRoundTrip(n: nat)
    ensures DigitsValue(NatToString(n)) == n
  {
    if n >= 10 {
      var s := NatToString(n / 10) + [DigitChar(n % 10)];
      assert s[..|s| - 1] == NatToString(n / 10);
      NatToStringRoundTrip(n / 10);
    }
  }

  /** The message of the Error thrown for a non-ok status: `HTTP ${status}: ${statusText}`. */
  function StatusMessage(status: nat, statusText: string): (m: string)
    ensures |m| == 5 + |NatToString(status)| + 2 + |statusText|
    ensures m[..5] == "HTTP " && m[5..5 + |NatToString(status)|] == NatToString(status)
    ensures m[5 + |NatToString(status)|..7 + |NatToString(status)|] == ": "
    ensures m[7 + |NatToString(status)|..] == statusText
  {
    "HTTP " + NatToString(status) + ": " + statusText
  }

  /** The message names its status and status text unambiguously: different pairs, different messages. */
  lemma StatusMessageInjective(s1: nat, t1: string, s2: nat, t2: string)
    requires StatusMessage(s1, t1) == StatusMessage(s2, t2)
    ensures s1 == s2 && t1 == t2
  {
    var d1, d2 := NatToString(s1), NatToString(s2);
    var m := StatusMessage(s1, t1);
    // The colon that ends either status's digits cannot be a digit of the other.
    assert m == "HTTP " + d2 + ": " + t2;
    assert m[5 + |d1|] == ':' && m[5 + |d2|] == ':';
    assert |d1| == |d2|;
    assert d1 == d2;
    NatToStringRoundTrip(s1);
    NatToStringRoundTrip(s2);
  }

  /** `fetchImageBytes(url)` against the origin `fetch`. */
  function FetchImageBytes(fetch: string -> OriginResponse, url: string): (r: Result<ImageBytes, CacheError>)
    ensures r.Success? <==> fetch(url).Responded? && IsOk(fetch(url).status) && fetch(url).body.Body?
    ensures r.Success? ==> r.value.value == fetch(url).body.bytes
    ensures r.Failure? ==> r.error.FetchError?
    ensures fetch(url).Threw? ==> r == Failure(MakeFetchError(ErrorOf(fetch(url).reason)))
    ensures fetch(url).Responded? && !IsOk(fetch(url).status) ==>
              r.Failure? && r.error.FetchError? &&
              r.error.error.message == "Error: HTTP " + NatToString(fetch(url).status) + ": " + fetch(url).statusText
    ensures fetch(url).Responded? && IsOk(fetch(url).status) && fetch(url).body.BodyRejects? ==>
              r == Failure(MakeFetchError(ErrorOf(fetch(url).body.reason)))
  {
    match fetch(url)
    case Threw(reason) => Failure(MakeFetchError(ErrorOf(reason)))
    case Responded(status, statusText, body) =>
      if !IsOk(status) then
        var thrown := Error(StatusMessage(status, statusText));
        Failure(MakeFetchError(ErrorOf(ErrorToString(thrown))))
      else
        match body
        case BodyRejects(reason) => Failure(MakeFetchError(ErrorOf(reason)))
        case Body(buffer) => Success(MakeImageBytes(buffer))
  }

  /** A response with a non-ok status is rejected before its body is read: the body does not matter. */
  lemma NotOkIgnoresBody(fetch: string -> OriginResponse, other: string -> OriginResponse, url: string, body: BodyRead)
    requires fetch(url).Responded? && !IsOk(fetch(url).status)
    requires other(url) == Responded(fetch(url).status, fetch(url).statusText, body)
    ensures FetchImageBytes(other, url) == FetchImageBytes(fetch, url)
  {
  }

  /** The result depends on the origin's answer for `url` only. */
  lemma OnlyTheUrlMatters(fetch: string -> OriginResponse, other: string -> OriginResponse, url: string)
    requires fetch(url) == other(url)
    ensures FetchImageBytes(fetch, url) == FetchImageBytes(other, url)
  {
  }
}
