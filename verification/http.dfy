/**
 * The slice of the PSR-7 HTTP message model that the rate-limiting middleware
 * touches: an immutable response made of a status code, a reason phrase and a
 * header collection whose names compare without regard to case.
 *
 * Header names are case-insensitive in PSR-7; the collection is kept as a map
 * from the lower-cased name to the header as it was last set, so that setting a
 * header replaces any header whose name differs only in case.
 */
module Http {

  /** ASCII lower-casing of one character; every other character is kept. */
  function LowerChar(c: char): char
  {
    if 'A' <= c <= 'Z' then (c as int - 'A' as int + 'a' as int) as char else c
  }

  /** The lower-cased form of a header name, the key it is filed under. */
  function Lower(s: string): (r: string)
    ensures |r| == |s|
    ensures forall i :: 0 <= i < |s| ==> r[i] == LowerChar(s[i])
  {
    seq(|s|, i requires 0 <= i < |s| => LowerChar(s[i]))
  }

  /** Two header names denote the same header: they are filed under the same lower-cased key. */
  predicate SameName(a: string, b: string)
  {
    Lower(a) == Lower(b)
  }

  /** A header value: the integers the middleware stamps, or any text a handler set. */
  datatype HeaderValue = Num(n: int) | Text(s: string)

  /** A header as last set: the name with the caller's casing, and its values. */
  datatype Header = Header(name: string, values: seq<HeaderValue>)

  datatype Response = Response(status: int, reason: string, headers: map<string, Header>)
  {
    /** Every header is filed under the lower-cased form of the name it carries. */
    predicate Valid()
    {
      forall k :: k in headers ==> k == Lower(headers[k].name)
    }
  }

  /** PSR-7 `hasHeader`: a header of that name, compared without regard to case, is present. */
  predicate HasHeader(r: Response, name: string)
  {
    Lower(name) in r.headers
  }

  /** PSR-7 `getHeader`: the values of the header of that name, or no values when it is absent. */
  function GetHeader(r: Response, name: string): seq<HeaderValue>
  {
    if Lower(name) in r.headers then r.headers[Lower(name)].values else []
  }

  /** PSR-17 `createResponse(status, reason)`: a fresh response carrying no headers. */
  function CreateResponse(status: int, reason: string): (r: Response)
    ensures r.Valid()
    ensures r.status == status && r.reason == reason
    ensures forall name :: !HasHeader(r, name) && GetHeader(r, name) == []
  {
    Response(status, reason, map[])
  }

  /** A PSR-17 response factory, `createResponse(status, reason)`. */
  type ResponseFactory = (int, string) -> Response

  /** The factory keeps its promise: the response has the requested status code and reason phrase. */
  ghost predicate HonoursStatus(factory: ResponseFactory)
  {
    forall status, reason :: factory(status, reason).status == status && factory(status, reason).reason == reason
  }

  /** `CreateResponse` is a factory that keeps the PSR-17 promise. */
  lemma CreateResponseHonoursStatus()
    ensures HonoursStatus(CreateResponse)
  {
  }

  /**
   * PSR-7 `withHeader(name, value)`: a copy of the response in which the header
   * `name` holds exactly `value`, replacing any header whose name is the same up
   * to case; status, reason and every other header are left as they were.
   */
  function WithHeader(r: Response, name: string, value: HeaderValue): (r': Response)
    ensures r'.status == r.status && r'.reason == r.reason
    ensures HasHeader(r', name) && GetHeader(r', name) == [value]
    ensures forall n :: SameName(n, name) ==> GetHeader(r', n) == [value]
    ensures forall n :: !SameName(n, name) ==>
              HasHeader(r', n) == HasHeader(r, n) && GetHeader(r', n) == GetHeader(r, n)
    ensures r.Valid() ==> r'.Valid()
  {
    r.(headers := r.headers[Lower(name) := Header(name, [value])])
  }

  /** Setting a header a second time, under a name the same up to case, discards the first setting. */
  lemma WithHeaderOverwrites(r: Response, name: string, name': string, v: HeaderValue, v': HeaderValue)
    requires SameName(name, name')
    ensures WithHeader(WithHeader(r, name, v), name', v') == WithHeader(r, name', v')
  {
  }

  /** Setting two headers whose names differ, even up to case, can happen in either order. */
  lemma WithHeaderCommutes(r: Response, a: string, b: string, va: HeaderValue, vb: HeaderValue)
    requires !SameName(a, b)
    ensures WithHeader(WithHeader(r, a, va), b, vb) == WithHeader(WithHeader(r, b, vb), a, va)
  {
  }
}
