/**
 * The slice of hyper's vocabulary the gateway uses: methods, status codes,
 * header lists and request/response records whose body type is left open.
 */
module Http {
  import opened Wrappers

  datatype Method = Get | Head | Post | Put | Delete | Patch | Options | Connect | Trace | Extension(token: string)

  /** hyper's `StatusCode` holds a three-digit code. */
  type StatusCode = n: int | 100 <= n <= 999 witness 200

  const OK: StatusCode := 200
  const CREATED: StatusCode := 201

  /**
   * One header entry. hyper's `HeaderName` is always lower case; the model
   * does not enforce this and relies on its callers to pass lower-case names,
   * so that comparisons with `HOST` and `LOCATION` behave as hyper's do. A
   * `HeaderMap` is modelled by the sequence its iterator yields.
   */
  datatype Header = Header(name: string, value: string)

  const HOST := "host"
  const LOCATION := "location"
  const AUTHORIZATION := "authorization"
  const CONTENT_TYPE := "content-type"

  /** `verb` is the request method (`method` is a Dafny keyword). */
  datatype Request<B> = Request(verb: Method, uri: string, headers: seq<Header>, body: B)

  datatype Response<B> = Response(status: StatusCode, headers: seq<Header>, body: B)

  /**
   * The crate-wide error (`crate::Error`), reduced to the kinds the core
   * produces: an unexpected status from the vulnerability service carrying the
   * raw response, a transport failure, a body that could not be read, and a
   * body that did not decode.
   */
  datatype Error<R> = ApiError(response: R) | Transport | BodyRead | Decode

  /** The value of the first entry called `name`, as `HeaderMap::get` returns it. */
  function Lookup(headers: seq<Header>, name: string): (r: Option<string>)
    ensures r.Some? ==> exists i | 0 <= i < |headers| ::
                          headers[i] == Header(name, r.value) && forall j | 0 <= j < i :: headers[j].name != name
    ensures r.None? <==> forall j | 0 <= j < |headers| :: headers[j].name != name
  {
    if |headers| == 0 then None
    else if headers[0].name == name then Some(headers[0].value)
    else Lookup(headers[1..], name)
  }
}
