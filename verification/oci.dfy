/**
 * The registry side of the gateway: the reverse proxy's request and response
 * rewriting, the manifest path pattern, and the OCI error envelope.
 */
module Oci {
  import opened Wrappers
  import opened Strings
  import Http

  /** The OCI error envelope: `{"errors": [{"code", "message", "details"}]}`. */
  datatype ErrorEnvelope = ErrorEnvelope(errors: seq<ErrorEntry>)

  datatype ErrorEntry = ErrorEntry(code: string, message: string, details: Option<()>)

  /** The upstream registry's base address, fixed at start-up. */
  datatype Proxy = Proxy(baseAddress: string) {

    function ForRequest<B>(request: Http.Request<B>): ProxyRequest<B> {
      ProxyRequest(baseAddress, request)
    }

    function ForResponse<B>(response: Http.Response<B>): ProxyResponse<B> {
      ProxyResponse(baseAddress, response)
    }
  }

  datatype ProxyRequest<B> = ProxyRequest(baseAddress: string, request: Http.Request<B>)

  datatype ProxyResponse<B> = ProxyResponse(baseAddress: string, response: Http.Response<B>)

  // ---------------------------------------------------------------------------
  // Outbound request

  /** The header list with every `host` entry dropped; the rest keep their order. */
  function WithoutHost(headers: seq<Http.Header>): (r: seq<Http.Header>)
    ensures |r| <= |headers|
    ensures forall i | 0 <= i < |r| :: r[i].name != Http.HOST
    ensures forall h :: h in r <==> h in headers && h.name != Http.HOST
  {
    if |headers| == 0 then []
    else (if headers[0].name == Http.HOST then [] else [headers[0]]) + WithoutHost(headers[1..])
  }

  /**
   * The request sent upstream: same method and body, the base address
   * prepended to the URI, and the headers without `host`.
   */
  function UpstreamRequest<B>(proxied: ProxyRequest<B>): (r: Http.Request<B>)
    ensures r.verb == proxied.request.verb
    ensures StartsWith(r.uri, proxied.baseAddress)
    ensures r.uri[|proxied.baseAddress|..] == proxied.request.uri
    ensures r.headers == WithoutHost(proxied.request.headers)
    ensures r.body == proxied.request.body
  {
    Http.Request(
      proxied.request.verb,
      proxied.baseAddress + proxied.request.uri,
      WithoutHost(proxied.request.headers),
      proxied.request.body)
  }

  /** Dropping `host` entries commutes with concatenation, so relative order is kept. */
  lemma {:induction false} WithoutHostConcat(a: seq<Http.Header>, b: seq<Http.Header>)
    ensures WithoutHost(a + b) == WithoutHost(a) + WithoutHost(b)
  {
    if |a| == 0 {
      assert a + b == b;
    } else {
      assert (a + b)[1..] == a[1..] + b;
      WithoutHostConcat(a[1..], b);
    }
  }

  /** Every entry other than `host` is forwarded exactly as many times as it arrived. */
  lemma {:induction false} WithoutHostKeepsMultiplicity(headers: seq<Http.Header>, h: Http.Header)
    requires h.name != Http.HOST
    ensures multiset(WithoutHost(headers))[h] == multiset(headers)[h]
  {
    if |headers| > 0 {
      assert headers == [headers[0]] + headers[1..];
      WithoutHostKeepsMultiplicity(headers[1..], h);
    }
  }

  /** A header list without `host` entries is forwarded unchanged. */
  lemma {:induction false} WithoutHostKeepsHostless(headers: seq<Http.Header>)
    requires forall i | 0 <= i < |headers| :: headers[i].name != Http.HOST
    ensures WithoutHost(headers) == headers
  {
    if |headers| > 0 {
      WithoutHostKeepsHostless(headers[1..]);
    }
  }

  // ---------------------------------------------------------------------------
  // Inbound response

  /** Every `location` value can be read as text, as `to_str().unwrap()` demands. */
  predicate LocationsReadable(headers: seq<Http.Header>) {
    forall i | 0 <= i < |headers| :: headers[i].name == Http.LOCATION ==> VisibleAscii(headers[i].value)
  }

  /** A `location` header pointing under the upstream base address. */
  predicate PointsUpstream(baseAddress: string, h: Http.Header) {
    h.name == Http.LOCATION && StartsWith(h.value, baseAddress)
  }

  /**
   * `after` is what the proxy makes of `before`: same name; an upstream
   * `location` loses the base address prefix; anything else is untouched.
   */
  predicate RewrittenFrom(baseAddress: string, before: Http.Header, after: Http.Header) {
    && after.name == before.name
    && (PointsUpstream(baseAddress, before) ==> baseAddress + after.value == before.value)
    && (!PointsUpstream(baseAddress, before) ==> after == before)
  }

  function RewriteLocation(baseAddress: string, h: Http.Header): (r: Http.Header)
    requires h.name == Http.LOCATION ==> VisibleAscii(h.value)
    ensures RewrittenFrom(baseAddress, h, r)
  {
    if PointsUpstream(baseAddress, h) then
      assert h.value == baseAddress + h.value[|baseAddress|..];
      Http.Header(h.name, h.value[|baseAddress|..])
    else h
  }

  function RewriteHeaders(baseAddress: string, headers: seq<Http.Header>): (r: seq<Http.Header>)
    requires LocationsReadable(headers)
    ensures |r| == |headers|
    ensures forall i | 0 <= i < |r| :: RewrittenFrom(baseAddress, headers[i], r[i])
  {
    if |headers| == 0 then []
    else [RewriteLocation(baseAddress, headers[0])] + RewriteHeaders(baseAddress, headers[1..])
  }

  /** The response returned downstream: same status and body, headers rewritten one for one. */
  function DownstreamResponse<B>(proxied: ProxyResponse<B>): (r: Http.Response<B>)
    requires LocationsReadable(proxied.response.headers)
    ensures r.status == proxied.response.status
    ensures r.body == proxied.response.body
    ensures |r.headers| == |proxied.response.headers|
    ensures forall i | 0 <= i < |r.headers| ::
              RewrittenFrom(proxied.baseAddress, proxied.response.headers[i], r.headers[i])
  {
    Http.Response(
      proxied.response.status,
      RewriteHeaders(proxied.baseAddress, proxied.response.headers),
      proxied.response.body)
  }

  /**
   * Through a `Proxy`: the request goes to the proxy's base address, and an
   * upstream redirect to base address + `p` comes back as `p`.
   */
  lemma ProxyRoundTrip<B, C>(proxy: Proxy, request: Http.Request<B>, response: Http.Response<C>, p: string)
    requires LocationsReadable(response.headers)
    requires |response.headers| > 0 && response.headers[0] == Http.Header(Http.LOCATION, proxy.baseAddress + p)
    ensures UpstreamRequest(proxy.ForRequest(request)).uri == proxy.baseAddress + request.uri
    ensures DownstreamResponse(proxy.ForResponse(response)).headers[0] == Http.Header(Http.LOCATION, p)
  {
    assert StartsWith(proxy.baseAddress + p, proxy.baseAddress);
  }

  /** With an empty base address every header passes through unchanged. */
  lemma EmptyBaseKeepsHeaders<B>(response: Http.Response<B>)
    requires LocationsReadable(response.headers)
    ensures DownstreamResponse(ProxyResponse("", response)).headers == response.headers
  {
  }

  /** An upstream redirect becomes a path on the gateway itself. */
  lemma LocationRewriteExample()
    ensures RewriteLocation("https://upstream.example", Http.Header("location", "https://upstream.example/x"))
            == Http.Header("location", "/x")
    ensures RewriteLocation("https://upstream.example", Http.Header("location", "https://elsewhere.example/x"))
            == Http.Header("location", "https://elsewhere.example/x")
  {
    assert StartsWith("https://upstream.example/x", "https://upstream.example");
    assert !StartsWith("https://elsewhere.example/x", "https://upstream.example") by {
      assert "https://elsewhere.example/x"[8] != "https://upstream.example"[8];
    }
  }

  // ---------------------------------------------------------------------------
  // Manifest path pattern `/v2/(?P<name>.*)/manifests/(?P<reference>.*)`

  const V2 := "/v2/"
  const MANIFESTS := "/manifests/"

  /** The image coordinate a manifest path names. */
  datatype Coordinate = Coordinate(name: string, reference: string)

  /**
   * The unanchored regex on a newline-free path. The leftmost match starts at
   * the first "/v2/"; the greedy `name` runs to the last "/manifests/" that
   * begins after it, and `reference` takes the rest.
   */
  function MatchManifest(path: string): (r: Option<Coordinate>)
    requires NoNewline(path)
    ensures r.Some? <==> exists k: nat, j: nat ::
              OccursAt(path, V2, k) && OccursAt(path, MANIFESTS, j) && k + |V2| <= j
  {
    match FirstOccurrence(path, V2, 0)
    case None => None
    case Some(k) =>
      match LastOccurrenceIn(path, MANIFESTS)
      case None => None
      case Some(j) =>
        if k + |V2| <= j then Some(Coordinate(path[k + |V2|..j], path[j + |MANIFESTS|..]))
        else None
  }

  /** The path a coordinate is requested under. */
  function ManifestPath(c: Coordinate): string {
    V2 + c.name + MANIFESTS + c.reference
  }

  /**
   * A coordinate the pattern can return: no newline, and "/manifests/" occurs
   * in "/manifests/" + reference only at its start (so the reference neither
   * contains "/manifests/" nor begins with "manifests/").
   */
  ghost predicate Canonical(c: Coordinate) {
    && NoNewline(c.name)
    && NoNewline(c.reference)
    && forall i: nat | 0 < i :: !OccursAt(MANIFESTS + c.reference, MANIFESTS, i)
  }

  /** On a path starting with "/v2/", the pattern matches iff "/manifests/" occurs after that prefix. */
  lemma MatchIffManifestsAfterPrefix(path: string)
    requires NoNewline(path) && StartsWith(path, V2)
    ensures MatchManifest(path).Some? <==> exists j: nat :: |V2| <= j && OccursAt(path, MANIFESTS, j)
  {
  }

  /** A match on a "/v2/" path decomposes the path exactly, into a canonical coordinate. */
  lemma MatchDecomposes(path: string)
    requires NoNewline(path) && StartsWith(path, V2)
    requires MatchManifest(path).Some?
    ensures ManifestPath(MatchManifest(path).value) == path
    ensures Canonical(MatchManifest(path).value)
  {
    assert OccursAt(path, V2, 0);
    var j := LastOccurrenceIn(path, MANIFESTS).value;
    var c := MatchManifest(path).value;
    assert c == Coordinate(path[|V2|..j], path[j + |MANIFESTS|..]);
    assert path == path[..|V2|] + path[|V2|..j] + path[j..j + |MANIFESTS|] + path[j + |MANIFESTS|..];
    var tail := MANIFESTS + c.reference;
    assert path == path[..j] + tail;
    forall i: nat | 0 < i
      ensures !OccursAt(tail, MANIFESTS, i)
    {
      OccursAtShift(path[..j], tail, MANIFESTS, i);
    }
    forall i | 0 <= i < |c.name|
      ensures c.name[i] != '\n'
    {
      assert c.name[i] == path[|V2| + i];
    }
    forall i | 0 <= i < |c.reference|
      ensures c.reference[i] != '\n'
    {
      assert c.reference[i] == path[j + |MANIFESTS| + i];
    }
  }

  /** The end-to-end example path names image `acme/app` at reference `latest`. */
  lemma ManifestPathExample(path: string)
    requires path == "/v2/acme/app/manifests/latest"
    ensures NoNewline(path)
    ensures MatchManifest(path) == Some(Coordinate("acme/app", "latest"))
  {
    var c := Coordinate("acme/app", "latest");
    assert V2 + c.name == "/v2/acme/app";
    assert MANIFESTS + c.reference == "/manifests/latest";
    assert ManifestPath(c) == path;
    LatestIsCanonical();
    MatchRoundTrip(c);
  }

  lemma LatestIsCanonical()
    ensures Canonical(Coordinate("acme/app", "latest"))
  {
    var tail := MANIFESTS + "latest";
    assert tail == "/manifests/latest";
    forall i: nat | 0 < i
      ensures !OccursAt(tail, MANIFESTS, i)
    {
      if i <= 6 {
        assert tail[i] != '/';
      }
    }
  }

  /** The bare API root is not a manifest path, so it is passed through. */
  lemma ApiRootNoMatch()
    ensures MatchManifest("/v2/") == None
  {
    assert StartsWith("/v2/", V2);
    MatchIffManifestsAfterPrefix("/v2/");
  }

  /** Requesting a canonical coordinate's path gives the coordinate back. */
  lemma MatchRoundTrip(c: Coordinate)
    requires Canonical(c)
    ensures NoNewline(ManifestPath(c))
    ensures MatchManifest(ManifestPath(c)) == Some(c)
  {
    var path := ManifestPath(c);
    var head := V2 + c.name;
    var tail := MANIFESTS + c.reference;
    assert path == head + tail;
    NoNewlineConcat(V2, c.name);
    NoNewlineConcat(MANIFESTS, c.reference);
    NoNewlineConcat(head, tail);
    assert OccursAt(path, V2, 0);
    OccursAtShift(head, tail, MANIFESTS, 0);
    assert OccursAt(tail, MANIFESTS, 0);
    forall i: nat | |head| < i
      ensures !OccursAt(path, MANIFESTS, i)
    {
      OccursAtShift(head, tail, MANIFESTS, i - |head|);
    }
    var j := LastOccurrenceIn(path, MANIFESTS).value;
    assert j == |head|;
    assert path[|V2|..j] == c.name;
    assert path[j + |MANIFESTS|..] == c.reference;
  }
}
