/**
 * The vulnerability service's import trigger:
 * `POST /api/v1/org/{org}/integrations/{integration}/import` naming the image
 * to rescan, acknowledged by `201 Created`.
 */
module OrganizationIntegrationImportPost {
  import opened Wrappers
  import opened Strings
  import Http

  datatype Request = Request(
    baseAddress: string,
    apiKey: string,
    organizationId: string,
    integrationId: string,
    body: RequestBody)

  /** Serialised as `{"target": {"name": ...}}`. */
  datatype RequestBody = RequestBody(target: RequestBodyTarget)

  datatype RequestBodyTarget = RequestBodyTarget(name: string)

  /** The acknowledgement carries nothing. */
  datatype Response = Response

  const JSON := "application/json"
  const TOKEN_PREFIX := "token "
  const ORG_SEGMENT := "/api/v1/org/"
  const INTEGRATIONS_SEGMENT := "/integrations/"
  const IMPORT_SUFFIX := "/import"

  function ImportUri(baseAddress: string, organizationId: string, integrationId: string): string {
    baseAddress + ORG_SEGMENT + organizationId + INTEGRATIONS_SEGMENT + integrationId + IMPORT_SUFFIX
  }

  /** The wire request: an authenticated JSON `POST` to the integration's import endpoint. */
  function ToHttp(request: Request): (r: Http.Request<RequestBody>)
    ensures r.verb == Http.Post
    ensures StartsWith(r.uri, request.baseAddress + ORG_SEGMENT)
    ensures r.uri == ImportUri(request.baseAddress, request.organizationId, request.integrationId)
    ensures Http.Lookup(r.headers, Http.AUTHORIZATION) == Some(TOKEN_PREFIX + request.apiKey)
    ensures Http.Lookup(r.headers, Http.CONTENT_TYPE) == Some(JSON)
    ensures |r.headers| == 2
    ensures r.body.target.name == request.body.target.name
  {
    Http.Request(
      Http.Post,
      ImportUri(request.baseAddress, request.organizationId, request.integrationId),
      [Http.Header(Http.AUTHORIZATION, TOKEN_PREFIX + request.apiKey), Http.Header(Http.CONTENT_TYPE, JSON)],
      request.body)
  }

  /**
   * Accepts only `201 Created`; every other status, `200 OK` included, is an
   * `ApiError` holding the raw response. The body type is left open because
   * the body is never read.
   */
  function TryFromResponse<B>(response: Http.Response<B>): (r: Result<Response, Http.Error<Http.Response<B>>>)
    ensures r.Ok? <==> response.status == Http.CREATED
    ensures r.Err? ==> r.error == Http.ApiError(response)
  {
    if response.status != Http.CREATED then Err(Http.ApiError(response)) else Ok(Response)
  }

  /** Success depends on the status alone: headers and body never change the verdict. */
  lemma StatusAloneDecides<B>(a: Http.Response<B>, b: Http.Response<B>)
    requires a.status == b.status
    ensures TryFromResponse(a).Ok? == TryFromResponse(b).Ok?
  {
  }

  /**
   * With identifiers free of `/`, distinct (organisation, integration) pairs
   * reach distinct import endpoints.
   */
  lemma ImportUriInjective(baseAddress: string, org1: string, int1: string, org2: string, int2: string)
    requires forall i | 0 <= i < |org1| :: org1[i] != '/'
    requires forall i | 0 <= i < |org2| :: org2[i] != '/'
    requires ImportUri(baseAddress, org1, int1) == ImportUri(baseAddress, org2, int2)
    ensures org1 == org2 && int1 == int2
  {
    var n := |baseAddress + ORG_SEGMENT|;
    var u := ImportUri(baseAddress, org1, int1);
    assert u == (baseAddress + ORG_SEGMENT) + org1 + (INTEGRATIONS_SEGMENT + int1 + IMPORT_SUFFIX);
    assert u == (baseAddress + ORG_SEGMENT) + org2 + (INTEGRATIONS_SEGMENT + int2 + IMPORT_SUFFIX);
    // A longer identifier would put its own character where the other has the `/` of "/integrations/".
    assert u[n + |org1|] == '/' && u[n + |org2|] == '/';
    assert org1 == u[n..n + |org1|] == org2;
    var m := n + |org1| + |INTEGRATIONS_SEGMENT|;
    assert int1 == u[m..|u| - |IMPORT_SUFFIX|] == int2;
  }
}
