/**
 * The vulnerability service's project search: `POST /api/v1/org/{org}/projects`
 * with a name filter, answered by the list of matching projects.
 */
module OrganizationProjectsPost {
  import opened Wrappers
  import opened Strings
  import Http

  /** Issue counts arrive as unsigned 32-bit integers. */
  newtype u32 = n: int | 0 <= n < 0x1_0000_0000

  datatype Request = Request(baseAddress: string, apiKey: string, organizationId: string, body: RequestBody)

  /** Serialised as `{"filters": {"name": ...}}`. */
  datatype RequestBody = RequestBody(filters: RequestBodyFilters)

  datatype RequestBodyFilters = RequestBodyFilters(name: string)

  datatype Response = Response(body: ResponseBody)

  datatype ResponseBody = ResponseBody(projects: seq<Project>)

  datatype Project = Project(name: string, attributes: Attributes, issueCountsBySeverity: IssueCounts)

  datatype Attributes = Attributes(criticality: seq<string>)

  /** All four severities are always present in a decoded project. */
  datatype IssueCounts = IssueCounts(critical: u32, low: u32, high: u32, medium: u32)

  /**
   * What reading and decoding a raw response body yields. The JSON text is not
   * modelled: a body either cannot be read, does not decode as a
   * `ResponseBody`, or decodes to one.
   */
  datatype RawBody = Unreadable | Malformed | Json(decoded: ResponseBody)

  const JSON := "application/json"
  const TOKEN_PREFIX := "token "
  const ORG_SEGMENT := "/api/v1/org/"
  const PROJECTS_SUFFIX := "/projects"

  function ProjectsUri(baseAddress: string, organizationId: string): string {
    baseAddress + ORG_SEGMENT + organizationId + PROJECTS_SUFFIX
  }

  /** The wire request: an authenticated JSON `POST` to the organisation's projects endpoint. */
  function ToHttp(request: Request): (r: Http.Request<RequestBody>)
    ensures r.verb == Http.Post
    ensures StartsWith(r.uri, request.baseAddress + ORG_SEGMENT)
    ensures r.uri == ProjectsUri(request.baseAddress, request.organizationId)
    ensures Http.Lookup(r.headers, Http.AUTHORIZATION) == Some(TOKEN_PREFIX + request.apiKey)
    ensures Http.Lookup(r.headers, Http.CONTENT_TYPE) == Some(JSON)
    ensures |r.headers| == 2
    ensures r.body.filters.name == request.body.filters.name
  {
    Http.Request(
      Http.Post,
      ProjectsUri(request.baseAddress, request.organizationId),
      [Http.Header(Http.AUTHORIZATION, TOKEN_PREFIX + request.apiKey), Http.Header(Http.CONTENT_TYPE, JSON)],
      request.body)
  }

  /**
   * Accepts only `200 OK`; any other status is an `ApiError` holding the raw
   * response, with the body left unread. On `200` the body is read and decoded.
   */
  function TryFromResponse(response: Http.Response<RawBody>): (r: Result<Response, Http.Error<Http.Response<RawBody>>>)
    ensures r.Ok? <==> response.status == Http.OK && response.body.Json?
    ensures r.Ok? ==> r.value.body == response.body.decoded
    ensures response.status != Http.OK ==> r == Err(Http.ApiError(response))
    ensures response.status == Http.OK && response.body.Unreadable? ==> r == Err(Http.BodyRead)
    ensures response.status == Http.OK && response.body.Malformed? ==> r == Err(Http.Decode)
  {
    if response.status != Http.OK then Err(Http.ApiError(response))
    else
      match response.body
      case Unreadable => Err(Http.BodyRead)
      case Malformed => Err(Http.Decode)
      case Json(body) => Ok(Response(body))
  }

  /** Distinct organisations are sent to distinct endpoints of the same service. */
  lemma ProjectsUriInjective(baseAddress: string, a: string, b: string)
    requires ProjectsUri(baseAddress, a) == ProjectsUri(baseAddress, b)
    ensures a == b
  {
    var n := |baseAddress + ORG_SEGMENT|;
    var ua := ProjectsUri(baseAddress, a);
    assert ua[n..|ua| - |PROJECTS_SUFFIX|] == a;
    assert ProjectsUri(baseAddress, b)[n..|ua| - |PROJECTS_SUFFIX|] == b;
  }
}
