/**
 * The vulnerability-service client: one organisation and integration, two
 * operations. The network round trip is a parameter, `exchange`, which
 * returns the service's response or `None` when the transport fails.
 */
module Snyk {
  import opened Wrappers
  import Http
  import Projects = OrganizationProjectsPost
  import Import = OrganizationIntegrationImportPost

  datatype Api = Api(baseAddress: string, apiKey: string, organizationId: string, integrationId: string)

  function NewApi(baseAddress: string, apiKey: string, organizationId: string, integrationId: string): (api: Api)
    ensures api.baseAddress == baseAddress && api.apiKey == apiKey
    ensures api.organizationId == organizationId && api.integrationId == integrationId
  {
    Api(baseAddress, apiKey, organizationId, integrationId)
  }

  /** The import request for `name`: every field of `api`, and `name` as the target. */
  function ImportRequest(api: Api, name: string): (r: Import.Request)
    ensures r.baseAddress == api.baseAddress && r.apiKey == api.apiKey
    ensures r.organizationId == api.organizationId && r.integrationId == api.integrationId
    ensures r.body.target.name == name
  {
    Import.Request(api.baseAddress, api.apiKey, api.organizationId, api.integrationId,
                   Import.RequestBody(Import.RequestBodyTarget(name)))
  }

  /** The projects request for `name`: `api` without the integration, and `name` as the filter. */
  function ProjectsRequest(api: Api, name: string): (r: Projects.Request)
    ensures r.baseAddress == api.baseAddress && r.apiKey == api.apiKey
    ensures r.organizationId == api.organizationId
    ensures r.body.filters.name == name
  {
    Projects.Request(api.baseAddress, api.apiKey, api.organizationId,
                     Projects.RequestBody(Projects.RequestBodyFilters(name)))
  }

  /** Triggers a rescan of `name`: succeeds exactly when the service answers `201 Created`. */
  function SendImport<B>(
    api: Api,
    name: string,
    exchange: Http.Request<Import.RequestBody> -> Option<Http.Response<B>>
  ): (r: Result<Import.Response, Http.Error<Http.Response<B>>>)
    ensures var reply := exchange(Import.ToHttp(ImportRequest(api, name)));
            && (reply.None? ==> r == Err(Http.Transport))
            && (r.Ok? <==> reply.Some? && reply.value.status == Http.CREATED)
            && (reply.Some? && r.Err? ==> r.error == Http.ApiError(reply.value))
  {
    match exchange(Import.ToHttp(ImportRequest(api, name)))
    case None => Err(Http.Transport)
    case Some(response) => Import.TryFromResponse(response)
  }

  /** Searches for projects named `name`: a list only on `200 OK` with a decodable body. */
  function SendProjects(
    api: Api,
    name: string,
    exchange: Http.Request<Projects.RequestBody> -> Option<Http.Response<Projects.RawBody>>
  ): (r: Result<Projects.Response, Http.Error<Http.Response<Projects.RawBody>>>)
    ensures var reply := exchange(Projects.ToHttp(ProjectsRequest(api, name)));
            && (reply.None? ==> r == Err(Http.Transport))
            && (reply.Some? && reply.value.status != Http.OK ==> r == Err(Http.ApiError(reply.value)))
            && (r.Ok? <==> reply.Some? && reply.value.status == Http.OK && reply.value.body.Json?)
            && (r.Ok? ==> r.value.body == reply.value.body.decoded)
            && (reply.Some? && reply.value.status == Http.OK && reply.value.body.Unreadable? ==> r == Err(Http.BodyRead))
            && (reply.Some? && reply.value.status == Http.OK && reply.value.body.Malformed? ==> r == Err(Http.Decode))
  {
    match exchange(Projects.ToHttp(ProjectsRequest(api, name)))
    case None => Err(Http.Transport)
    case Some(response) => Projects.TryFromResponse(response)
  }

  /**
   * What goes on the wire for a rescan: the organisation's and integration's
   * import endpoint under the service address, the API key as a token, and
   * `name` as the target.
   */
  lemma ImportWire(api: Api, name: string)
    ensures var wire := Import.ToHttp(ImportRequest(api, name));
            && wire.verb == Http.Post
            && wire.uri == api.baseAddress + "/api/v1/org/" + api.organizationId
                           + "/integrations/" + api.integrationId + "/import"
            && Http.Lookup(wire.headers, Http.AUTHORIZATION) == Some("token " + api.apiKey)
            && wire.body.target.name == name
  {
  }

  /**
   * What goes on the wire for a search: the organisation's projects endpoint
   * under the service address, the API key as a token, and `name` as the filter.
   */
  lemma ProjectsWire(api: Api, name: string)
    ensures var wire := Projects.ToHttp(ProjectsRequest(api, name));
            && wire.verb == Http.Post
            && wire.uri == api.baseAddress + "/api/v1/org/" + api.organizationId + "/projects"
            && Http.Lookup(wire.headers, Http.AUTHORIZATION) == Some("token " + api.apiKey)
            && wire.body.filters.name == name
  {
  }
}
