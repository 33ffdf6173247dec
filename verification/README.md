# Container registry gateway — a Dafny model of its core

The gateway sits in front of an OCI distribution registry. Before it lets
manifest traffic through, it asks a vulnerability service (Snyk) about the
image. This project models the four pure pieces of logic inside that plumbing
and proves properties about them:

* **Admission policy** (`logic.dfy`, module `Logic`). It maps the service's
  project search result to `Ok(())` or to one of five `AdmitError` reasons.
  Only the first project counts. The declared criticality is the highest of
  "critical", "high", "medium" and "low" found in the project's list. The
  tiers are checked from critical down to low. The first tier that has issues
  and sits above the declared criticality is the reason for refusal.
* **Reverse proxy rewriting** (`oci.dfy`, module `Oci`). The outbound request
  keeps its method and body, gets the upstream base address prepended to its
  URI, and loses every `host` header. The inbound response keeps its status,
  body and headers. The one exception: a `location` value that starts with the
  base address has that prefix removed.
* **Manifest path pattern** (`oci.dfy`). The regex
  `/v2/(?P<name>.*)/manifests/(?P<reference>.*)` is written as a function on
  strings. Its match condition and its round trip with the path a coordinate
  is requested under are proved.
* **Vulnerability-service client** (`organization_projects_post.dfy`,
  `organization_integration_import_post.dfy`, `snyk.dfy`). Two request
  builders produce an authenticated JSON `POST`. Project search accepts only
  `200`. The import (rescan) trigger accepts only `201` and never reads the
  response body.

Supporting modules: `Wrappers` (Option, Result), `Strings` (prefix test and
substring search), and `Http` (methods, status codes, header lists, and
request/response records with an open body type).

Modelling choices:

* A request or response is a record. Its headers are a `seq<Header>` of
  lower-case names and values, in the order hyper's `HeaderMap` iterator
  yields them.
* Bodies are type parameters. The proxy passes the body through untouched.
  The import response is generic in its body, so the fact that the body is
  never read holds by construction.
* JSON bodies are datatypes: `{filters: {name}}`, `{target: {name}}`, and the
  decoded project list. A raw search-response body is `Unreadable`,
  `Malformed` or `Json(decoded)`.
* The network round trip in `snyk/mod.rs` is the parameter `exchange`. It
  returns the service's response, or `None` for a transport failure.

Facts about the code that shape the model:

* Authorization uses the `token` scheme: `token <key>`.
* Declared criticality is a `Vec<String>` searched with `contains`.
* `src/server.rs` registers no routes, so method-based dispatch, the denial
  response and the "proxy, then trigger a rescan" ordering do not exist in
  the code. Only the path pattern is modelled.

## Model

| member | source | states |
|---|---|---|
| Logic.DeclaredCriticality | src/logic.rs:23-34 | The result is `None` exactly when no tier label is in the list. Otherwise it is a tier whose label is present, and no present label ranks higher. Unrecognised strings play no part. |
| Logic.Admitted | src/logic.rs:19-51 | `NotMonitored` exactly when there is no project. With a project: `Ok` iff no tier is violated, where violated means a positive count and a declared criticality strictly below that tier. A refusal names a violated tier, and no higher tier is violated, so the first violated tier from critical down wins. |
| Logic.BelowIsStrictTotalOrder | src/logic.rs:9-16 | The derived ordering Critical(4) > High(3) > Medium(2) > Low(1) > None(0) is irreflexive, transitive and total. |
| Logic.OnlyFirstProjectConsulted | src/logic.rs:22 | Two responses with the same first project get the same decision, whatever follows it. |
| Logic.NoIssuesAdmitted | src/logic.rs:36-46 | A first project with all four issue counts at 0 is admitted. |
| Logic.CriticalDeclaredAlwaysAdmitted | src/logic.rs:24-45 | A first project whose criticality list contains "critical" is admitted whatever its counts. |
| Logic.AdmissionMonotone | src/logic.rs:37-46 | Raising the declared criticality or lowering any issue count never turns an admission into a refusal. |
| Logic.Message | src/logic.rs:53-73 | `NotMonitored` reads "Image not monitored for vulnerabilities". The refusal for each tier reads "Image exceeded vulnerability threshold " followed by that tier's label: critical, high, medium or low. |
| Logic.MessagesDistinct | src/logic.rs:53-73 | The five reasons have pairwise different texts. Each tier's text is "Image exceeded vulnerability threshold " followed by the tier's label. |
| Logic.DeclaredCriticalExample | src/logic.rs:37-46 | Declaring "critical" with 5 critical and 5 high issues is admitted. |
| Logic.UndeclaredLowIssueExample | src/logic.rs:43-44 | Declaring nothing, with one low issue and no others, is refused as `LowVulnerability`. |
| Oci.WithoutHost | src/oci.rs:84-91 | No `host` entry remains. An entry is kept iff it was present and is not `host`. |
| Oci.WithoutHostConcat | src/oci.rs:84-91 | Host removal distributes over concatenation, so the kept entries keep their relative order. |
| Oci.WithoutHostKeepsMultiplicity | src/oci.rs:84-91 | Every non-`host` entry is forwarded exactly as many times as it arrived. |
| Oci.WithoutHostKeepsHostless | src/oci.rs:84-91 | A header list with no `host` entry is forwarded unchanged. |
| Oci.UpstreamRequest | src/oci.rs:76-95 | The method and body are those of the inbound request. The URI starts with the base address, and what follows the base address is exactly the inbound URI. The headers are the inbound ones with `host` removed. |
| Oci.RewriteLocation | src/oci.rs:103-119 | The name is kept. For a `location` starting with the base address, the base address followed by the new value gives back the old value. Any other header comes back unchanged. |
| Oci.RewriteHeaders | src/oci.rs:103-119 | Same length. Each output entry is the rewrite of the input entry at the same position. |
| Oci.DownstreamResponse | src/oci.rs:97-123 | The status and body are copied. The headers are rewritten one for one, in order, so only upstream `location` values change, by losing the base-address prefix. |
| Oci.ProxyRoundTrip | src/oci.rs:41-58 | A request wrapped by a `Proxy` goes to the proxy's base address followed by its URI. A response wrapped by the same `Proxy` turns a redirect to base address + `p` into `p`. |
| Oci.EmptyBaseKeepsHeaders | src/oci.rs:106-117 | With an empty base address the response headers are unchanged. |
| Oci.LocationRewriteExample | src/oci.rs:106-117 | With base `https://upstream.example`, `https://upstream.example/x` becomes `/x`, and `https://elsewhere.example/x` passes unchanged. |
| Oci.MatchManifest | src/oci.rs:125-134 | On a newline-free path, the pattern matches iff some "/v2/" occurrence is followed, at or after its end, by a "/manifests/" occurrence. |
| Oci.MatchIffManifestsAfterPrefix | src/oci.rs:129 | On a path starting with "/v2/", the pattern matches iff "/manifests/" occurs at index 4 or later. |
| Oci.MatchDecomposes | src/oci.rs:129 | On a "/v2/" path, a match gives `name` and `reference` with `path == "/v2/" + name + "/manifests/" + reference`. `name` runs to the last "/manifests/", so the reference holds no further occurrence. |
| Oci.MatchRoundTrip | src/oci.rs:129 | Every coordinate the pattern can return is recovered from the path built from it. |
| Oci.ManifestPathExample | src/oci.rs:129 | `/v2/acme/app/manifests/latest` matches as name `acme/app` and reference `latest`. |
| Oci.ApiRootNoMatch | src/oci.rs:129 | The bare `/v2/` does not match. |
| OrganizationProjectsPost.ToHttp | src/snyk/organization_projects_post.rs:51-69 | The method is `POST`. The URI is the base address, then "/api/v1/org/", the organisation id and "/projects". `authorization` is "token " followed by the key, and `content-type` is `application/json`. The body carries the name filter unchanged. |
| OrganizationProjectsPost.ProjectsUriInjective | src/snyk/organization_projects_post.rs:57-60 | Different organisation ids give different projects URIs under the same base address. |
| OrganizationProjectsPost.TryFromResponse | src/snyk/organization_projects_post.rs:71-87 | `Ok` iff the status is 200 and the body decodes, and then it returns the decoded list. Any other status gives `ApiError` with the raw response. A 200 with an unreadable or undecodable body gives the matching error. |
| OrganizationIntegrationImportPost.ToHttp | src/snyk/organization_integration_import_post.rs:23-41 | The method is `POST`. The URI is the base address, then "/api/v1/org/", the organisation id, "/integrations/", the integration id and "/import". `authorization` is "token " followed by the key, and `content-type` is `application/json`. The body carries the target name unchanged. |
| OrganizationIntegrationImportPost.ImportUriInjective | src/snyk/organization_integration_import_post.rs:29-32 | If the organisation ids contain no `/`, different (organisation, integration) pairs give different import URIs. |
| OrganizationIntegrationImportPost.TryFromResponse | src/snyk/organization_integration_import_post.rs:43-53 | `Ok` iff the status is 201. Every other status, 200 included, gives `ApiError` holding the response. |
| OrganizationIntegrationImportPost.StatusAloneDecides | src/snyk/organization_integration_import_post.rs:46-52 | Two responses with the same status get the same verdict, whatever their headers and body. |
| Snyk.NewApi | src/snyk/mod.rs:25-37 | The four strings are stored unchanged. |
| Snyk.ImportRequest | src/snyk/mod.rs:49-57 | All four `Api` fields are passed on, and the name becomes `target.name`. |
| Snyk.ProjectsRequest | src/snyk/mod.rs:72-79 | The base address, key and organisation come from the `Api`, and the name becomes `filters.name`. |
| Snyk.SendImport | src/snyk/mod.rs:42-60 | A transport failure gives `Transport`. Otherwise the call succeeds iff the reply to the built request has status 201, and a failure carries that reply. |
| Snyk.SendProjects | src/snyk/mod.rs:65-84 | A transport failure gives `Transport`. A non-200 reply gives `ApiError` with the reply. Success comes only from a 200 reply with a decodable body, and yields its list. |
| Snyk.ImportWire | src/snyk/mod.rs:49-59 | The request sent for a rescan is a `POST` to the import URI built from the `Api`'s address, organisation and integration. It carries the `Api`'s key as a token and the name as the target. |
| Snyk.ProjectsWire | src/snyk/mod.rs:72-81 | The request sent for a search is a `POST` to the projects URI built from the `Api`'s address and organisation. It carries the `Api`'s key as a token and the name as the filter. |

## Left out

- `Proxy::send` and the `client.request(...).await` calls (src/oci.rs:63-73, src/snyk/mod.rs:59, src/snyk/mod.rs:81) are network I/O. The proxy is modelled by its two transformations. The client calls are modelled with the reply as the `exchange` parameter.
- Body streaming and aggregation are left out, since bodies are opaque type parameters. So is serde JSON encoding and decoding: decoding is reduced to the three outcomes of `RawBody`, and a count outside `u32` counts as `Malformed`.
- hyper builder failures are not modelled. The builders are total: an invalid URI made from the base address, or an invalid header value, would make the source return an error that the model does not produce.
- Oci.MatchManifest: requires a newline-free path. The regex's `.` stops at a newline, so on such paths the match would be confined to one line. hyper's URI parser rejects control characters in paths anyway.
- Oci.RewriteLocation: requires every `location` value to be visible ASCII (tab or bytes 32-126). Any other value makes `to_str().unwrap()` panic in the source. Under this condition a character is a byte, so slicing by the base address's length matches the source's byte slicing.
- `HeaderMap` iteration order (all values of one name grouped together) is taken to be the header sequence itself. The model does not regroup.
- The `Debug`/`Display` formatting of `ApiError` is left out: it is diagnostics only.
- Route dispatch by method, the 403 denial envelope response, the rescan-after-proxy ordering and the health endpoints are not in the code: src/server.rs registers no routes, and src/route.rs only returns constant status codes. The `ErrorEnvelope` record is declared for completeness but nothing builds it.
- Configuration loading, signal handling, server start-up, TLS client construction and the end-to-end tests are left out. They are framework glue or need a live registry.
