# api-endpoint, modelled in Dafny

This project models the core of `resource.go` from the api-endpoint Go
package. The package has two HTTP components.

- **The descriptor endpoint** serves a service's Swagger/OpenAPI descriptor.
  The request header `X-Original-Request-URL` says how the caller reached
  the service. When that header is present, not blank, and parses as a URL, the endpoint answers
  with a copy of the descriptor in which `host`, `schemes`, `basePath` and
  `info.version` are rewritten for that URL and the running build. Otherwise,
  or when marshalling fails, it answers with the stored bytes unchanged.
  The copy is shallow, so stamping `info.version` also stamps the stored
  descriptor. The model keeps that side effect by returning the endpoint's
  state after each request.
- **The validation middleware** looks up the request's route, validates the
  request against it, logs failures and, when a route is found, calls the
  next handler. Its
  constructor loads the OpenAPI document, adds two server URLs, validates
  the document and builds a router.

Files:

- `wrappers.dfy`: `Option` and `Result`.
- `gostrings.dfy`: Go's `strings.TrimSpace`, `HasSuffix` and `TrimSuffix`,
  with `unicode.IsSpace`.
- `document.dfy`: the parsed YAML tree as a tagged variant (`Value`) and the
  top-level mapping (`Doc`).
- `endpoint.dfy`: `DefaultPath`, `basePath`, `copyMap`, the rewrite, and
  `ServeHTTP` as the function `Serve`.
- `validator.dfy`: `APIValidator.ServeHTTP` as the function `Handle`, which
  returns a trace of events, and `NewAPIValidator`.

Library calls are function parameters. `url.Parse` is
`parse: string -> Option<Url>`. `yaml.Marshal` is
`marshal: Doc -> Option<Bytes>`. `yaml.Unmarshal` is
`unmarshal: Bytes -> Result<Doc>`. The kin-openapi loader, document
validator and router builder are `load`, `validateDoc` and `newRouter`. A
route lookup and a request validation are a `Result<RouteMatch>` and a
function `ValidationInput -> Option<string>`. The build version is a
parameter.

Behaviour worth noting:

- On a failed route lookup the middleware logs and returns (resource.go:156)
  without calling the next handler; `Validator.UnroutedRequestIsDropped`
  states it.
- `NewAPIEndpointForYAML` does not check that the descriptor has an `info`
  mapping. A descriptor without one is accepted, and its `info` is simply
  left alone.
- Without the header the endpoint returns the stored bytes; it does not use
  the request's own URL instead.

## Model

| member | source | states |
|---|---|---|
| GoStrings.TrimSpace | resource.go:60 | the result is the slice of the input left between a run of leading and a run of trailing Go spaces; it is empty exactly when every character is a space, and otherwise starts and ends with a non-space |
| GoStrings.IsSpace | resource.go:60 | holds exactly for Go's `unicode.IsSpace` characters: tab through carriage return, space, U+0085, U+00A0 and the Unicode White_Space characters above Latin-1 |
| GoStrings.HasSuffix | resource.go:100 | true exactly when the suffix is no longer than the string and equals its last characters |
| GoStrings.TrimSuffix | resource.go:101 | with the suffix present, result plus suffix is the input; without it, the input is unchanged |
| GoStrings.TrimAppendedSuffix | resource.go:100-101 | a string with a suffix appended has that suffix, and trimming it gives the string back |
| Endpoint.NewEndpointForYaml | resource.go:45-55 | construction fails exactly when decoding fails, with the decoder's error; otherwise it keeps the bytes, their parse and the build version |
| Endpoint.BasePath | resource.go:99-104 | when the path ends with "/__api", base path plus "/__api" is the path; otherwise the base path is "/" |
| Endpoint.BasePathOfMountedPath | resource.go:99-101 | the base path of p + "/__api" is p, for every p |
| Endpoint.BasePathRestoresPath | resource.go:99-104 | base path plus "/__api" equals the request path if and only if the path ends with "/__api" |
| Endpoint.BasePathAtRoot | resource.go:99-101 | "/__api" has the empty base path, not "/" |
| Endpoint.BasePathUnderPrefix | resource.go:99-101 | "/service/__api" has base path "/service" |
| Endpoint.BasePathWithoutSuffix | resource.go:102-103 | "/", "/__api/" and "/x__api" all get "/" |
| Endpoint.CopyMap | resource.go:91-97 | the copy has exactly the keys of the original, each with the original's value; the rewrite starts from it |
| Endpoint.VersionStamped | resource.go:77-80 | a mapping gets its version entry set to the build version and keeps all its other entries; any other value is left as is |
| Endpoint.Stamp | resource.go:77-80 | the stored descriptor after a rewrite has the same keys, the same entries except `info`, and `info` version-stamped |
| Endpoint.Derive | resource.go:71-80 | the rewritten descriptor has the original keys plus host/schemes/basePath, host from the URL, schemes ["https"], basePath from the URL path, `info` stamped, every other entry unchanged |
| Endpoint.DerivedIsUnique | resource.go:71-80 | the key-by-key description of the rewrite determines the rewritten descriptor completely |
| Endpoint.HeaderText | resource.go:59 | an absent header reads as the empty string; a present one as its value |
| Endpoint.Serve | resource.go:58-89 | blank or absent header, or unparseable URL: stored bytes and unchanged state; otherwise the stored `info` is stamped and the body is the marshalled rewrite, or the stored bytes when marshalling fails; bytes, version and non-`info` entries never change |
| Endpoint.RewriteServesDerived | resource.go:82-88 | on the rewrite path the body is the marshalling of any descriptor meeting the key-by-key description |
| Endpoint.SchemeIsIgnored | resource.go:74 | the rewrite does not depend on the URL's scheme |
| Endpoint.InfoIsShared | resource.go:77-80 | the response's `info` and the stored `info` after the request are the same value |
| Endpoint.VersionStampedIsIdempotent | resource.go:79 | stamping a value twice with the build version is stamping it once |
| Endpoint.StampIsIdempotent | resource.go:79 | stamping twice with the build version is stamping once |
| Endpoint.DeriveAfterStamp | resource.go:71-80 | rewriting an already stamped descriptor gives the same result as rewriting the original |
| Endpoint.EarlierRequestsDoNotMatter | resource.go:58-89 | earlier requests never change the answer to a later one, and repeating a request leaves the state where the first left it |
| Endpoint.WorkedRewrite | resource.go:71-80 | {info: {version: 0.0.0}} at https://api.example.com/service/__api with build 2.1.0 becomes {info: {version: 2.1.0}, host: api.example.com, schemes: [https], basePath: /service} |
| Validator.InputFor | resource.go:158-167 | the validator gets the request, the route, the route's path parameters and the request's query, with multi-error mode on and authentication as a no-op |
| Validator.Handle | resource.go:151-173 | a routed request is validated first; next is called once if a route is found and never otherwise, and last, with the same request; validation runs once if and only if a route is found; a route error is logged if and only if lookup fails; the validator's error is logged if and only if it reports one; at most one log event per request |
| Validator.ViolationsNeverBlock | resource.go:168-172 | for a routed request the trace always ends with the single call to next; with a violation it is validate, log, next |
| Validator.UnroutedRequestIsDropped | resource.go:153-157 | an unrouted request is only logged; next is not called |
| Validator.WithServers | resource.go:124-135 | the declared servers stay first, followed by http://localhost:8080 and then http://name:port |
| Validator.NewAPIValidator | resource.go:119-149 | construction succeeds if and only if loading succeeds, the document with the two servers added validates, and the router builds; the error of the first failing step (load, validate, router build) is returned unchanged; the router is built from the document with the servers added |

## Left out

- File reading in `NewAPIEndpointForFile` is I/O. Only the byte-level constructor is modelled.
- YAML decoding and encoding belong to an external library. They are opaque parameters, so the marshal/re-parse round trip is not stated.
- YAML floats are kept as their written text (`Float`), not as numbers. The rewrite never reads one; a float at `info.version` is overwritten like any other value. Timestamps decode to strings and are `Str` values.
- `url.Parse` is a library call. Only the host and path it yields are read, so it becomes an opaque `parse` result.
- `buildinfo.GetBuildInfo` reads process metadata. The version is a constructor parameter.
- Go strings are byte sequences. The model uses Unicode scalar values. For valid UTF-8 the ASCII suffix test and the space trimming agree. Invalid UTF-8, in the header or in a path `url.Parse` decodes from `%`-escapes, is not modelled.
- `Header.Get` with several header values returns the first one. The model takes one optional value.
- The request validator is assumed not to modify the request: the code passes the request to it by pointer and then forwards the same pointer, and the model's `validate` is a pure function.
- kin-openapi's route matching, request validation, document validation and router build belong to an external engine. Their outcomes are inputs.
- Logging is a side channel. Each log call is a trace event carrying the error, and the logger's formatting is not modelled.
- `http.ResponseWriter` errors are ignored by the code, and so is the writer here. The response is its body bytes.
- Concurrent requests racing on the shared `info` mapping are not modelled. Only the sequential effect is, in `Stamp` and `EarlierRequestsDoNotMatter`.
