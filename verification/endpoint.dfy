/** The descriptor endpoint: it serves the stored descriptor, rewritten so
    that `host`, `schemes`, `basePath` and `info.version` describe the URL the
    caller reached it through and the running build.

    URL parsing and YAML marshalling are library calls; they appear here as
    the function parameters `parse` and `marshal`, each of which may fail. */
module Endpoint {
  import opened Wrappers
  import opened GoStrings
  import opened Document

  /** The path at which the endpoint is expected to be served. */
  const DefaultPath: string := "/__api"

  /** The three top-level keys every rewrite overwrites. */
  const LocationKeys: set<string> := {"host", "schemes", "basePath"}

  /** The key of the version entry inside the `info` mapping. */
  const VersionKey: Value := Str("version")

  /** The parts of a parsed URL the endpoint reads. */
  datatype Url = Url(scheme: string, host: string, path: string)

  /** An endpoint: the raw descriptor bytes, their parse, and the version of
      the build, captured when the endpoint was made. */
  datatype EndpointState = EndpointState(yml: Bytes, parsedAPI: Doc, version: string)

  /** What one request produces: the response body, and the endpoint as it
      stands afterwards (its `info` mapping may have been stamped in place). */
  datatype Served = Served(body: Bytes, after: EndpointState)

  /** Builds an endpoint from descriptor bytes; `unmarshal` is the YAML decoder.
      A decoding error is returned to the caller and no endpoint is made. */
  function NewEndpointForYaml(yml: Bytes, unmarshal: Bytes -> Result<Doc>, version: string)
    : (r: Result<EndpointState>)
    ensures r.Failure? <==> unmarshal(yml).Failure?
    ensures r.Failure? ==> r.error == unmarshal(yml).error
    ensures r.Success? ==> r.value.yml == yml && r.value.version == version
                           && r.value.parsedAPI == unmarshal(yml).value
  {
    match unmarshal(yml)
    case Failure(err) => Failure(err)
    case Success(api) => Success(EndpointState(yml, api, version))
  }

  /** The base path announced for a request that reached the endpoint at
      `path`: the prefix in front of `DefaultPath` when `path` ends with it,
      and "/" otherwise. */
  function BasePath(path: string): (r: string)
    ensures HasSuffix(path, DefaultPath) ==> r + DefaultPath == path
    ensures !HasSuffix(path, DefaultPath) ==> r == "/"
  {
    if HasSuffix(path, DefaultPath) then TrimSuffix(path, DefaultPath) else "/"
  }

  /** The copy of the top-level mapping made before rewriting: every
      entry of the original, key by key. Values are immutable here, so the
      copy is equal to the original; the aliasing of the nested `info`
      mapping, which the copy does not duplicate, is modelled by `Stamp`. */
  function CopyMap(original: Doc): (copy: Doc)
    ensures copy.Keys == original.Keys
    ensures forall k :: k in original ==> copy[k] == original[k]
  {
    map k | k in original :: original[k]
  }

  /** `v` with its version entry set to `version` when `v` is a mapping;
      any other value is returned unchanged. */
  function VersionStamped(v: Value, version: string): (r: Value)
    ensures v.Map? <==> r.Map?
    ensures v.Map? ==> r.entries.Keys == v.entries.Keys + {VersionKey}
    ensures v.Map? ==> r.entries[VersionKey] == Str(version)
    ensures v.Map? ==> forall k :: k in v.entries && k != VersionKey ==> r.entries[k] == v.entries[k]
    ensures !v.Map? ==> r == v
  {
    if v.Map? then Map(v.entries[VersionKey := Str(version)]) else v
  }

  /** `doc` with its `info` entry stamped with `version`. Since the rewrite
      copies only the top level, this is also what a rewrite does to the
      stored descriptor. */
  function Stamp(doc: Doc, version: string): (r: Doc)
    ensures r.Keys == doc.Keys
    ensures forall k :: k in doc && k != "info" ==> r[k] == doc[k]
    ensures "info" in doc ==> r["info"] == VersionStamped(doc["info"], version)
  {
    if "info" in doc then doc["info" := VersionStamped(doc["info"], version)] else doc
  }

  /** The descriptor variant for a request that reached the endpoint at `u`. */
  function Derive(doc: Doc, u: Url, version: string): (r: Doc)
    ensures IsDerived(r, doc, u, version)
  {
    var located := CopyMap(doc)["host" := Str(u.host)]
                      ["schemes" := Seq([Str("https")])]
                      ["basePath" := Str(BasePath(u.path))];
    Stamp(located, version)
  }

  /** What a derived descriptor is, key by key: the original's keys plus the
      three location keys; `host` from the URL, `schemes` always `["https"]`,
      `basePath` from the URL path; `info` stamped with the version; every
      other entry as in the original. */
  ghost predicate IsDerived(d: Doc, doc: Doc, u: Url, version: string) {
    && d.Keys == doc.Keys + LocationKeys
    && d["host"] == Str(u.host)
    && d["schemes"] == Seq([Str("https")])
    && d["basePath"] == Str(BasePath(u.path))
    && (forall k :: k in doc && k !in LocationKeys && k != "info" ==> d[k] == doc[k])
    && ("info" in doc ==> d["info"] == VersionStamped(doc["info"], version))
  }

  /** `IsDerived` pins the derived descriptor down completely. */
  lemma DerivedIsUnique(d1: Doc, d2: Doc, doc: Doc, u: Url, version: string)
    requires IsDerived(d1, doc, u, version) && IsDerived(d2, doc, u, version)
    ensures d1 == d2
  {
  }

  /** The header value a request carries; an absent header reads as "". */
  function HeaderText(header: Option<string>): string {
    if header.Some? then header.value else ""
  }

  /** The request is answered with the stored bytes without rewriting: the
      header is absent or blank, or its value does not parse as a URL. */
  predicate Fallback(header: Option<string>, parse: string -> Option<Url>) {
    AllSpace(HeaderText(header)) || parse(HeaderText(header)).None?
  }

  /** Handles one request. The body is the stored bytes unless the header
      gives a parseable URL and the derived descriptor marshals; the stored
      descriptor's `info` mapping is stamped whenever the URL parses, even
      if marshalling then fails. */
  function Serve(e: EndpointState, header: Option<string>, parse: string -> Option<Url>,
                 marshal: Doc -> Option<Bytes>): (s: Served)
    ensures s.after.yml == e.yml && s.after.version == e.version
    ensures s.after.parsedAPI.Keys == e.parsedAPI.Keys
    ensures forall k :: k in e.parsedAPI && k != "info" ==> s.after.parsedAPI[k] == e.parsedAPI[k]
    ensures Fallback(header, parse) ==> s == Served(e.yml, e)
    ensures !Fallback(header, parse) ==>
      var d := Derive(e.parsedAPI, parse(HeaderText(header)).value, e.version);
      && s.after.parsedAPI == Stamp(e.parsedAPI, e.version)
      && (marshal(d).None? ==> s.body == e.yml)
      && (marshal(d).Some? ==> s.body == marshal(d).value)
  {
    var uri := HeaderText(header);
    if TrimSpace(uri) == "" then
      Served(e.yml, e)
    else
      match parse(uri)
      case None => Served(e.yml, e)
      case Some(parsed) =>
        var stored := e.(parsedAPI := Stamp(e.parsedAPI, e.version));
        match marshal(Derive(e.parsedAPI, parsed, e.version))
        case None => Served(e.yml, stored)
        case Some(out) => Served(out, stored)
  }

  /** The base path of a request at `p + DefaultPath` is `p`: the endpoint
      announces exactly the prefix it is mounted under. */
  lemma BasePathOfMountedPath(p: string)
    ensures BasePath(p + DefaultPath) == p
  {
  }

  /** Appending `DefaultPath` to the base path gives the request path back
      exactly when the request path ends with `DefaultPath`. */
  lemma BasePathRestoresPath(path: string)
    ensures BasePath(path) + DefaultPath == path <==> HasSuffix(path, DefaultPath)
  {
  }

  /** The endpoint served at the root has an empty base path, not "/". */
  lemma BasePathAtRoot()
    ensures BasePath("/__api") == ""
  {
  }

  /** The endpoint served under "/service" announces "/service". */
  lemma BasePathUnderPrefix()
    ensures BasePath("/service/__api") == "/service"
  {
  }

  /** Paths that do not end with the suffix, including ones that merely
      contain or extend it, fall back to "/". */
  lemma BasePathWithoutSuffix()
    ensures BasePath("/") == "/"
    ensures BasePath("/__api/") == "/"
    ensures BasePath("/x__api") == "/"
  {
  }

  /** On the rewrite path the body is the marshalling of THE descriptor that
      meets `IsDerived` for the parsed URL, whatever way it is built. */
  lemma {:induction false} RewriteServesDerived(e: EndpointState, header: Option<string>,
      parse: string -> Option<Url>, marshal: Doc -> Option<Bytes>, d: Doc)
    requires !Fallback(header, parse)
    requires IsDerived(d, e.parsedAPI, parse(HeaderText(header)).value, e.version)
    requires marshal(d).Some?
    ensures Serve(e, header, parse, marshal).body == marshal(d).value
  {
    var u := parse(HeaderText(header)).value;
    DerivedIsUnique(d, Derive(e.parsedAPI, u, e.version), e.parsedAPI, u, e.version);
  }

  /** The derived descriptor ignores the scheme the caller used: it always
      announces `["https"]`. */
  lemma SchemeIsIgnored(doc: Doc, u: Url, scheme: string, version: string)
    ensures Derive(doc, u.(scheme := scheme), version) == Derive(doc, u, version)
  {
  }

  /** The response's `info` and the stored `info` after the request are the
      same mapping: the copy shares it, so stamping one stamps the other. */
  lemma InfoIsShared(doc: Doc, u: Url, version: string)
    requires "info" in doc
    ensures "info" in Stamp(doc, version)
    ensures Derive(doc, u, version)["info"] == Stamp(doc, version)["info"]
  {
  }

  /** Stamping a value twice with the same version is stamping it once. */
  lemma VersionStampedIsIdempotent(v: Value, version: string)
    ensures VersionStamped(VersionStamped(v, version), version) == VersionStamped(v, version)
  {
  }

  /** Stamping a descriptor twice with the same version is stamping it once. */
  lemma StampIsIdempotent(doc: Doc, version: string)
    ensures Stamp(Stamp(doc, version), version) == Stamp(doc, version)
  {
    if "info" in doc {
      VersionStampedIsIdempotent(doc["info"], version);
    }
  }

  /** Deriving from an already stamped descriptor gives the same variant as
      deriving from the original, so the in-place stamping of the stored
      descriptor never changes what a later request is answered with. */
  lemma {:induction false} DeriveAfterStamp(doc: Doc, u: Url, version: string)
    ensures Derive(Stamp(doc, version), u, version) == Derive(doc, u, version)
  {
    var d := Derive(Stamp(doc, version), u, version);
    assert IsDerived(d, doc, u, version) by {
      if "info" in doc {
        VersionStampedIsIdempotent(doc["info"], version);
      }
    }
    DerivedIsUnique(d, Derive(doc, u, version), doc, u, version);
  }

  /** A request is answered the same whether or not earlier requests were
      served first, and serving the same request again leaves the stored
      state where the first one put it. */
  lemma {:induction false} EarlierRequestsDoNotMatter(e: EndpointState, first: Option<string>,
      header: Option<string>, parse: string -> Option<Url>, marshal: Doc -> Option<Bytes>)
    ensures Serve(Serve(e, first, parse, marshal).after, header, parse, marshal).body
         == Serve(e, header, parse, marshal).body
    ensures Serve(Serve(e, header, parse, marshal).after, header, parse, marshal).after
         == Serve(e, header, parse, marshal).after
  {
    var e1 := Serve(e, first, parse, marshal).after;
    if !Fallback(first, parse) && !Fallback(header, parse) {
      DeriveAfterStamp(e.parsedAPI, parse(HeaderText(header)).value, e.version);
    }
    if !Fallback(header, parse) {
      StampIsIdempotent(e.parsedAPI, e.version);
    }
  }

  /** A worked request: descriptor `{info: {version: "0.0.0"}}`, build
      version "2.1.0", request URL https://api.example.com/service/__api. */
  lemma WorkedRewrite()
    ensures Derive(map["info" := Map(map[Str("version") := Str("0.0.0")])],
                   Url("https", "api.example.com", "/service/__api"), "2.1.0")
         == map["info" := Map(map[Str("version") := Str("2.1.0")]),
                "host" := Str("api.example.com"),
                "schemes" := Seq([Str("https")]),
                "basePath" := Str("/service")]
  {
    var doc: Doc := map["info" := Map(map[Str("version") := Str("0.0.0")])];
    var u := Url("https", "api.example.com", "/service/__api");
    var expected: Doc := map["info" := Map(map[Str("version") := Str("2.1.0")]),
                             "host" := Str("api.example.com"),
                             "schemes" := Seq([Str("https")]),
                             "basePath" := Str("/service")];
    BasePathUnderPrefix();
    assert VersionStamped(doc["info"], "2.1.0") == expected["info"] by {
      assert map[Str("version") := Str("0.0.0")][VersionKey := Str("2.1.0")]
          == map[Str("version") := Str("2.1.0")];
    }
    assert IsDerived(expected, doc, u, "2.1.0");
    DerivedIsUnique(expected, Derive(doc, u, "2.1.0"), doc, u, "2.1.0");
  }
}
