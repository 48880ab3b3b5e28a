/** The request-validation middleware. Route lookup, schema validation and
    the router build belong to an OpenAPI library; their outcomes are inputs
    here. A request is handled as a trace of the events the handler causes:
    the two error logs, the validation call and the call to the next
    handler. */
module Validator {
  import opened Wrappers
  import opened Document

  /** The parts of a request the handler passes on. */
  datatype Request = Request(verb: string, path: string, query: map<string, seq<string>>)

  /** A route lookup hit: the route's name and the path parameters bound. */
  datatype RouteMatch = RouteMatch(route: string, pathParams: map<string, string>)

  /** What the handler hands to the request validator. */
  datatype ValidationInput = ValidationInput(
    request: Request,
    pathParams: map<string, string>,
    queryParams: map<string, seq<string>>,
    route: string,
    multiError: bool,       // collect every violation, not just the first
    noopAuthentication: bool // security requirements always pass
  )

  datatype Event =
    | RouteNotFoundLogged(err: string)
    | Validated(input: ValidationInput)
    | ValidationFailureLogged(err: string)
    | NextInvoked(request: Request)

  /** The validator input built for a request and its route. */
  function InputFor(req: Request, m: RouteMatch): (input: ValidationInput)
    ensures input.request == req && input.route == m.route
    ensures input.pathParams == m.pathParams && input.queryParams == req.query
    ensures input.multiError && input.noopAuthentication
  {
    ValidationInput(req, m.pathParams, req.query, m.route, true, true)
  }

  /** How many times the trace calls the next handler. */
  function CountNext(t: seq<Event>): nat {
    if t == [] then 0 else (if t[0].NextInvoked? then 1 else 0) + CountNext(t[1..])
  }

  /** How many times the trace runs the request validator. */
  function CountValidated(t: seq<Event>): nat {
    if t == [] then 0 else (if t[0].Validated? then 1 else 0) + CountValidated(t[1..])
  }

  /** How many error-log events the trace holds. */
  function CountLogged(t: seq<Event>): nat {
    if t == [] then 0
    else (if t[0].RouteNotFoundLogged? || t[0].ValidationFailureLogged? then 1 else 0) + CountLogged(t[1..])
  }

  /** Counting distributes over concatenation of traces. */
  lemma {:induction false} CountsOfConcat(a: seq<Event>, b: seq<Event>)
    ensures CountNext(a + b) == CountNext(a) + CountNext(b)
    ensures CountValidated(a + b) == CountValidated(a) + CountValidated(b)
    ensures CountLogged(a + b) == CountLogged(a) + CountLogged(b)
  {
    if a == [] {
      assert a + b == b;
    } else {
      assert (a + b)[1..] == a[1..] + b;
      CountsOfConcat(a[1..], b);
    }
  }

  /** Handles one request. `lookup` is the router's answer and `validate` the
      request validator (`None` when the request conforms). A failed lookup is
      logged and ends the request: validation is skipped and the next handler
      is not called. A found route is validated once, a violation is logged,
      and the next handler is called once either way, after validation. */
  function Handle(req: Request, lookup: Result<RouteMatch>,
                  validate: ValidationInput -> Option<string>): (t: seq<Event>)
    ensures CountNext(t) == (if lookup.Success? then 1 else 0)
    ensures CountValidated(t) == (if lookup.Success? then 1 else 0)
    ensures lookup.Failure? ==> RouteNotFoundLogged(lookup.error) in t
    ensures lookup.Success? ==> Validated(InputFor(req, lookup.value)) in t
    ensures lookup.Success? ==> t[0] == Validated(InputFor(req, lookup.value))
    ensures lookup.Success? ==> t[|t| - 1] == NextInvoked(req)
    ensures forall i :: 0 <= i < |t| && t[i].NextInvoked? ==> t[i].request == req
    ensures (exists i :: 0 <= i < |t| && t[i].ValidationFailureLogged?)
        <==> lookup.Success? && validate(InputFor(req, lookup.value)).Some?
    ensures (exists i :: 0 <= i < |t| && t[i].RouteNotFoundLogged?) <==> lookup.Failure?
    ensures lookup.Success? && validate(InputFor(req, lookup.value)).Some? ==>
      ValidationFailureLogged(validate(InputFor(req, lookup.value)).value) in t
    ensures CountLogged(t) ==
      (if lookup.Failure? || validate(InputFor(req, lookup.value)).Some? then 1 else 0)
  {
    match lookup
    case Failure(err) =>
      [RouteNotFoundLogged(err)]
    case Success(m) =>
      var input := InputFor(req, m);
      var logged := match validate(input)
                    case None => []
                    case Some(err) => [ValidationFailureLogged(err)];
      CountsOfConcat([Validated(input)], logged);
      CountsOfConcat([Validated(input)] + logged, [NextInvoked(req)]);
      [Validated(input)] + logged + [NextInvoked(req)]
  }

  /** The handler never blocks a routed request: whatever the validator
      reports, the trace ends by calling the next handler with the same
      request, and that is the only call to it. */
  lemma ViolationsNeverBlock(req: Request, m: RouteMatch,
      validate: ValidationInput -> Option<string>)
    ensures Handle(req, Success(m), validate)[|Handle(req, Success(m), validate)| - 1] == NextInvoked(req)
    ensures CountNext(Handle(req, Success(m), validate)) == 1
    ensures validate(InputFor(req, m)).Some? ==>
      Handle(req, Success(m), validate) == [Validated(InputFor(req, m)),
                                            ValidationFailureLogged(validate(InputFor(req, m)).value),
                                            NextInvoked(req)]
  {
  }

  /** A request no route matches is only logged: unlike a handler that always
      forwards, this one returns before the next handler. */
  lemma UnroutedRequestIsDropped(req: Request, err: string,
      validate: ValidationInput -> Option<string>)
    ensures Handle(req, Failure(err), validate) == [RouteNotFoundLogged(err)]
    ensures CountNext(Handle(req, Failure(err), validate)) == 0
  {
  }

  /** A middleware: the router built from the descriptor. The next handler
      and the logger are not modelled. */
  datatype APIValidator<R> = APIValidator(router: R)

  datatype ValidatorConfig = ValidatorConfig(filename: string, appName: string, appPort: string)

  /** The loaded OpenAPI document: its server list, and the rest of it. */
  datatype OpenAPIDoc = OpenAPIDoc(servers: seq<string>, body: Value)

  /** The local server URL registered on every document. */
  const LocalServer: string := "http://localhost:8080"

  /** The server URL derived from the application's name and port. */
  function AppServer(cfg: ValidatorConfig): string {
    "http://" + cfg.appName + ":" + cfg.appPort
  }

  /** The document with the local and the application server appended, in
      that order, after the servers it declares. */
  function WithServers(doc: OpenAPIDoc, cfg: ValidatorConfig): (r: OpenAPIDoc)
    ensures r.body == doc.body
    ensures |r.servers| == |doc.servers| + 2
    ensures r.servers[..|doc.servers|] == doc.servers
    ensures r.servers[|doc.servers|] == LocalServer
    ensures r.servers[|doc.servers| + 1] == AppServer(cfg)
  {
    doc.(servers := doc.servers + [LocalServer] + [AppServer(cfg)])
  }

  /** Builds the middleware: load the document, register the two servers,
      validate the document, build the router. The first step that fails
      ends construction with that step's error, unchanged. */
  function NewAPIValidator<R>(cfg: ValidatorConfig, load: string -> Result<OpenAPIDoc>,
                              validateDoc: OpenAPIDoc -> Option<string>,
                              newRouter: OpenAPIDoc -> Result<R>): (r: Result<APIValidator<R>>)
    ensures load(cfg.filename).Failure? ==> r == Failure(load(cfg.filename).error)
    ensures (load(cfg.filename).Success?
             && validateDoc(WithServers(load(cfg.filename).value, cfg)).Some?) ==>
      r == Failure(validateDoc(WithServers(load(cfg.filename).value, cfg)).value)
    ensures (load(cfg.filename).Success?
             && validateDoc(WithServers(load(cfg.filename).value, cfg)).None?
             && newRouter(WithServers(load(cfg.filename).value, cfg)).Failure?) ==>
      r == Failure(newRouter(WithServers(load(cfg.filename).value, cfg)).error)
    ensures r.Success? <==>
      && load(cfg.filename).Success?
      && validateDoc(WithServers(load(cfg.filename).value, cfg)).None?
      && newRouter(WithServers(load(cfg.filename).value, cfg)).Success?
    ensures r.Success? ==>
      r.value.router == newRouter(WithServers(load(cfg.filename).value, cfg)).value
  {
    match load(cfg.filename)
    case Failure(err) => Failure(err)
    case Success(loaded) =>
      var doc := WithServers(loaded, cfg);
      match validateDoc(doc)
      case Some(err) => Failure(err)
      case None =>
        match newRouter(doc)
        case Failure(err) => Failure(err)
        case Success(router) => Success(APIValidator(router))
  }
}
