/** `SwaggerService` (app/Services/SwaggerService.php): the process-wide
    document that every observed request/response pair is merged into, and
    the OpenAPI document written out at the end of a run. */
module Service {
  import opened Values
  import opened Http
  import opened Paths
  import opened Middleware
  import opened Merge

  datatype Contact = Contact(name: string, email: string)
  datatype Info = Info(title: string, contact: Contact, version: string)
  datatype Server = Server(url: string, description: string)

  /** `getSwaggerHeader()`: everything in the document except the paths. */
  datatype SwaggerHeader = SwaggerHeader(openapi: string, info: Info, servers: seq<Server>)

  /** The document `dumpData()` serialises: the paths and the header. */
  datatype Document = Document(paths: Tree, header: SwaggerHeader)

  /** The fixed header; the application version is read from the
      environment, so it is a parameter here. */
  function GetSwaggerHeader(version: string): (h: SwaggerHeader)
    ensures h.openapi == "3.0.1"
    ensures h.info.version == version
    ensures h.info.title == "Cattr API Documentation"
    ensures h.info.contact == Contact("Amazingcat LLC", "hi@cattr.app")
    ensures |h.servers| == 2
    ensures h.servers[0].url == "http://localhost:8000" && h.servers[0].description == "Local server served by Artisan"
    ensures h.servers[1].url == "https://demo.cattr.app/api" && h.servers[1].description == "Demo Cattr server"
  {
    SwaggerHeader(
      "3.0.1",
      Info("Cattr API Documentation", Contact("Amazingcat LLC", "hi@cattr.app"), version),
      [Server("http://localhost:8000", "Local server served by Artisan"),
       Server("https://demo.cattr.app/api", "Demo Cattr server")])
  }

  /** The static state shared by every `SwaggerService`: `self::$data` and
      `self::$fired`. */
  class Store {
    var data: Tree
    var fired: bool

    /** The state at process start. */
    constructor ()
      ensures data == map[] && !fired
    {
      data := map[];
      fired := false;
    }

    /** `dumpData()`: nothing when no service was ever constructed,
        otherwise the paths gathered so far under the fixed header. */
    function DumpData(version: string): (d: Option<Document>)
      reads this
      ensures d.Some? <==> fired
      ensures d.Some? ==> d.value.paths == data && d.value.header == GetSwaggerHeader(version)
    {
      if !fired then None else Some(Document(data, GetSwaggerHeader(version)))
    }
  }

  /** One service per observed request/response pair. */
  class SwaggerService {
    const store: Store
    const request: Request
    const response: Response
    var parameters: seq<Fragment>

    /** Constructing a service marks the run as fired. */
    constructor (store: Store, request: Request, response: Response)
      modifies store
      ensures this.store == store && this.request == request && this.response == response
      ensures parameters == []
      ensures store.fired && store.data == old(store.data)
    {
      this.store := store;
      this.request := request;
      this.response := response;
      parameters := [];
      new;
      store.fired := true;
    }

    /** `processMiddlewares()`: appends, in order, the dumped descriptors of
        every middleware the route resolves to. */
    method ProcessMiddlewares(router: Router)
      modifies this
      ensures parameters == old(parameters) + RouteParameters(router, request.route)
    {
      var middlewares := router.resolve(Normalise(router.aliasTargets, request.route.middleware));
      ghost var start := parameters;
      var i := 0;
      while i < |middlewares|
        invariant 0 <= i <= |middlewares|
        invariant parameters == start + Parameters(router, middlewares[..i])
      {
        ParametersStep(router, middlewares, i);
        ConcatAssoc(start, Parameters(router, middlewares[..i]), Contribution(router, middlewares[i]));
        parameters := parameters + Contribution(router, middlewares[i]);
        i := i + 1;
      }
      assert middlewares[..i] == middlewares;
    }

    /** `processData()`, with the debugging call `processHeadersExamples()`
        (which dumps the request headers and ends the process) left out, and
        with path-aware lookups of the operation and status entries. */
    method ProcessData(router: Router, id: string)
      modifies this, store
      ensures parameters == old(parameters) + RouteParameters(router, request.route)
      ensures store.data == Observe(old(store.data), request, response, parameters, id)
      ensures store.fired == old(store.fired)
    {
      ProcessMiddlewares(router);

      var key := KeyOf(request);
      var data := store.data;
      if key !in data {
        data := data[key := NewEntry(request.route, parameters)];
      }

      var current := EmptyResponse;
      if response.status in data[key].responses {
        current := data[key].responses[response.status];
      }

      var headers := MergeHeaders(current.headers, response.headers);
      var contentType := ContentTypeOf(response.headers);
      var content := current.content;
      if contentType in content && content[contentType].Plural? {
        content := content[contentType := Plural(content[contentType].examples[id := Example(response.body)])];
      } else if contentType !in content {
        content := content[contentType := Single(Example(response.body))];
      } else {
        content := content[contentType := Plural(map[id := Example(response.body)])];
      }

      assert current == CurrentResponse(store.data, key, response.status);
      assert content == MergeContent(current.content, contentType, response.body, id);
      var entry := data[key];
      var merged := entry.(responses := entry.responses[response.status := ResponseEntry(headers, content)]);
      assert data[key := merged] == store.data[key := merged];
      store.data := data[key := merged];
    }
  }

  /** A run with a single observation: before any service exists there is
      nothing to dump; afterwards the document holds exactly that
      observation. */
  method Lifecycle(version: string, router: Router, request: Request, response: Response, id: string)
    returns (before: Option<Document>, after: Option<Document>)
    ensures before == None
    ensures after == Some(Document(Observe(map[], request, response, RouteParameters(router, request.route), id),
                                   GetSwaggerHeader(version)))
  {
    var store := new Store();
    before := store.DumpData(version);
    var service := new SwaggerService(store, request, response);
    service.ProcessData(router, id);
    assert service.parameters == RouteParameters(router, request.route);
    after := store.DumpData(version);
  }
}
