/**
 * The skeleton records (src/schemas-builder.ts): a header, a route response,
 * a route and an environment, each filled with its default values. The
 * random `uuid` every record carries and the environment's migration number
 * are not part of this model.
 */
module SchemasBuilder {
  import opened JsValues

  datatype Header = Header(key: string, value: string)

  datatype RouteResponse = RouteResponse(
    body: string,
    latency: int,
    statusCode: int,
    responseLabel: string,
    headers: seq<Header>,
    filePath: string,
    sendFileAsBody: bool,
    rules: seq<JsValue>,
    rulesOperator: string,
    disableTemplating: bool)

  datatype Route = Route(
    documentation: string,
    httpMethod: string,
    endpoint: string,
    responses: seq<RouteResponse>,
    enabled: bool,
    randomResponse: bool)

  datatype Environment = Environment(
    name: string,
    endpointPrefix: string,
    latency: int,
    port: int,
    routes: seq<Route>,
    proxyMode: bool,
    proxyHost: string,
    https: bool,
    cors: bool,
    headers: seq<Header>,
    proxyReqHeaders: seq<Header>,
    proxyResHeaders: seq<Header>)

  /** `buildHeader(key, value)`; omitted arguments are passed as `""`. */
  function BuildHeader(key: string, value: string): (h: Header)
    ensures h.key == key && h.value == value
  {
    Header(key, value)
  }

  /** `buildRouteResponse()`. */
  function BuildRouteResponse(): (r: RouteResponse)
    ensures r.statusCode == 200 && r.body == "{}" && r.latency == 0 && r.responseLabel == ""
    ensures r.headers == [Header("", "")]
    ensures r.filePath == "" && !r.sendFileAsBody
    ensures r.rules == [] && r.rulesOperator == "OR" && !r.disableTemplating
  {
    RouteResponse("{}", 0, 200, "", [BuildHeader("", "")], "", false, [], "OR", false)
  }

  /** `buildRoute(hasDefaultRouteResponse)`. */
  function BuildRoute(hasDefaultRouteResponse: bool): (r: Route)
    ensures r.responses == (if hasDefaultRouteResponse then [BuildRouteResponse()] else [])
    ensures r.documentation == "" && r.httpMethod == "get" && r.endpoint == ""
    ensures r.enabled && !r.randomResponse
  {
    Route("", "get", "", if hasDefaultRouteResponse then [BuildRouteResponse()] else [], true, false)
  }

  /** `buildEnvironment(hasDefaultRoute, hasDefaultHeader)`. */
  function BuildEnvironment(hasDefaultRoute: bool, hasDefaultHeader: bool): (e: Environment)
    ensures e.routes == [] <==> !hasDefaultRoute
    ensures hasDefaultRoute ==> e.routes == [BuildRoute(true)]
    ensures e.headers == (if hasDefaultHeader then [Header("Content-Type", "application/json")] else [])
    ensures e.name == "New environment" && e.endpointPrefix == "" && e.latency == 0 && e.port == 3000
    ensures !e.proxyMode && e.proxyHost == "" && !e.https && e.cors
    ensures e.proxyReqHeaders == [Header("", "")] && e.proxyResHeaders == [Header("", "")]
  {
    Environment(
      "New environment", "", 0, 3000,
      if hasDefaultRoute then [BuildRoute(true)] else [],
      false, "", false, true,
      if hasDefaultHeader then [BuildHeader("Content-Type", "application/json")] else [],
      [BuildHeader("", "")], [BuildHeader("", "")])
  }

  /** The default route of a fresh environment carries exactly one default response. */
  lemma DefaultEnvironmentRoute()
    ensures |BuildEnvironment(true, true).routes| == 1
    ensures BuildEnvironment(true, true).routes[0].responses == [BuildRouteResponse()]
    ensures |BuildEnvironment(true, true).routes[0].responses[0].headers| == 1
  {
  }
}
