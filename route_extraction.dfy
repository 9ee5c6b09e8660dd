/**
 * Route and response extraction (src/openapi-converter.ts:106-302):
 * `createRoutes`, `createResponse` and `buildResponseHeaders`.
 *
 * The specification is a chain of functions over the document, each step a
 * `ConcatMap` that stops at the first failure: `Routes` over the paths,
 * `PathRoutes` over a path's keys, `ResponsesOf` over an operation's status
 * keys and `StatusResponses` over a status's named examples. `CreateRoutes`
 * and `CollectResponses` are the nested loops the source runs, proved equal
 * to it.
 */
module RouteExtraction {
  import opened Wrappers
  import opened JsValues
  import opened Placeholders
  import opened JsonText
  import opened Unquote
  import opened SchemasBuilder
  import opened OpenApiDocument
  import opened Parameters
  import opened RouteConstants
  import opened SchemaSynthesis

  const JsonContentType: string := "application/json"

  // ---------------------------------------------------------------------
  // Response headers

  /** The `Content-Type` value: the first declared type when `application/json` is not among them. */
  function ContentTypeValue(types: seq<string>): (r: string)
    ensures types != [] && JsonContentType !in types ==> r == types[0]
    ensures types == [] || JsonContentType in types ==> r == JsonContentType
  {
    if |types| > 0 && JsonContentType !in types then types[0] else JsonContentType
  }

  /** The headers of a response: `Content-Type` first, then one empty header per declared name. */
  function ResponseHeaders(types: seq<string>, headerNames: seq<string>): (r: seq<Header>)
    ensures |r| == 1 + |headerNames|
    ensures r[0] == Header("Content-Type", ContentTypeValue(types))
    ensures forall i :: 0 <= i < |headerNames| ==> r[i + 1] == Header(headerNames[i], "")
  {
    [BuildHeader("Content-Type", ContentTypeValue(types))]
    + seq(|headerNames|, i requires 0 <= i < |headerNames| => BuildHeader(headerNames[i], ""))
  }

  /** `buildResponseHeaders`: the default header, its value overwritten when another type is declared. */
  method BuildResponseHeaders(types: seq<string>, headerNames: seq<string>) returns (headers: seq<Header>)
    ensures headers == ResponseHeaders(types, headerNames)
  {
    var contentType := BuildHeader("Content-Type", JsonContentType);
    if |types| > 0 && JsonContentType !in types {
      contentType := contentType.(value := types[0]);
    }
    headers := [contentType] + seq(|headerNames|, i requires 0 <= i < |headerNames| => BuildHeader(headerNames[i], ""));
  }

  // ---------------------------------------------------------------------
  // One response

  /**
   * `createResponse(schema, status, response, types, label, rules,
   * rulesOperator, disableTemplating)`; an absent `rulesOperator` or
   * `disableTemplating` takes its default. It throws when the synthesized
   * value is `undefined`, since `JSON.stringify` then gives no text.
   */
  function CreateResponse(
    schema: Schema, status: string, response: Response, types: seq<string>,
    responseLabel: string, rules: seq<JsValue>, rulesOperator: Option<string>, disableTemplating: Option<bool>
  ): (r: Result<RouteResponse, ConvertError>)
    requires ParseInt(status).Some?
    ensures r.Failure? <==> schema.SchemaObject? && Synthesize(schema) == Undefined
    ensures r.Failure? ==> r.error == UndefinedBody
    ensures r.Success? ==>
              r.value.statusCode == ParseInt(status).value
              && r.value.responseLabel == OrElse(Some(responseLabel), OrElse(response.description, ""))
              && r.value.headers == ResponseHeaders(types, response.headerNames)
              && r.value.rules == rules
              && r.value.rulesOperator == rulesOperator.GetOr("OR")
              && r.value.disableTemplating == disableTemplating.GetOr(false)
              && r.value.latency == 0 && r.value.filePath == "" && !r.value.sendFileAsBody
    ensures r.Success? && schema.NotObject? ==> r.value.body == ""
  {
    var body :-
      if schema.NotObject? then Success("")
      else
        var text := Stringify(Synthesize(schema));
        if text.None? then Failure(UndefinedBody) else Success(ConvertJsonSchemaPrimitives(text.value));
    Success(BuildRouteResponse().(
      body := body,
      statusCode := ParseInt(status).value,
      responseLabel := OrElse(Some(responseLabel), OrElse(response.description, "")),
      headers := ResponseHeaders(types, response.headerNames),
      rules := rules,
      rulesOperator := rulesOperator.GetOr("OR"),
      disableTemplating := disableTemplating.GetOr(false)))
  }

  /**
   * The body of a response is the serialized example in which the number,
   * boolean and float tokens stand bare and everything else is as
   * `JSON.stringify` wrote it.
   */
  lemma ResponseBodyIsReference(
    schema: Schema, status: string, response: Response, types: seq<string>,
    responseLabel: string, rules: seq<JsValue>, rulesOperator: Option<string>, disableTemplating: Option<bool>)
    requires ParseInt(status).Some? && schema.SchemaObject?
    requires Synthesize(schema) != Undefined && QuoteSafe(UnquotedTokens, Synthesize(schema))
    ensures var r := CreateResponse(schema, status, response, types, responseLabel, rules, rulesOperator, disableTemplating);
            r.Success? && r.value.body == Ser(Synthesize(schema), 0, UnquotedTokens)
  {
    ConvertSerialized(Synthesize(schema));
  }

  // ---------------------------------------------------------------------
  // The responses of a status key

  /**
   * The content types of a response: for Swagger the first declared of the
   * operation's `produces` and `consumes` and the document's (an empty list
   * counts as declared); for OpenAPI 3 the keys of `content`.
   */
  function ContentTypes(doc: Document, version: SpecVersion, op: Operation, response: Response): seq<string> {
    match version
    case Swagger => op.produces.GetOr(op.consumes.GetOr(doc.produces.GetOr(doc.consumes.GetOr([]))))
    case OpenApiV3 => if response.content.Some? then Keys(response.content.value) else []
  }

  /** The `application/json` media type of an OpenAPI 3 response. */
  function JsonMedia(response: Response): Option<MediaType> {
    if response.content.Some? then Lookup(response.content.value, JsonContentType) else None
  }

  /** The schema examples are spread into: `{}` unless `application/json` is declared. */
  function ResponseSchema(version: SpecVersion, response: Response, types: seq<string>): Schema {
    if JsonContentType !in types then EmptySchema
    else
      match version
      case Swagger => response.schema
      case OpenApiV3 => if JsonMedia(response).Some? then JsonMedia(response).value.schema else NotObject
  }

  /** The named examples: only an OpenAPI 3 `application/json` media type has any. */
  function NamedExamples(version: SpecVersion, response: Response, types: seq<string>): seq<(string, Example)> {
    if JsonContentType in types && version == OpenApiV3 && JsonMedia(response).Some? then
      JsonMedia(response).value.examples.GetOr([])
    else
      []
  }

  /** The response for one named example, as a list of one. */
  function ExampleResponse(status: string, response: Response, types: seq<string>, schema: Schema, named: (string, Example))
    : Result<seq<RouteResponse>, ConvertError>
    requires ParseInt(status).Some?
  {
    var example := named.1;
    var r :- CreateResponse(WithExample(schema, example.value), status, response, types,
                            named.0, example.rules.GetOr([]), example.rulesOperator, example.disableTemplating);
    Success([r])
  }

  function ExampleStep(status: string, response: Response, types: seq<string>, schema: Schema)
    : ((string, Example)) -> Result<seq<RouteResponse>, ConvertError>
    requires ParseInt(status).Some?
  {
    (named: (string, Example)) => ExampleResponse(status, response, types, schema, named)
  }

  /** The responses a status key contributes: one per named example, none for an unregistered key. */
  function StatusResponses(
    registry: seq<StatusCode>, doc: Document, version: SpecVersion, op: Operation, status: string, response: Response
  ): Result<seq<RouteResponse>, ConvertError> {
    if !IsRegisteredStatus(registry, status) then Success([])
    else
      var types := ContentTypes(doc, version, op, response);
      ConcatMap(NamedExamples(version, response, types),
                ExampleStep(status, response, types, ResponseSchema(version, response, types)))
  }

  function StatusStep(registry: seq<StatusCode>, doc: Document, version: SpecVersion, op: Operation)
    : ((string, Response)) -> Result<seq<RouteResponse>, ConvertError>
  {
    (entry: (string, Response)) => StatusResponses(registry, doc, version, op, entry.0, entry.1)
  }

  /** The responses of an operation, status keys in order. */
  function ResponsesOf(registry: seq<StatusCode>, doc: Document, version: SpecVersion, op: Operation)
    : Result<seq<RouteResponse>, ConvertError>
  {
    ConcatMap(op.responses, StatusStep(registry, doc, version, op))
  }

  // ---------------------------------------------------------------------
  // Routes

  /** The response a route gets when its operation yields none. */
  const FallbackResponse: RouteResponse :=
    BuildRouteResponse().(headers := [BuildHeader("Content-Type", JsonContentType)], body := "")

  function WithFallback(responses: seq<RouteResponse>): (r: seq<RouteResponse>)
    ensures |r| >= 1
  {
    if responses == [] then [FallbackResponse] else responses
  }

  /** The route of one (path, method) pair. */
  function RouteFor(
    registry: seq<StatusCode>, doc: Document, version: SpecVersion, path: string, httpMethod: string, op: Operation
  ): Result<Route, ConvertError> {
    var responses :- ResponsesOf(registry, doc, version, op);
    Success(BuildRoute(false).(
      documentation := OrElse(op.summary, OrElse(op.description, "")),
      httpMethod := httpMethod,
      endpoint := Endpoint(path),
      responses := WithFallback(responses)))
  }

  function MethodStep(registry: seq<StatusCode>, doc: Document, version: SpecVersion, path: string)
    : ((string, Operation)) -> Result<seq<Route>, ConvertError>
  {
    (entry: (string, Operation)) =>
      if !IsSupportedMethod(entry.0) then Success([])
      else
        match RouteFor(registry, doc, version, path, entry.0, entry.1)
        case Success(route) => Success([route])
        case Failure(e) => Failure(e)
  }

  /** The routes of one path, its keys in order; keys that are not supported methods are skipped. */
  function PathRoutes(
    registry: seq<StatusCode>, doc: Document, version: SpecVersion, path: string, ops: seq<(string, Operation)>
  ): Result<seq<Route>, ConvertError> {
    ConcatMap(ops, MethodStep(registry, doc, version, path))
  }

  function PathStep(registry: seq<StatusCode>, doc: Document, version: SpecVersion)
    : ((string, seq<(string, Operation)>)) -> Result<seq<Route>, ConvertError>
  {
    (entry: (string, seq<(string, Operation)>)) => PathRoutes(registry, doc, version, entry.0, entry.1)
  }

  /** `createRoutes(doc, version)`, paths in order. */
  function Routes(registry: seq<StatusCode>, doc: Document, version: SpecVersion): Result<seq<Route>, ConvertError> {
    ConcatMap(doc.paths, PathStep(registry, doc, version))
  }

  // ---------------------------------------------------------------------
  // The loops

  /** The loop over a status's named examples: one response each, stopping at the first that throws. */
  method CollectExamples(
    status: string, response: Response, types: seq<string>, schema: Schema, examples: seq<(string, Example)>)
    returns (r: Result<seq<RouteResponse>, ConvertError>)
    requires ParseInt(status).Some?
    ensures r == ConcatMap(examples, ExampleStep(status, response, types, schema))
  {
    var created: seq<RouteResponse> := [];
    for k := 0 to |examples|
      invariant ConcatMap(examples[..k], ExampleStep(status, response, types, schema)) == Success(created)
    {
      var name, example := examples[k].0, examples[k].1;
      ConcatMapStep(examples, k, ExampleStep(status, response, types, schema));
      var one := CreateResponse(WithExample(schema, example.value), status, response, types,
                                name, example.rules.GetOr([]), example.rulesOperator, example.disableTemplating);
      if one.Failure? {
        ConcatMapFailurePrefix(examples, k + 1, ExampleStep(status, response, types, schema));
        return Failure(one.error);
      }
      created := created + [one.value];
    }
    assert examples[..|examples|] == examples;
    return Success(created);
  }

  /** The status loop of `createRoutes`; registered statuses run the example loop. */
  method CollectResponses(registry: seq<StatusCode>, doc: Document, version: SpecVersion, op: Operation)
    returns (r: Result<seq<RouteResponse>, ConvertError>)
    ensures r == ResponsesOf(registry, doc, version, op)
  {
    var routeResponses: seq<RouteResponse> := [];
    var entries := op.responses;
    for i := 0 to |entries|
      invariant ConcatMap(entries[..i], StatusStep(registry, doc, version, op)) == Success(routeResponses)
    {
      var status, response := entries[i].0, entries[i].1;
      ConcatMapStep(entries, i, StatusStep(registry, doc, version, op));
      assert StatusStep(registry, doc, version, op)(entries[i]) == StatusResponses(registry, doc, version, op, status, response);
      if IsRegisteredStatus(registry, status) {
        var types := ContentTypes(doc, version, op, response);
        var made := CollectExamples(status, response, types, ResponseSchema(version, response, types),
                                    NamedExamples(version, response, types));
        if made.Failure? {
          ConcatMapFailurePrefix(entries, i + 1, StatusStep(registry, doc, version, op));
          return Failure(made.error);
        }
        routeResponses := routeResponses + made.value;
      } else {
        assert routeResponses + [] == routeResponses;
      }
    }
    assert entries[..|entries|] == entries;
    return Success(routeResponses);
  }

  /** The route `createRoutes` pushes for a supported method whose responses were collected. */
  lemma RouteForCollected(
    registry: seq<StatusCode>, doc: Document, version: SpecVersion, path: string, httpMethod: string, op: Operation,
    responses: seq<RouteResponse>)
    requires ResponsesOf(registry, doc, version, op) == Success(responses)
    ensures RouteFor(registry, doc, version, path, httpMethod, op) == Success(BuildRoute(false).(
              documentation := OrElse(op.summary, OrElse(op.description, "")),
              httpMethod := httpMethod,
              endpoint := RemoveLeadingSlash(PathReplace(path)),
              responses := if |responses| == 0 then responses + [FallbackResponse] else responses))
  {
    assert [] + [FallbackResponse] == [FallbackResponse];
  }

  /** The loop over a path's keys: a route pushed for each supported method. */
  method CollectPathRoutes(registry: seq<StatusCode>, doc: Document, version: SpecVersion, path: string, ops: seq<(string, Operation)>)
    returns (r: Result<seq<Route>, ConvertError>)
    ensures r == PathRoutes(registry, doc, version, path, ops)
  {
    var routes: seq<Route> := [];
    for j := 0 to |ops|
      invariant PathRoutes(registry, doc, version, path, ops[..j]) == Success(routes)
    {
      var httpMethod, op := ops[j].0, ops[j].1;
      ConcatMapStep(ops, j, MethodStep(registry, doc, version, path));
      if IsSupportedMethod(httpMethod) {
        var responses := CollectResponses(registry, doc, version, op);
        if responses.Failure? {
          ConcatMapFailurePrefix(ops, j + 1, MethodStep(registry, doc, version, path));
          return Failure(responses.error);
        }
        var routeResponses := responses.value;
        RouteForCollected(registry, doc, version, path, httpMethod, op, routeResponses);
        if |routeResponses| == 0 {
          routeResponses := routeResponses + [FallbackResponse];
        }
        var route := BuildRoute(false).(
          documentation := OrElse(op.summary, OrElse(op.description, "")),
          httpMethod := httpMethod,
          endpoint := RemoveLeadingSlash(PathReplace(path)),
          responses := routeResponses);
        routes := routes + [route];
      } else {
        assert routes + [] == routes;
      }
    }
    assert ops[..|ops|] == ops;
    return Success(routes);
  }

  /** `createRoutes`: the loop over the paths. */
  method CreateRoutes(registry: seq<StatusCode>, doc: Document, version: SpecVersion)
    returns (r: Result<seq<Route>, ConvertError>)
    ensures r == Routes(registry, doc, version)
  {
    var routes: seq<Route> := [];
    var paths := doc.paths;
    for i := 0 to |paths|
      invariant ConcatMap(paths[..i], PathStep(registry, doc, version)) == Success(routes)
    {
      ConcatMapStep(paths, i, PathStep(registry, doc, version));
      var pathRoutes := CollectPathRoutes(registry, doc, version, paths[i].0, paths[i].1);
      if pathRoutes.Failure? {
        ConcatMapFailurePrefix(paths, i + 1, PathStep(registry, doc, version));
        return Failure(pathRoutes.error);
      }
      routes := routes + pathRoutes.value;
    }
    assert paths[..|paths|] == paths;
    return Success(routes);
  }

  // ---------------------------------------------------------------------
  // Properties

  /** The fallback: status 200, empty body, no rules, `OR`, and a single `Content-Type: application/json`. */
  lemma FallbackShape()
    ensures FallbackResponse.statusCode == 200 && FallbackResponse.body == ""
    ensures FallbackResponse.rules == [] && FallbackResponse.rulesOperator == "OR"
    ensures FallbackResponse.headers == [Header("Content-Type", "application/json")]
    ensures FallbackResponse.responseLabel == "" && !FallbackResponse.disableTemplating
  {
  }

  /** A (path, method, operation) triple whose method is supported, in document order. */
  datatype Pair = Pair(path: string, httpMethod: string, op: Operation)

  function OpPairs(path: string): ((string, Operation)) -> seq<Pair> {
    (entry: (string, Operation)) => if IsSupportedMethod(entry.0) then [Pair(path, entry.0, entry.1)] else []
  }

  function PathPairs(): ((string, seq<(string, Operation)>)) -> seq<Pair> {
    (entry: (string, seq<(string, Operation)>)) => FlatMap(entry.1, OpPairs(entry.0))
  }

  /** The supported (path, method) pairs of a document: path keys in order, then method keys in order. */
  function SupportedPairs(doc: Document): seq<Pair> {
    FlatMap(doc.paths, PathPairs())
  }

  /**
   * Routes correspond one to one, in order, to the supported pairs: whatever
   * `rel` holds of every route `RouteFor` builds holds of the route at the
   * same position.
   */
  lemma RoutesMatchPairs(registry: seq<StatusCode>, doc: Document, version: SpecVersion, rel: (Route, Pair) -> bool)
    requires forall path, m, op :: IsSupportedMethod(m) && RouteFor(registry, doc, version, path, m, op).Success?
               ==> rel(RouteFor(registry, doc, version, path, m, op).value, Pair(path, m, op))
    ensures var r := Routes(registry, doc, version);
            var pairs := SupportedPairs(doc);
            r.Success? ==> |r.value| == |pairs| && forall k :: 0 <= k < |pairs| ==> rel(r.value[k], pairs[k])
  {
    forall entry | entry in doc.paths
      ensures var f := PathStep(registry, doc, version); var g := PathPairs();
              f(entry).Success? ==>
                (|f(entry).value| == |g(entry)| && forall k :: 0 <= k < |g(entry)| ==> rel(f(entry).value[k], g(entry)[k]))
    {
      ConcatMapPointwise(entry.1, MethodStep(registry, doc, version, entry.0), OpPairs(entry.0), rel);
    }
    ConcatMapPointwise(doc.paths, PathStep(registry, doc, version), PathPairs(), rel);
  }

  /**
   * One route per supported pair, in order: the method as declared, the
   * endpoint from the path, `summary || description || ''` as documentation,
   * and the operation's responses, or the fallback when there are none.
   */
  lemma RoutePerSupportedPair(registry: seq<StatusCode>, doc: Document, version: SpecVersion)
    ensures var r := Routes(registry, doc, version);
            var pairs := SupportedPairs(doc);
            r.Success? ==>
              |r.value| == |pairs|
              && forall k :: 0 <= k < |pairs| ==>
                   r.value[k].httpMethod == pairs[k].httpMethod
                   && r.value[k].endpoint == Endpoint(pairs[k].path)
                   && r.value[k].documentation == OrElse(pairs[k].op.summary, OrElse(pairs[k].op.description, ""))
                   && r.value[k].enabled && !r.value[k].randomResponse
                   && ResponsesOf(registry, doc, version, pairs[k].op).Success?
                   && r.value[k].responses == WithFallback(ResponsesOf(registry, doc, version, pairs[k].op).value)
  {
    var rel := (route: Route, p: Pair) =>
      route.httpMethod == p.httpMethod
      && route.endpoint == Endpoint(p.path)
      && route.documentation == OrElse(p.op.summary, OrElse(p.op.description, ""))
      && route.enabled && !route.randomResponse
      && ResponsesOf(registry, doc, version, p.op).Success?
      && route.responses == WithFallback(ResponsesOf(registry, doc, version, p.op).value);
    RoutesMatchPairs(registry, doc, version, rel);
  }

  /** Every route has at least one response. */
  lemma EveryRouteHasAResponse(registry: seq<StatusCode>, doc: Document, version: SpecVersion)
    ensures var r := Routes(registry, doc, version);
            r.Success? ==> forall route | route in r.value :: |route.responses| >= 1
  {
    RoutePerSupportedPair(registry, doc, version);
  }

  /** A Swagger status never has named examples, so it contributes no response. */
  lemma SwaggerStatusEmpty(registry: seq<StatusCode>, doc: Document, op: Operation, status: string, response: Response)
    ensures StatusResponses(registry, doc, Swagger, op, status, response) == Success([])
  {
  }

  lemma SwaggerResponsesEmpty(registry: seq<StatusCode>, doc: Document, op: Operation)
    ensures ResponsesOf(registry, doc, Swagger, op) == Success([])
  {
    forall entry | entry in op.responses
      ensures StatusStep(registry, doc, Swagger, op)(entry) == Success([])
    {
      SwaggerStatusEmpty(registry, doc, op, entry.0, entry.1);
    }
    ConcatMapAllEmpty(op.responses, StatusStep(registry, doc, Swagger, op));
  }

  /** A Swagger document always converts, and every route carries exactly the fallback response. */
  lemma SwaggerRoutesFallbackOnly(registry: seq<StatusCode>, doc: Document)
    ensures Routes(registry, doc, Swagger).Success?
    ensures |Routes(registry, doc, Swagger).value| == |SupportedPairs(doc)|
    ensures forall route | route in Routes(registry, doc, Swagger).value :: route.responses == [FallbackResponse]
  {
    forall entry | entry in doc.paths
      ensures PathStep(registry, doc, Swagger)(entry).Success?
    {
      forall m | m in entry.1
        ensures MethodStep(registry, doc, Swagger, entry.0)(m).Success?
      {
        SwaggerResponsesEmpty(registry, doc, m.1);
      }
      ConcatMapFailureIff(entry.1, MethodStep(registry, doc, Swagger, entry.0));
    }
    ConcatMapFailureIff(doc.paths, PathStep(registry, doc, Swagger));
    forall op: Operation ensures ResponsesOf(registry, doc, Swagger, op) == Success([]) {
      SwaggerResponsesEmpty(registry, doc, op);
    }
    RoutePerSupportedPair(registry, doc, Swagger);
  }

  /** A status key whose `parseInt` is no registered code contributes nothing: `default` never does. */
  lemma UnregisteredStatusDropped(
    registry: seq<StatusCode>, doc: Document, version: SpecVersion, op: Operation, response: Response)
    ensures StatusResponses(registry, doc, version, op, "default", response) == Success([])
  {
    NonNumericStatusKeys();
  }

  /** Without an `application/json` content type a status contributes nothing. */
  lemma NonJsonStatusEmpty(
    registry: seq<StatusCode>, doc: Document, version: SpecVersion, op: Operation, status: string, response: Response)
    requires JsonContentType !in ContentTypes(doc, version, op, response)
    ensures StatusResponses(registry, doc, version, op, status, response) == Success([])
  {
  }

  /**
   * A registered status contributes one response per named example, in order:
   * its status code, the example name as label (the description when the name
   * is empty), the example's rules and flags with their defaults, the response
   * headers, and the body synthesized from the example spread into the schema.
   */
  lemma StatusExpansion(
    registry: seq<StatusCode>, doc: Document, version: SpecVersion, op: Operation, status: string, response: Response)
    requires IsRegisteredStatus(registry, status)
    ensures var types := ContentTypes(doc, version, op, response);
            var examples := NamedExamples(version, response, types);
            var schema := ResponseSchema(version, response, types);
            var r := StatusResponses(registry, doc, version, op, status, response);
            r.Success? ==>
              |r.value| == |examples|
              && forall k :: 0 <= k < |examples| ==>
                   var name, example := examples[k].0, examples[k].1;
                   var text := Stringify(Synthesize(WithExample(schema, example.value)));
                   r.value[k].statusCode == ParseInt(status).value
                   && r.value[k].responseLabel == OrElse(Some(name), OrElse(response.description, ""))
                   && r.value[k].rules == example.rules.GetOr([])
                   && r.value[k].rulesOperator == example.rulesOperator.GetOr("OR")
                   && r.value[k].disableTemplating == example.disableTemplating.GetOr(false)
                   && r.value[k].headers == ResponseHeaders(types, response.headerNames)
                   && text.Some? && r.value[k].body == ConvertJsonSchemaPrimitives(text.value)
  {
    var types := ContentTypes(doc, version, op, response);
    var examples := NamedExamples(version, response, types);
    var schema := ResponseSchema(version, response, types);
    var rel := (rr: RouteResponse, named: (string, Example)) =>
      var text := Stringify(Synthesize(WithExample(schema, named.1.value)));
      rr.statusCode == ParseInt(status).value
      && rr.responseLabel == OrElse(Some(named.0), OrElse(response.description, ""))
      && rr.rules == named.1.rules.GetOr([])
      && rr.rulesOperator == named.1.rulesOperator.GetOr("OR")
      && rr.disableTemplating == named.1.disableTemplating.GetOr(false)
      && rr.headers == ResponseHeaders(types, response.headerNames)
      && text.Some? && rr.body == ConvertJsonSchemaPrimitives(text.value);
    ConcatMapPointwise(examples, ExampleStep(status, response, types, schema), (x: (string, Example)) => [x], rel);
    FlatMapSingletons(examples);
  }

  /** A status fails exactly when one of its examples synthesizes to `undefined`. */
  lemma StatusFailureIff(
    registry: seq<StatusCode>, doc: Document, version: SpecVersion, op: Operation, status: string, response: Response)
    requires IsRegisteredStatus(registry, status)
    ensures var types := ContentTypes(doc, version, op, response);
            var schema := ResponseSchema(version, response, types);
            StatusResponses(registry, doc, version, op, status, response).Failure?
            <==> exists named :: named in NamedExamples(version, response, types)
                   && Synthesize(WithExample(schema, named.1.value)) == Undefined
  {
    var types := ContentTypes(doc, version, op, response);
    ConcatMapFailureIff(NamedExamples(version, response, types),
                        ExampleStep(status, response, types, ResponseSchema(version, response, types)));
  }
}
