/**
 * The two converters and the choice between them
 * (src/openapi-converter.ts:37-98, 332-334). Each converter starts from a
 * default environment and overwrites its fields one after the other.
 *
 * `new URL(url)` of the OpenAPI 3 converter is a parameter: it gives the
 * pathname and the numeric port of a URL, or nothing when the URL is invalid.
 */
module Conversion {
  import opened Wrappers
  import opened JsValues
  import opened SchemasBuilder
  import opened OpenApiDocument
  import opened Parameters
  import opened RouteConstants
  import opened RouteExtraction

  /** What the converter reads of a parsed URL: its pathname and `Number(url.port)` (0 when none is given). */
  datatype ParsedUrl = ParsedUrl(pathname: string, port: nat)

  /** `isSwagger`: the document has a `swagger` property, whatever its value. */
  predicate IsSwagger(doc: Document) {
    doc.swagger != Undefined
  }

  // ---------------------------------------------------------------------
  // The Swagger port

  /** The text up to the first `:`, or all of it. */
  function UpToColon(s: string): (r: string)
    ensures ':' !in r && |r| <= |s| && r == s[..|r|]
    ensures |r| < |s| ==> s[|r|] == ':'
  {
    if s == [] || s[0] == ':' then [] else [s[0]] + UpToColon(s[1..])
  }

  /** `s.split(':')[1]`: the text between the first and the second `:`, `undefined` without a `:`. */
  function SecondField(s: string): (r: Option<string>)
    ensures r.None? <==> ':' !in s
  {
    if s == [] then None
    else if s[0] == ':' then Some(UpToColon(s[1..]))
    else SecondField(s[1..])
  }

  /**
   * `(host && parseInt(host.split(':')[1], 10)) || 3000`: the number after the
   * first colon, unless there is none, it is not a number, or it is 0.
   */
  function SwaggerPort(host: Option<string>): (r: int)
    ensures r == 3000 || r != 0
    ensures host.None? || host.value == "" || ':' !in host.value ==> r == 3000
  {
    if host.None? || host.value == "" then 3000
    else
      match SecondField(host.value)
      case None => 3000
      case Some(field) =>
        match ParseInt(field)
        case None => 3000
        case Some(n) => if n == 0 then 3000 else n
  }

  lemma {:induction false} SecondFieldAfterName(name: string, rest: string)
    requires ':' !in name
    ensures SecondField(name + ":" + rest) == Some(UpToColon(rest))
  {
    if name == [] {
      assert (name + ":" + rest)[1..] == rest;
    } else {
      assert (name + ":" + rest)[1..] == name[1..] + ":" + rest;
      assert name[0] in name;
      SecondFieldAfterName(name[1..], rest);
    }
  }

  lemma {:induction false} UpToColonWhole(s: string)
    requires ':' !in s
    ensures UpToColon(s) == s
  {
    if s != [] {
      assert s[0] in s;
      assert forall c | c in s[1..] :: c in s;
      UpToColonWhole(s[1..]);
      assert [s[0]] + s[1..] == s;
    }
  }

  /** The port is the parsed second field whenever that parses to a non-zero number. */
  lemma SwaggerPortOfField(host: string, field: string, n: int)
    requires SecondField(host) == Some(field) && ParseInt(field) == Some(n) && n != 0
    ensures SwaggerPort(Some(host)) == n
  {
  }

  /** `host:port` with a positive port gives that port: the port text round-trips. */
  lemma SwaggerPortRoundTrip(name: string, port: nat)
    requires ':' !in name && port > 0
    ensures SwaggerPort(Some(name + ":" + NatToDecimal(port))) == port
  {
    var text := NatToDecimal(port);
    assert ':' !in text by {
      forall i | 0 <= i < |text|
        ensures text[i] != ':'
      {
        assert IsDigit(text[i]);
      }
    }
    UpToColonWhole(text);
    SecondFieldAfterName(name, text);
    assert IntToDecimal(port) == text;
    ParseIntRoundTrip(port);
    SwaggerPortOfField(name + ":" + text, text, port);
  }

  /** `host:0` and `host:abc` fall back to 3000. */
  lemma SwaggerPortFallbacks(name: string, rest: string)
    requires ':' !in name
    requires ParseInt(UpToColon(rest)).None? || ParseInt(UpToColon(rest)) == Some(0)
    ensures SwaggerPort(Some(name + ":" + rest)) == 3000
  {
    SecondFieldAfterName(name, rest);
  }

  // ---------------------------------------------------------------------
  // The converters

  /**
   * The environment `convertFromSwagger` returns: the port from the host, the
   * prefix from a non-empty `basePath`, the title or `Swagger import`, and the
   * routes, which never throw for Swagger. Every other field keeps its default.
   */
  function SwaggerEnvironment(registry: seq<StatusCode>, doc: Document): (e: Environment)
    ensures e.port == SwaggerPort(doc.host)
    ensures e.endpointPrefix
         == if doc.basePath.Some? && doc.basePath.value != "" then RemoveLeadingSlash(doc.basePath.value) else ""
    ensures e.name == OrElse(doc.title, "Swagger import")
    ensures Routes(registry, doc, Swagger) == Success(e.routes)
    ensures e.(port := 3000, endpointPrefix := "", name := "New environment", routes := []) == BuildEnvironment(false, false)
  {
    SwaggerRoutesFallbackOnly(registry, doc);
    BuildEnvironment(false, false).(
      port := SwaggerPort(doc.host),
      endpointPrefix := if doc.basePath.Some? && doc.basePath.value != "" then RemoveLeadingSlash(doc.basePath.value) else "",
      name := OrElse(doc.title, "Swagger import"),
      routes := Routes(registry, doc, Swagger).value)
  }

  /** `convertFromSwagger`: the default environment with the fields the document determines overwritten. */
  method ConvertFromSwagger(registry: seq<StatusCode>, doc: Document) returns (env: Environment)
    ensures env == SwaggerEnvironment(registry, doc)
  {
    env := BuildEnvironment(false, false);
    env := env.(port := SwaggerPort(doc.host));
    if doc.basePath.Some? && doc.basePath.value != "" {
      env := env.(endpointPrefix := RemoveLeadingSlash(doc.basePath.value));
    }
    env := env.(name := OrElse(doc.title, "Swagger import"));
    SwaggerRoutesFallbackOnly(registry, doc);
    var routes := CreateRoutes(registry, doc, Swagger);
    env := env.(routes := routes.value);
  }

  /**
   * What `convertFromOpenAPIV3` returns for a document with at least one
   * server. It throws, in this order, when the first server's URL names a
   * variable it does not declare, when the substituted URL is invalid, and
   * when a route throws; otherwise it returns the environment.
   */
  function OpenApiV3Environment(registry: seq<StatusCode>, doc: Document, parseUrl: string -> Option<ParsedUrl>)
    : (r: Result<Environment, ConvertError>)
    requires doc.servers.Some? && |doc.servers.value| > 0
    ensures var server := doc.servers.value[0];
            var url := ParametersReplace(server.url, ServerVariables(server.variables));
            url.Failure? ==> r == Failure(url.error)
    ensures var server := doc.servers.value[0];
            var url := ParametersReplace(server.url, ServerVariables(server.variables));
            url.Success? && parseUrl(url.value).None? ==> r == Failure(InvalidUrl(url.value))
    ensures var server := doc.servers.value[0];
            var url := ParametersReplace(server.url, ServerVariables(server.variables));
            url.Success? && parseUrl(url.value).Some? && Routes(registry, doc, OpenApiV3).Failure?
            ==> r == Failure(Routes(registry, doc, OpenApiV3).error)
    ensures var server := doc.servers.value[0];
            var url := ParametersReplace(server.url, ServerVariables(server.variables));
            r.Success? <==> url.Success? && parseUrl(url.value).Some? && Routes(registry, doc, OpenApiV3).Success?
    ensures r.Success? ==>
              var server := doc.servers.value[0];
              var url := ParametersReplace(server.url, ServerVariables(server.variables));
              r.value == BuildEnvironment(false, false).(
                endpointPrefix := if server.url == "" then "" else RemoveLeadingSlash(parseUrl(url.value).value.pathname),
                port := parseUrl(url.value).value.port,
                name := OrElse(doc.title, "OpenAPI import"),
                routes := Routes(registry, doc, OpenApiV3).value,
                proxyMode := server.proxyMode == Bool(true),
                proxyHost := OrElse(server.proxyHost, ""),
                proxyReqHeaders := server.proxyReqHeaders.GetOr([]),
                proxyResHeaders := server.proxyResHeaders.GetOr([]))
  {
    var server := doc.servers.value[0];
    var url := ParametersReplace(server.url, ServerVariables(server.variables));
    if url.Failure? then Failure(url.error)
    else
      match parseUrl(url.value)
      case None => Failure(InvalidUrl(url.value))
      case Some(parsed) =>
        match Routes(registry, doc, OpenApiV3)
        case Failure(e) => Failure(e)
        case Success(routes) =>
          Success(BuildEnvironment(false, false).(
            endpointPrefix := if server.url == "" then "" else RemoveLeadingSlash(parsed.pathname),
            port := parsed.port,
            name := OrElse(doc.title, "OpenAPI import"),
            routes := routes,
            proxyMode := server.proxyMode == Bool(true),
            proxyHost := OrElse(server.proxyHost, ""),
            proxyReqHeaders := server.proxyReqHeaders.GetOr([]),
            proxyResHeaders := server.proxyResHeaders.GetOr([])))
  }

  /** `convertFromOpenAPIV3`: the substitution, the URL, then the fields overwritten one by one. */
  method ConvertFromOpenApiV3(registry: seq<StatusCode>, doc: Document, parseUrl: string -> Option<ParsedUrl>)
    returns (r: Result<Environment, ConvertError>)
    requires doc.servers.Some? && |doc.servers.value| > 0
    ensures r == OpenApiV3Environment(registry, doc, parseUrl)
  {
    var server := doc.servers.value[0];
    var url := ParametersReplace(server.url, ServerVariables(server.variables));
    if url.Failure? {
      return Failure(url.error);
    }
    var env := BuildEnvironment(false, false);
    var parsed := parseUrl(url.value);
    if parsed.None? {
      return Failure(InvalidUrl(url.value));
    }
    env := env.(endpointPrefix := if server.url == "" then "" else RemoveLeadingSlash(parsed.value.pathname));
    env := env.(port := parsed.value.port);
    env := env.(name := OrElse(doc.title, "OpenAPI import"));
    var routes := CreateRoutes(registry, doc, OpenApiV3);
    if routes.Failure? {
      return Failure(routes.error);
    }
    env := env.(routes := routes.value);
    env := env.(proxyMode := server.proxyMode == Bool(true));
    env := env.(proxyHost := OrElse(server.proxyHost, ""));
    env := env.(proxyReqHeaders := server.proxyReqHeaders.GetOr([]));
    env := env.(proxyResHeaders := server.proxyResHeaders.GetOr([]));
    return Success(env);
  }

  /** The choice `import` makes once the document is dereferenced. */
  method Convert(registry: seq<StatusCode>, doc: Document, parseUrl: string -> Option<ParsedUrl>)
    returns (r: Result<Environment, ConvertError>)
    requires !IsSwagger(doc) ==> doc.servers.Some? && |doc.servers.value| > 0
    ensures IsSwagger(doc) ==> r == Success(SwaggerEnvironment(registry, doc))
    ensures !IsSwagger(doc) ==> r == OpenApiV3Environment(registry, doc, parseUrl)
  {
    if IsSwagger(doc) {
      var env := ConvertFromSwagger(registry, doc);
      return Success(env);
    }
    r := ConvertFromOpenApiV3(registry, doc, parseUrl);
  }

  // ---------------------------------------------------------------------
  // Properties

  /** A server URL naming an undeclared variable makes the conversion throw, naming that variable. */
  lemma MissingVariableNamed(doc: Document)
    requires doc.servers.Some? && |doc.servers.value| > 0
    requires var server := doc.servers.value[0];
             ParametersReplace(server.url, ServerVariables(server.variables)).Failure?
    ensures var server := doc.servers.value[0];
            var e := ParametersReplace(server.url, ServerVariables(server.variables)).error;
            e.MissingServerVariable? && e.name in TokenNames(server.url)
            && (server.variables.None? || e.name !in Keys(server.variables.value))
  {
    var server := doc.servers.value[0];
    ServerReplaceFailureNames(server.url, server.variables);
  }

  /** A server URL without placeholders reaches the URL parser unchanged, declared variables or not. */
  lemma PlainServerUrl(doc: Document)
    requires doc.servers.Some? && |doc.servers.value| > 0
    requires TokenNames(doc.servers.value[0].url) == []
    ensures var server := doc.servers.value[0];
            ParametersReplace(server.url, ServerVariables(server.variables)) == Success(server.url)
  {
    var server := doc.servers.value[0];
    NoTokensUnchanged(server.url, ServerVariables(server.variables));
  }

  /** `swagger: null` still selects the Swagger converter; only an absent property does not. */
  lemma SwaggerKeyPresence(doc: Document)
    ensures IsSwagger(doc) <==> doc.swagger != Undefined
    ensures doc.swagger == Null ==> IsSwagger(doc)
  {
  }
}
