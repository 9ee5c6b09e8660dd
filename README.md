# OpenAPI / Swagger import converter, modelled in Dafny

This project models the converter that turns a dereferenced Swagger 2.0 or
OpenAPI 3 document into a mock environment: a record with a name, a port, an
endpoint prefix, proxy settings and an ordered list of routes. Each route has
a method, an endpoint and one or more responses.

The model covers:

- **Route constants** (`route_constants.dfy`): the seven supported HTTP
  methods, and the status-code registry built from a table of status codes.
- **Skeleton builders** (`schemas_builder.dfy`): the default header, route
  response, route and environment records.
- **Parameter rewriting** (`parameters.dfy`): `parametersReplace`.
  - A path placeholder `{id}` becomes `:id`.
  - A server placeholder becomes the variable's default; an undeclared
    variable throws.
- **Example synthesis** (`schema_synthesis.dfy`): `generateSchema`.
  - `Synthesize` is its recursive specification.
  - `GenerateSchema` and `BuildObject` are the loops the source runs (the
    composition-keyword loop and the object factory), proved equal to it.
- **Serialization and post-pass** (`json_text.dfy`, `unquote.dfy`):
  - `JSON.stringify(v, null, 2)`;
  - `convertJSONSchemaPrimitives`, a global regular-expression replacement
    that removes the quotes around the number, float and boolean placeholder
    tokens.

  On every value whose strings and keys hold no double quote, and no key of
  which is one of those tokens, the pass is proved to give the serialization
  in which exactly those three tokens are bare.
- **Route extraction** (`route_extraction.dfy`): `createRoutes`,
  `createResponse` and `buildResponseHeaders`.
  - The specification is a chain of left-to-right, stop-at-first-failure
    maps over paths, methods, status keys and named examples.
  - `CreateRoutes`, `CollectPathRoutes`, `CollectResponses` and
    `BuildResponseHeaders` are the nested loops, proved equal to it.
- **Conversion** (`conversion.dfy`): `isSwagger`, `convertFromSwagger`,
  `convertFromOpenAPIV3` and the choice between them.
  - Each converter is a method that starts from the default environment and
    overwrites its fields.
  - What the converter can throw is a `Result` failure: an undefined body, a
    missing server variable, or an invalid URL.

Supporting modules: `Wrappers` (`Option`, `Result`, and the `ConcatMap` and
`FlatMap` folds), `JsValues` (JavaScript values, truthiness, `parseInt`,
property lookup), `Placeholders` (the token strings) and `OpenApiDocument`
(the document's data types).

## Where the code and its documented design differ (the model follows the code)

- **Composition.** `allOf`, `oneOf` and `anyOf` are visited in that order, and
  each non-empty one overwrites the choice. So `anyOf` beats `oneOf`, which
  beats `allOf` (`CompositionChoice`). The chosen member is not synthesized
  recursively: its raw `type` and the member itself go straight to the
  factory table, so its own `enum`, `example` and `default` are ignored
  (`MemberShortcutsIgnored`).
- **Falsy values.** `example` and `default` are used only when truthy. An
  example of `0`, `''`, `false` or `null` is treated as absent
  (`FalsyExampleIgnored`).
- **An empty `enum`** still yields a pick-one token (`EmptyEnumToken`).
- **Responses come only from named examples.**
  - Every response is built by spreading a named example into the schema, so
    a status without named examples yields no response.
  - A Swagger document has no named examples, so every Swagger route carries
    only the fallback response (`SwaggerRoutesFallbackOnly`).
  - A named example's value is not copied verbatim into the body. It goes
    through synthesis, where an `enum` on the schema still wins
    (`EnumBeatsExample`).
- **Range status keys** (`4XX`) are dropped only because `parseInt` reads `4`,
  which is no registered code. A key such as `200abc` passes as 200
  (`RegisteredStatusIff`, `NonNumericStatusKeys`).
- **The environment skeleton** is `buildEnvironment(false, false)`: no default
  route and no default header.
- **The Swagger port** also falls back to 3000 when the number after the first
  colon is 0 (`SwaggerPort`).

## Model

| member | source | states |
|---|---|---|
| RouteConstants.MethodsShape | src/constants/routes.ts:3-11 | seven distinct lower-case method names; `GET` and extension keys such as `x-foo` or `parameters` are not supported methods |
| RouteConstants.StatusCodes | src/constants/routes.ts:18-24 | one registry entry per status-table key, in key order, carrying the key's numeric value and its reason phrase |
| RouteConstants.KeysParse | src/constants/routes.ts:18-19 | `parseInt` and `Number` give the same code for every table key |
| RouteConstants.TableKeysRegistered | src/openapi-converter.ts:130-134 | every key of the status table passes the status filter |
| RouteConstants.RegisteredStatusIff | src/openapi-converter.ts:130-134 | a status key passes the filter exactly when `parseInt` of it is a number equal to the code of some table key |
| RouteConstants.IsRegisteredStatus | src/openapi-converter.ts:130-134 | defines a supported status: one whose `parseInt` equals a registered code; see RegisteredStatusIff |
| RouteConstants.NonNumericStatusKeys | src/openapi-converter.ts:129-133 | `parseInt("default")` is NaN and `parseInt("4XX")` is 4 |
| SchemasBuilder.BuildHeader | src/schemas-builder.ts:14-16 | a header carries exactly the given key and value |
| SchemasBuilder.BuildRouteResponse | src/schemas-builder.ts:21-35 | the default response: status 200, body `{}`, latency 0, one empty header, no rules, operator `OR`, templating on |
| SchemasBuilder.BuildRoute | src/schemas-builder.ts:40-50 | the default route: `get`, empty endpoint and documentation, enabled, not random; one default response exactly when asked for |
| SchemasBuilder.BuildEnvironment | src/schemas-builder.ts:55-78 | the default environment: port 3000, name `New environment`, CORS on, proxy off; routes empty exactly when no default route is asked for; the default header only when asked for |
| SchemasBuilder.DefaultEnvironmentRoute | src/schemas-builder.ts:67 | a fresh default environment has one route, which has one default response with one header |
| JsValues.OrElse | src/openapi-converter.ts:61 | `a \|\| b` on a string: `a` when present and non-empty, otherwise `b` |
| JsValues.ParseInt | src/openapi-converter.ts:132 | defines `parseInt(s, 10)`: optional blanks and sign, then the longest digit prefix, or nothing; see ParseIntDigitsThenText and ParseIntRoundTrip |
| JsValues.ParseIntDigitsThenText | src/openapi-converter.ts:132 | `parseInt` reads the leading digits and ignores a non-digit suffix |
| JsValues.ParseIntRoundTrip | src/openapi-converter.ts:251 | `parseInt` inverts the decimal text of every integer |
| JsonText.DefinedKeepsOrder | src/openapi-converter.ts:244 | the written properties keep their order: the filter distributes over concatenation |
| JsonText.Defined | src/openapi-converter.ts:244 | `JSON.stringify` writes exactly the object properties whose value is not `undefined` |
| JsonText.Ser | src/openapi-converter.ts:244 | defines the indented serialization of a value; see Stringify |
| JsonText.Stringify | src/openapi-converter.ts:244 | `JSON.stringify` gives no text exactly for `undefined` |
| Unquote.MatchAt | src/openapi-converter.ts:437 | a match is a listed token in double quotes at the scan position; no match means no listed quoted token starts there |
| Unquote.NumberTokenUnquoted | src/openapi-converter.ts:437 | the quoted random-number token loses its quotes |
| Unquote.BooleanTokenUnquoted | src/openapi-converter.ts:437 | the quoted random-boolean token loses its quotes |
| Unquote.FloatTokenUnquoted | src/openapi-converter.ts:437 | the quoted random-float token loses its quotes |
| Unquote.EmailTokenQuoted | src/openapi-converter.ts:437 | the e-mail token keeps its quotes |
| Unquote.UuidTokenQuoted | src/openapi-converter.ts:437 | the uuid token keeps its quotes |
| Unquote.DateTokenQuoted | src/openapi-converter.ts:437 | the date token keeps its quotes |
| Unquote.RecentDateTokenQuoted | src/openapi-converter.ts:437 | the recent-date token keeps its quotes |
| Unquote.ReplaceStringLiteral | src/openapi-converter.ts:436-439 | a quote-free JSON string literal loses its quotes exactly when its text is one of the tokens |
| Unquote.ReplaceQuoted | src/openapi-converter.ts:436-439 | defines the left-to-right, non-overlapping removal of the quotes around each helper token; see the lemmas of this module |
| Unquote.ReplaceLength | src/openapi-converter.ts:436-439 | the replacement never lengthens the text, and strictly shortens it when a quoted token occurs |
| Unquote.ReplaceWithoutOccurrence | src/openapi-converter.ts:436-439 | without an occurrence of a quoted token the text is unchanged |
| Unquote.ConvertIdentityIff | src/openapi-converter.ts:435-440 | the pass leaves a text unchanged exactly when no quoted number, boolean or float token occurs in it |
| Unquote.ConvertJsonSchemaPrimitives | src/openapi-converter.ts:435-440 | defines the unquoting of the number, boolean and float helpers; see ConvertIdentityIff and ConvertSerialized |
| Unquote.SplitAtBreaker | src/openapi-converter.ts:436-439 | no match spans a JSON separator, so the scan of a concatenation splits there |
| Unquote.ReplaceSerialized | src/openapi-converter.ts:436-439 | on the serialization of a quote-safe value, the scan gives the rendering with exactly the listed tokens bare |
| Unquote.ConvertSerialized | src/openapi-converter.ts:243-245 | `convertJSONSchemaPrimitives(JSON.stringify(v, null, 2))` of a quote-safe defined value is the reference serialization in which only the number, boolean and float tokens are bare |
| Parameters.WordPrefix | src/openapi-converter.ts:318 | the longest prefix of `\w` characters |
| Parameters.TokenAt | src/openapi-converter.ts:318 | a found placeholder is `{`, a non-empty run of word characters, `}` at the front of the text |
| Parameters.TokenAtComplete | src/openapi-converter.ts:318 | when none is found, no placeholder begins the text |
| Parameters.Replacement | src/openapi-converter.ts:319-323 | path mode gives `:name`; server mode fails, naming the variable, exactly when the variable is not declared, and otherwise gives the variable's `default`, or the text `undefined` when it has none |
| Parameters.ParametersReplace | src/openapi-converter.ts:311-325 | defines the left-to-right replacement of every `{word}` placeholder; its properties are the lemmas below |
| Parameters.PathReplaceShape | src/openapi-converter.ts:318-320 | path rewriting never throws and each placeholder shortens the text by one character (two braces out, one colon in) |
| Parameters.PathReplaceIdentityIff | src/openapi-converter.ts:318-320 | a path is unchanged exactly when it holds no placeholder |
| Parameters.NoTokensUnchanged | src/openapi-converter.ts:318-324 | text without a placeholder comes back unchanged in either mode |
| Parameters.ServerReplaceFailureIff | src/openapi-converter.ts:321-322 | server-variable rewriting throws exactly when some placeholder names no declared variable |
| Parameters.ServerReplaceFailureNames | src/openapi-converter.ts:321-322 | the failure names a placeholder of the text that has no declared variable |
| Parameters.BraceFreeNoPlaceholder | src/openapi-converter.ts:318 | no placeholder begins in text without an opening brace, whatever follows |
| Parameters.PlaceholderFreePrefix | src/openapi-converter.ts:318 | text in which no placeholder begins, stray braces included, is copied unchanged |
| Parameters.PlaceholderFront | src/openapi-converter.ts:318-324 | a placeholder at the front is replaced (or throws) and the scan resumes after it |
| Parameters.SegmentThenPlaceholder | src/openapi-converter.ts:318-320 | a segment in which no placeholder begins, followed by `{n}`, becomes the segment followed by `:n` |
| Parameters.SegmentThenVariable | src/openapi-converter.ts:318-322 | in server mode, a segment in which no placeholder begins, followed by `{n}`, with `n` declared, becomes the segment followed by the default of `n` (or `undefined`), and the rest is replaced independently |
| Parameters.ServerReplaceFirstMissing | src/openapi-converter.ts:318-324 | a failing server replacement names the first placeholder of the text whose variable is undeclared; every placeholder before it is declared |
| Parameters.RemoveLeadingSlash | src/openapi-converter.ts:214-216 | drops one leading `/` and leaves any other text unchanged |
| Parameters.PathReplaceExample | src/openapi-converter.ts:318-320 | `/users/{id}/posts/{postId}` becomes `/users/:id/posts/:postId` |
| Parameters.StrayBraceExample | src/openapi-converter.ts:318-320 | `/{a-b}/{id}` becomes `/{a-b}/:id`: a brace that starts no placeholder is kept |
| Parameters.EndpointExample | src/openapi-converter.ts:214-216 | the endpoint of `/users/{id}/posts/{postId}` is `users/:id/posts/:postId` |
| SchemaSynthesis.GenerateSchema | src/openapi-converter.ts:340-427 | the procedure, with its composition-keyword loop, returns the value the recursive specification `Synthesize` defines |
| SchemaSynthesis.BuildObject | src/openapi-converter.ts:359-372 | the object factory's loop assigns every declared property its synthesized value, in declaration order |
| SchemaSynthesis.Unwrap | src/openapi-converter.ts:376-379 | a non-empty list of types stands for its first type; anything else is kept |
| SchemaSynthesis.LastNonEmpty | src/openapi-converter.ts:399-407 | the chosen composition list is one of the keyword lists, or empty |
| SchemaSynthesis.Target | src/openapi-converter.ts:396-407 | the schema built is the schema itself or a member of one of its composition lists |
| SchemaSynthesis.FactoryFor | src/openapi-converter.ts:418-419 | the `type_format` factory, falling back to the `type` factory; none exactly when neither key names one |
| SchemaSynthesis.EnumTexts | src/openapi-converter.ts:383 | each enum value is written as `join` writes it, in order |
| SchemaSynthesis.SetFieldFresh | src/openapi-converter.ts:365 | assigning a property whose key is new appends it after the existing ones |
| SchemaSynthesis.SetFieldPresent | src/openapi-converter.ts:365 | assigning an existing key keeps the number of properties |
| SchemaSynthesis.SetFieldLookup | src/openapi-converter.ts:365 | after the assignment, reading the key gives the assigned value |
| SchemaSynthesis.PropertyValues | src/openapi-converter.ts:363-368 | one synthesized entry per declared property; none without `properties` |
| SchemaSynthesis.PropertyValueAt | src/openapi-converter.ts:364-367 | the entry for each property is its name paired with the value synthesized from its schema |
| SchemaSynthesis.DispatchReadsShape | src/openapi-converter.ts:418-422 | the factories read only `format`, `properties`, `items` and `collectionFormat` of the schema they build |
| SchemaSynthesis.ObjectFormatAbsent | src/openapi-converter.ts:343-373 | no factory key extends `object` with a format |
| SchemaSynthesis.ArrayFormatAbsent | src/openapi-converter.ts:343-373 | no factory key extends `array` with a format |
| SchemaSynthesis.IntegerFormatAbsent | src/openapi-converter.ts:343-373 | no factory key extends `integer` with a format |
| SchemaSynthesis.ObjectTypeFactory | src/openapi-converter.ts:418-419 | type `object` finds the object factory, whatever the format |
| SchemaSynthesis.ObjectDispatch | src/openapi-converter.ts:359-372 | type `object` builds the object of the synthesized properties |
| SchemaSynthesis.WithExample | src/openapi-converter.ts:167-171 | spreading an example into a schema sets its `example`; spreading into a non-object yields `{example}` alone |
| SchemaSynthesis.Precedence | src/openapi-converter.ts:382-394 | `enum` first, then a truthy `example`, then a truthy `default`, otherwise the factory dispatch |
| SchemaSynthesis.ExampleWins | src/openapi-converter.ts:386-389 | a truthy example spread into a schema without `enum` is returned verbatim |
| SchemaSynthesis.EnumBeatsExample | src/openapi-converter.ts:382-384 | an `enum` wins over any example spread into the schema |
| SchemaSynthesis.FalsyExampleIgnored | src/openapi-converter.ts:386-394 | a falsy example gives the same value as no example |
| SchemaSynthesis.EmptyEnumToken | src/openapi-converter.ts:383 | an empty `enum` still yields `{{oneOf (array '')}}` |
| SchemaSynthesis.EnumTokenPair | src/openapi-converter.ts:383 | two enum strings are listed in order, each in single quotes |
| SchemaSynthesis.EnumOfStrings | src/openapi-converter.ts:383 | for any list of string values, the token is the pick-one prefix, the strings joined by `' '`, and the suffix |
| SchemaSynthesis.CompositionChoice | src/openapi-converter.ts:399-407 | the chosen list is `anyOf` if non-empty, else `oneOf` if non-empty, else `allOf` |
| SchemaSynthesis.MemberShortcutsIgnored | src/openapi-converter.ts:404-405 | the first member is built from its raw type; its own `enum`, `example` and `default` do not matter |
| SchemaSynthesis.TypeListCollapses | src/openapi-converter.ts:376-379 | without composition, a list of types behaves as its first type |
| SchemaSynthesis.PropertiesMeanObject | src/openapi-converter.ts:409-416 | no type but `properties` behaves as type `object` |
| SchemaSynthesis.FromEntriesDistinct | src/openapi-converter.ts:364-368 | assigning distinct keys in turn builds exactly those entries in that order |
| SchemaSynthesis.ObjectFactoryFields | src/openapi-converter.ts:359-372 | the object holds exactly the declared properties, in order, each with the value synthesized from its own schema |
| SchemaSynthesis.ObjectWithoutProperties | src/openapi-converter.ts:363 | an object without `properties` is `{}` |
| SchemaSynthesis.ArrayFactoryWraps | src/openapi-converter.ts:354-358 | an array is `[item]`, or the bare item when `collectionFormat` is `csv` |
| SchemaSynthesis.IntegerFactory | src/openapi-converter.ts:344 | an integer is the random-number token, whatever its format |
| SchemaSynthesis.EmailFormat | src/openapi-converter.ts:351 | a string with format `email` is the e-mail token |
| SchemaSynthesis.UnknownStringFormat | src/openapi-converter.ts:348 | a string whose format has no factory falls back to `''` |
| SchemaSynthesis.UnknownTypeEmpty | src/openapi-converter.ts:421-425 | a type with no factory under either key gives `''` |
| SchemaSynthesis.UnresolvedReferenceEmpty | src/openapi-converter.ts:33-34 | a circular reference the dereferencer leaves in place, a schema with none of the keywords read, synthesizes to `''` |
| SchemaSynthesis.Synthesize | src/openapi-converter.ts:375-427 | defines the value built for a schema: enum, then example, then default, then the composition member, then the factory; its properties are the lemmas of this module |
| SchemaSynthesis.Dispatch | src/openapi-converter.ts:409-425 | defines the factory lookup under `type_format`, then `type`, with a falsy type and properties read as `object`; see ObjectDispatch and UnknownTypeEmpty |
| SchemaSynthesis.UndefinedOnlyFromCsv | src/openapi-converter.ts:354-358 | an `undefined` result comes only from a non-object or from a `csv` array whose items give `undefined` |
| RouteExtraction.ContentTypeValue | src/openapi-converter.ts:279-290 | `application/json` unless types are declared and it is not among them, then the first declared type |
| RouteExtraction.ContentTypes | src/openapi-converter.ts:142-151 | defines the content types: for Swagger the first declared of the operation's `produces` and `consumes` and the document's, else none; for OpenAPI 3 the `content` keys |
| RouteExtraction.ResponseSchema | src/openapi-converter.ts:155-165 | defines the schema read only when `application/json` is among the content types |
| RouteExtraction.NamedExamples | src/openapi-converter.ts:156-164 | defines the named examples, read only for OpenAPI 3 JSON content; see SwaggerStatusEmpty |
| RouteExtraction.StatusResponses | src/openapi-converter.ts:128-193 | defines the responses of one status: one per named example, none for an unregistered status; see CollectResponses, StatusExpansion and UnregisteredStatusDropped |
| RouteExtraction.RouteFor | src/openapi-converter.ts:210-218 | defines the route of one path and method; see RouteForCollected |
| RouteExtraction.Routes | src/openapi-converter.ts:106-226 | defines the routes of a document; see CreateRoutes, RoutesMatchPairs and EveryRouteHasAResponse |
| RouteExtraction.ResponseHeaders | src/openapi-converter.ts:271-302 | `Content-Type` first, then one empty-valued header per declared header name, in order |
| RouteExtraction.BuildResponseHeaders | src/openapi-converter.ts:271-302 | the procedure that overwrites the default header's value returns exactly `ResponseHeaders` |
| RouteExtraction.CreateResponse | src/openapi-converter.ts:228-263 | throws exactly when the synthesized body is `undefined`; otherwise the parsed status, label `label \|\| description \|\| ''`, the built headers, the rules and the defaulted operator and flag; an empty body for a non-object schema |
| RouteExtraction.ResponseBodyIsReference | src/openapi-converter.ts:241-246 | the body of a quote-safe example (no double quote in its strings or keys, no key equal to a token) is the serialized example with exactly the number, boolean and float tokens bare |
| RouteExtraction.WithFallback | src/openapi-converter.ts:196-208 | a route always ends up with at least one response |
| RouteExtraction.CollectExamples | src/openapi-converter.ts:167-192 | the loop over a status's named examples returns one response per example, in order, or the first failure |
| RouteExtraction.CollectResponses | src/openapi-converter.ts:128-194 | the status loop with its inner example loop returns the specification's responses, or its first failure |
| RouteExtraction.RouteForCollected | src/openapi-converter.ts:210-218 | the pushed route has the declared method, the rewritten endpoint, `summary \|\| description \|\| ''` and the collected responses, or the fallback |
| RouteExtraction.CollectPathRoutes | src/openapi-converter.ts:121-222 | the loop over a path's keys returns the specification's routes for that path |
| RouteExtraction.CreateRoutes | src/openapi-converter.ts:106-226 | the nested path and method loops return the specification's routes, or its first failure |
| RouteExtraction.FallbackShape | src/openapi-converter.ts:197-207 | the fallback: status 200, empty body, a single `Content-Type: application/json` header, no rules |
| RouteExtraction.RoutesMatchPairs | src/openapi-converter.ts:120-125 | routes correspond one to one, in order, to the supported (path, method) pairs |
| RouteExtraction.RoutePerSupportedPair | src/openapi-converter.ts:210-220 | route k has pair k's method, endpoint and documentation, and its operation's responses or the fallback |
| RouteExtraction.EveryRouteHasAResponse | src/openapi-converter.ts:196-208 | every route has at least one response |
| RouteExtraction.SwaggerStatusEmpty | src/openapi-converter.ts:153-177 | a Swagger status yields no response, since it has no named examples |
| RouteExtraction.SwaggerResponsesEmpty | src/openapi-converter.ts:128-194 | a Swagger operation yields no response of its own |
| RouteExtraction.SwaggerRoutesFallbackOnly | src/openapi-converter.ts:142-208 | Swagger route extraction never throws, gives one route per supported pair, and each carries only the fallback |
| RouteExtraction.UnregisteredStatusDropped | src/openapi-converter.ts:130-134 | the `default` status key contributes nothing |
| RouteExtraction.NonJsonStatusEmpty | src/openapi-converter.ts:155-165 | a status without `application/json` content contributes nothing |
| RouteExtraction.StatusExpansion | src/openapi-converter.ts:167-192 | a registered status gives one response per named example, in order, with its code, name as label, rules, flags, headers and unquoted serialized body |
| RouteExtraction.StatusFailureIff | src/openapi-converter.ts:241-246 | a status throws exactly when one of its examples synthesizes to `undefined` |
| Conversion.UpToColon | src/openapi-converter.ts:54 | the text up to the first colon, which it does not contain |
| Conversion.SecondField | src/openapi-converter.ts:54 | `split(':')[1]` is undefined exactly when the text has no colon |
| Conversion.SwaggerPort | src/openapi-converter.ts:53-55 | the port is 3000 or non-zero; 3000 without a host or without a colon |
| Conversion.SwaggerPortRoundTrip | src/openapi-converter.ts:53-55 | `name:port` with a positive port gives back that port |
| Conversion.SwaggerPortFallbacks | src/openapi-converter.ts:53-55 | a port field that is not a number, or is 0, gives 3000 |
| Conversion.SwaggerEnvironment | src/openapi-converter.ts:49-66 | never fails; port from the host, prefix from a non-empty `basePath`, `title \|\| 'Swagger import'`, the extracted routes (which always succeed on a Swagger document); every other field keeps its default |
| Conversion.ConvertFromSwagger | src/openapi-converter.ts:49-66 | its field-by-field updates produce exactly SwaggerEnvironment |
| Conversion.OpenApiV3Environment | src/openapi-converter.ts:73-98 | throws for a missing server variable, then for an invalid URL, then for a failing route; succeeds exactly when the replaced URL, its parse and the routes all succeed, and then holds the URL's path as prefix and its port, `title \|\| 'OpenAPI import'`, the routes, and the proxy mode only for a literal `true` |
| Conversion.ConvertFromOpenApiV3 | src/openapi-converter.ts:73-98 | its step-by-step body produces exactly OpenApiV3Environment, failures included |
| Conversion.Convert | src/openapi-converter.ts:37-41 | a Swagger document always converts, to the whole SwaggerEnvironment record; any other gives exactly OpenApiV3Environment, with its failure and success conditions |
| Conversion.IsSwagger | src/openapi-converter.ts:332-334 | defines the Swagger test as the presence of a `swagger` property; see SwaggerKeyPresence |
| Conversion.MissingVariableNamed | src/openapi-converter.ts:76-80 | a server URL naming an undeclared variable throws, naming that variable |
| Conversion.PlainServerUrl | src/openapi-converter.ts:76-80 | a server URL without placeholders reaches the URL parser unchanged |
| Conversion.SwaggerKeyPresence | src/openapi-converter.ts:332-334 | a document is Swagger exactly when it has a `swagger` property, even a `null` one |

## Left out

- Dereferencing and loading the document (`SwaggerParser.dereference`) are not modelled. The model starts from the dereferenced document.
- Circular schemas are not modelled as cycles: a schema is a finite tree. Dereferencing with `circular: 'ignore'` (src/openapi-converter.ts:33-34) leaves a circular reference as a `$ref` object, which the model represents as the empty schema; it synthesizes to `''` (UnresolvedReferenceEmpty), so the finite tree is exact.
- A document without `paths` or `info`, or an operation without `responses`, cannot be represented: those fields are mandatory in the model's datatypes. The `TypeError` the source throws for them (src/openapi-converter.ts:61, 90, 120, 128) is not modelled.
- URL parsing (`new URL`) is a function parameter returning the pathname and the numeric port, or nothing for an invalid URL.
- `removeLeadingSlash` (src/utils) is not part of this model. It is assumed to drop a single leading `/`.
- The random `uuid` of every record and the environment's `lastMigration` are not modelled: the first is random, the second an unseen constant.
- The HTTP status table (`http.STATUS_CODES`) is a parameter, whose keys are required to be decimal numbers.
- Numbers are integers. Floating-point examples and `Number` on non-integer text are not modelled.
- JavaScript objects are ordered lists of distinct keys. The engine's ordering of integer-like keys before other keys is not modelled.
- Property keys inherited from `Object.prototype` (`constructor`, `toString`) are not modelled. A type named like one finds no factory. A server placeholder named like one, such as `{constructor}`, fails with a missing variable in the model, where the source reads `.default` of the inherited function and writes the text `undefined` (src/openapi-converter.ts:322).
- A `null` member of a composition list, on which the source throws, is modelled as a non-object member.
- server.ts, typings.d.ts and the test file are not part of this model.
- CreateResponse: requires a status that `parseInt` reads as a number. Only registered statuses reach it, so a NaN status code is not modelled.
- CreateResponse: the `''` body for a schema with no keys is not reachable. A spread example always adds keys, so that branch is only modelled for a non-object schema.
- ConvertFromOpenApiV3: requires at least one server. The source throws a `TypeError` on `server[0]` when there is none, and that case is excluded.
- ConvertFromOpenApiV3: the URL's port is taken as `Number(url.port)` with 0 for none. The port text itself is not modelled.
- ObjectFactoryFields: requires distinct property keys. With repeated keys the later assignment overwrites the earlier one in place, which `SetField` models, but the lemma does not state it.
- UndefinedOnlyFromCsv: states one direction only. A `csv` array whose items give `undefined` does give `undefined` unless an earlier shortcut applies.
- ConvertSerialized: requires that no string or key holds a double quote and that no key is a token. Otherwise the regular expression can match across JSON syntax.
