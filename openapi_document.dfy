/**
 * An already-dereferenced Swagger 2.0 or OpenAPI 3 document, reduced to the
 * fields the converter reads (src/openapi-converter.ts). An absent property is
 * `None` (or `Undefined` for a raw value); JavaScript objects are key/value
 * sequences in enumeration order.
 */
module OpenApiDocument {
  import opened Wrappers
  import opened JsValues
  import opened SchemasBuilder

  /** A schema's `type`: absent, one name, or a list of names. */
  datatype TypeDecl = NoType | TypeName(name: string) | TypeList(names: seq<string>)

  /**
   * A schema. `NotObject` stands for a value that is not an object, `undefined`
   * in particular (a missing `items` or `schema`). An absent or empty `allOf`,
   * `oneOf` or `anyOf` is the empty sequence: the converter treats both alike.
   */
  datatype Schema =
    | NotObject
    | SchemaObject(
        typ: TypeDecl,
        format: Option<string>,
        enumValues: Option<seq<JsValue>>,
        example: JsValue,
        defaultValue: JsValue,
        allOf: seq<Schema>,
        oneOf: seq<Schema>,
        anyOf: seq<Schema>,
        properties: Properties,
        items: Schema,
        collectionFormat: Option<string>)

  /** A schema's `properties` object, if it has one. */
  datatype Properties = NoProperties | Declared(entries: seq<(string, Schema)>)

  /** A named example of an OpenAPI 3 media type, with the mock-server extensions. */
  datatype Example = Example(
    value: JsValue,
    rules: Option<seq<JsValue>>,
    rulesOperator: Option<string>,
    disableTemplating: Option<bool>)

  datatype MediaType = MediaType(schema: Schema, examples: Option<seq<(string, Example)>>)

  /**
   * A response object: `schema` is the Swagger 2.0 field, `content` the
   * OpenAPI 3 one; `headerNames` are the keys of `headers` (none when absent).
   */
  datatype Response = Response(
    description: Option<string>,
    headerNames: seq<string>,
    schema: Schema,
    content: Option<seq<(string, MediaType)>>)

  datatype Operation = Operation(
    summary: Option<string>,
    description: Option<string>,
    produces: Option<seq<string>>,
    consumes: Option<seq<string>>,
    responses: seq<(string, Response)>)

  datatype ServerVariable = ServerVariable(defaultValue: Option<string>)

  /** An OpenAPI 3 server with the mock-server proxy extensions. */
  datatype Server = Server(
    url: string,
    variables: Option<seq<(string, ServerVariable)>>,
    proxyMode: JsValue,
    proxyHost: Option<string>,
    proxyReqHeaders: Option<seq<Header>>,
    proxyResHeaders: Option<seq<Header>>)

  /**
   * The document. Each path maps its keys to operations; keys that are not
   * methods (`parameters`, extensions) are never read as operations.
   */
  datatype Document = Document(
    swagger: JsValue,
    title: Option<string>,
    host: Option<string>,
    basePath: Option<string>,
    produces: Option<seq<string>>,
    consumes: Option<seq<string>>,
    servers: Option<seq<Server>>,
    paths: seq<(string, seq<(string, Operation)>)>)

  datatype SpecVersion = Swagger | OpenApiV3

  /** The ways a conversion throws. */
  datatype ConvertError =
    | UndefinedBody                       // `JSON.stringify` gave `undefined`, so `.replace` fails
    | MissingServerVariable(name: string) // `{name}` in a server URL with no such variable
    | InvalidUrl(url: string)             // `new URL(url)` rejects the substituted URL
}
