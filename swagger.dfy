/**
 * The OpenAPI 2.0 document tree the converter builds: only the fields it sets.
 */
module Swagger {
  import opened Wrappers

  /** schemaCore: a type, a format, a `$ref` and, for arrays, the item schema. */
  datatype SchemaCore = SchemaCore(typ: string, format: string, ref: string, items: Option<SchemaCore>)

  /** A schema object. `properties` is nil (None) until a first property is added. */
  datatype Schema = Schema(
    core: SchemaCore,
    properties: Option<seq<KeyVal>>,
    required: seq<string>,
    title: string,
    description: string,
    defaultValue: string)

  /** One entry of an ordered property list. */
  datatype KeyVal = KeyVal(key: string, value: Schema)

  /** A parameter; `schema` is set only on body parameters. */
  datatype Parameter = Parameter(
    name: string,
    location: string,
    typ: string,
    format: string,
    required: bool,
    defaultValue: string,
    description: string,
    schema: Option<Schema>)

  datatype Response = Response(description: string, schema: Schema)

  datatype Operation = Operation(
    tags: seq<string>,
    parameters: seq<Parameter>,
    responses: map<string, Response>,
    operationId: string,
    summary: string,
    description: string)

  /** A path item: at most one operation per supported method. */
  datatype PathItem = PathItem(
    get: Option<Operation>,
    post: Option<Operation>,
    delete: Option<Operation>,
    put: Option<Operation>)

  datatype Info = Info(title: string, version: string, description: string)

  datatype SecurityScheme = SecurityScheme(typ: string, location: string, name: string, description: string)

  datatype Document = Document(
    swagger: string,
    schemes: seq<string>,
    consumes: seq<string>,
    produces: seq<string>,
    info: Info,
    paths: map<string, PathItem>,
    definitions: map<string, Schema>,
    streamDefinitions: map<string, Schema>,
    securityDefinitions: map<string, SecurityScheme>)

  const EmptyCore := SchemaCore("", "", "", None)

  /** A schema holding nothing but a `$ref`. */
  function RefSchema(ref: string): Schema {
    Schema(EmptyCore.(ref := ref), None, [], "", "", "")
  }

  const EmptyPathItem := PathItem(None, None, None, None)

  /** The prefix every reference to a definition carries. */
  const DefinitionsPrefix := "#/definitions/"
}
