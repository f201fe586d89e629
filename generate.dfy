/**
 * applyGenerate: the whole Swagger 2.0 document built from an API description,
 * with the paths of every route and the definition of every type.
 */
module Generate {
  import opened Wrappers
  import opened ApiSpec
  import opened Swagger
  import opened Kinds
  import opened PathTemplate
  import opened Routes
  import opened Definitions

  /** The one security scheme: a JWT bearer token in the Authorization header. */
  const ApiKeyScheme := SecurityScheme("apiKey", "header", "Authorization", "Enter JWT Bearer token **_only_**")

  /** The info object: the unquoted title, version and desc properties, each ""
    * when missing or when `unquote` fails. */
  function DocumentInfo(api: Api, unquote: string -> Option<string>): Info {
    Info(UnquoteOrEmpty(unquote, Lookup(api.infoProperties, "title")),
         UnquoteOrEmpty(unquote, Lookup(api.infoProperties, "version")),
         UnquoteOrEmpty(unquote, Lookup(api.infoProperties, "desc")))
  }

  /** The document applyGenerate returns. */
  function GeneratedDocument(api: Api, kinds: map<string, Kind>, unquote: string -> Option<string>): Document {
    Document("2.0", ["http", "https"], ["application/json"], ["application/json"],
             DocumentInfo(api, unquote),
             GroupsFold(map[], api.service, api.service.groups, kinds, unquote),
             DefinitionsFold(map[], api.types, kinds),
             map[],
             map["apiKey" := ApiKeyScheme])
  }

  /** applyGenerate: the header fields, then the service's routes into a fresh
    * paths map and the types into a fresh definitions map. */
  method ApplyGenerate(api: Api, kinds: map<string, Kind>, unquote: string -> Option<string>)
    returns (doc: Document)
    ensures doc == GeneratedDocument(api, kinds, unquote)
  {
    var title := UnquoteOrEmpty(unquote, Lookup(api.infoProperties, "title"));
    var version := UnquoteOrEmpty(unquote, Lookup(api.infoProperties, "version"));
    var desc := UnquoteOrEmpty(unquote, Lookup(api.infoProperties, "desc"));
    var paths := new PathsObject();
    var definitions := new DefinitionsObject();
    var securityDefinitions: map<string, SecurityScheme> := map[];
    var scheme := SecurityScheme("", "", "", "");
    scheme := scheme.(name := "Authorization");
    scheme := scheme.(description := "Enter JWT Bearer token **_only_**");
    scheme := scheme.(typ := "apiKey");
    scheme := scheme.(location := "header");
    securityDefinitions := securityDefinitions["apiKey" := scheme];
    RenderServiceRoutes(api.service, api.service.groups, paths, kinds, unquote);
    RenderReplyAsDefinition(definitions, api.types, kinds);
    doc := Document("2.0", ["http", "https"], ["application/json"], ["application/json"],
                    Info(title, version, desc), paths.entries, definitions.entries, map[],
                    securityDefinitions);
  }

  /** The document's paths are exactly the rewritten paths of the routes, and
    * its definitions are keyed by exactly the type names. */
  lemma DocumentKeys(api: Api, kinds: map<string, Kind>, unquote: string -> Option<string>)
    ensures var doc := GeneratedDocument(api, kinds, unquote);
            && doc.paths.Keys == GroupKeys(api.service.groups)
            && (forall k :: k in doc.definitions <==> exists i :: 0 <= i < |api.types| && api.types[i].Name() == k)
  {
    GroupsKeys(map[], api.service, api.service.groups, kinds, unquote);
    DefinitionsKeys(map[], api.types, kinds);
  }

  /** A path of the document comes from some route of some group, and every
    * route's rewritten path is a path of the document. */
  lemma DocumentPaths(api: Api, kinds: map<string, Kind>, unquote: string -> Option<string>, k: string)
    ensures k in GeneratedDocument(api, kinds, unquote).paths <==>
            exists g, i :: 0 <= g < |api.service.groups| && 0 <= i < |api.service.groups[g].routes|
                           && RenderedPath(api.service.groups[g].routes[i].path) == k
  {
    DocumentKeys(api, kinds, unquote);
    GroupKeysMembers(api.service.groups, k);
  }

  /** The fixed part: Swagger 2.0 over http and https, JSON in and out, no
    * stream definitions and the single "apiKey" security definition. */
  lemma DocumentHeader(api: Api, kinds: map<string, Kind>, unquote: string -> Option<string>)
    ensures var doc := GeneratedDocument(api, kinds, unquote);
            && doc.swagger == "2.0"
            && doc.schemes == ["http", "https"]
            && doc.consumes == ["application/json"] && doc.produces == ["application/json"]
            && doc.streamDefinitions == map[]
            && doc.securityDefinitions.Keys == {"apiKey"}
            && doc.securityDefinitions["apiKey"].name == "Authorization"
            && doc.securityDefinitions["apiKey"].location == "header"
  {
  }
}
