/**
 * The already-parsed API description the converter reads: services, groups,
 * routes and type declarations. The tag micro-grammar is parsed elsewhere, so a
 * member carries both its raw tag text and the parsed tags.
 */
module ApiSpec {
  import opened Wrappers

  /** One parsed tag: the parameter or property name and its options in order
    * (`optional`, `default=18`, `options=a|b`, ...). */
  datatype Tag = Tag(name: string, options: seq<string>)

  /** A struct member. `tag` is the raw tag text (`form:"age,optional"`),
    * `tags` what Member.Tags() parses from it, `propertyName` the result of
    * Member.GetPropertyName() (None when it returns an error), `comment` the raw
    * Comment field and `getComment` what Member.GetComment() returns. */
  datatype Member = Member(
    name: string,
    typeName: string,
    tag: string,
    comment: string,
    getComment: string,
    tags: seq<Tag>,
    propertyName: Option<string>)

  /** A declared type: a struct with its members, or any other kind of type
    * (primitive, array, map, ...), of which only the name is used. */
  datatype ApiType =
    | DefineStruct(rawName: string, members: seq<Member>)
    | OtherType(rawName: string)
  {
    /** spec.Type.Name() */
    function Name(): string { rawName }
  }

  /** A route; `verb` is the HTTP method as written. A nil request or response type is None; `joinedDoc` is what
    * Route.JoinedDoc() returns and `atDocProperties` the @doc properties. */
  datatype Route = Route(
    verb: string,
    path: string,
    handler: string,
    requestType: Option<ApiType>,
    responseType: Option<ApiType>,
    joinedDoc: string,
    atDocProperties: map<string, string>)

  datatype Group = Group(annotations: map<string, string>, routes: seq<Route>)

  datatype Service = Service(name: string, groups: seq<Group>)

  /** The whole description: the info properties (still quoted), the service and
    * every declared type in declaration order. */
  datatype Api = Api(infoProperties: map<string, string>, service: Service, types: seq<ApiType>)

  /** Indexing a Go map[string]string: a missing key reads as "". */
  function Lookup(m: map<string, string>, key: string): (v: string)
    ensures key in m ==> v == m[key]
    ensures key !in m ==> v == ""
  {
    if key in m then m[key] else ""
  }

  /** Group.GetAnnotation(key) */
  function GetAnnotation(g: Group, key: string): string {
    Lookup(g.annotations, key)
  }
}
