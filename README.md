# goctl-swagger converter core, modelled in Dafny

This project models `generate/parser.go` of goctl-swagger. That file turns a parsed go-zero
API description (a service with route groups, routes, and the declared request/response
types) into a Swagger 2.0 document tree. The model covers these parts:

- the document shell built by `applyGenerate`;
- the route loop of `renderServiceRoutes`. It rewrites each `:name` path segment to `{name}`
  and emits a path parameter for it. It derives query, header and body parameters from the
  tags of the request struct's members. It builds the operation and stores it, by
  upper-cased method, in the path item keyed by the rewritten path;
- `renderReplyAsDefinition`: one object schema per type, with ordered properties and the
  required list;
- `schemaOfField`, `primitiveSchema`, `countParams` and `contains`.

## Modules

- `Wrappers`: `Option`.
- `Seqs`: the associativity of concatenation, as a lemma the loop proofs call.
- `GoStrings`: the parts of Go's `strings` and `bytes` packages the file uses, with Go's
  semantics, and the helpers they are defined and proved with (`Index`, `MatchAt`, `Join`):
  - `Index`, `Contains` and `HasPrefix`;
  - `Replace` with n = 1 and with n = -1;
  - `TrimPrefix`, and `TrimLeft`, whose second argument is a cutset;
  - `Split` and `Join`, and `bytes.Count` of one rune;
  - `ToUpper`.
- `ApiSpec`: the input description. Go's `spec` types become datatypes. `Tags()`,
  `GetPropertyName()`, `GetComment()`, `JoinedDoc()` and the annotations are plain input
  fields.
- `Swagger`: the output tree. Only the fields the converter sets are modelled.
- `Kinds`: a closed `Kind` datatype standing for `reflect.Kind`, `KindName` standing for
  `Kind.String()`, and the `primitiveSchema` table. The type table `swaggerMapTypes` is a
  parameter `kinds: map<string, Kind>`. A missing name reads as `Invalid`, Go's zero value.
- `PathTemplate`: `countParams` and the rewriting of a path template.
- `TagOptions`: the option rules shared by parameters, field schemas and definitions.
- `Parameters`: the member loop that builds the query, header and body parameters.
- `Fields`: `schemaOfField`.
- `Definitions`: `renderReplyAsDefinition` and `contains`.
- `Routes`: the rest of `renderServiceRoutes`.
- `Generate`: `applyGenerate`.

## How the model is built

The Go maps `paths` and `definitions` are shared with their caller and written in place. They
are the classes `Routes.PathsObject` and `Definitions.DefinitionsObject`, each with an
`entries` map field. The loops are methods with loop invariants. Each method is proved equal
to a specification function, for example `GroupsFold` or `DefinitionsFold`. The properties
are then proved as lemmas about those functions. Some straight-line methods, such as
`Parameters.ParamTypeFormat`, `Fields.RenderFieldCore` and `Parameters.BuildMemberParameters`,
follow the Go statements one by one and are pinned by their `ensures` to the function that
specifies them.

`strconv.Unquote` is a parameter `unquote: string -> Option<string>`; a failure reads as `""`.

Three behaviours of the code are easy to misread; the model follows the code:

- A definition is created for every declared type, not only for structs. A type that is not a
  struct gets the title `""` and no properties, because `defineStruct` is then the zero value.
- A property becomes required when ANY option of its tag does not start with `optional`. So
  `optional,default=18` is required (`Definitions.OptionalDefaultRequired`). The `default` and
  `options` cases of that switch can never be reached.
- A query or header parameter with that same tag is not required
  (`TagOptions.AgeOptionalDefault`), because there the `default` test comes first.

## Model

| member | source | states |
|---|---|---|
| Wrappers.GetOr | generate/parser.go:221 | The wrapped value, or the given default when there is none; a discarded error result reads as the default. |
| Seqs.ConcatAssoc | generate/parser.go:127 | Concatenation is associative, so appending one batch of parameters after another regroups freely. |
| GoStrings.HasPrefix | generate/parser.go:112 | `strings.HasPrefix`: the string starts with the prefix. A definition; `TrimPrefix` and `OptionDefaultRule` are stated with it. |
| GoStrings.MatchAt | generate/parser.go:79 | The pattern occurs at offset j: j is within the string and the rest from j starts with the pattern. A definition that `Index` and `Contains` are stated with. |
| GoStrings.Index | generate/parser.go:81 | `strings.Index` is -1 or a position where the pattern matches. |
| GoStrings.IndexIsFirst | generate/parser.go:81 | There is no match before that position, and none at all when it is -1. |
| GoStrings.Contains | generate/parser.go:79 | `strings.Contains`: the pattern matches at some offset. A definition; `ContainsIndex` ties it to `Index`, as Go defines it. |
| GoStrings.ContainsIndex | generate/parser.go:79 | `strings.Contains` holds iff `strings.Index` is not -1. |
| GoStrings.IndexOfRune | generate/parser.go:79 | For a one-rune pattern: it is contained iff the rune occurs. A found index holds the rune, an absent rune gives -1, and a leading rune gives 0. |
| GoStrings.MatchRune | generate/parser.go:79 | A one-rune pattern matches at j iff the rune is at j. |
| GoStrings.ReplaceFirst | generate/parser.go:81 | `strings.Replace` with n=1: the first match that `Index` finds is replaced, and a string without a match is kept. A definition; `ReplaceFirstAbsent` and `ReplaceFirstAfterFree` state what it does. |
| GoStrings.ReplaceFirstAbsent | generate/parser.go:304-306 | Replacing the first occurrence of a rune that does not occur leaves the string unchanged. |
| GoStrings.ReplaceAll | generate/parser.go:97 | `strings.Replace` with n=-1: every match, left to right and without overlap, is replaced. An empty pattern matches before every rune and at the end. A definition; `ReplaceAllAbsent` and `NoDoubleSlashLeft` state what it does. |
| GoStrings.ReplaceAllAbsent | generate/parser.go:97 | Replacing every occurrence of a non-empty pattern that does not occur leaves the string unchanged. |
| GoStrings.ReplaceFirstAfterFree | generate/parser.go:81 | When the pattern's first rune does not occur before an occurrence, the replacement swaps exactly that occurrence. |
| GoStrings.TrimPrefix | generate/parser.go:80 | With the prefix present, the prefix followed by the result is the string. Otherwise the string is returned unchanged. |
| GoStrings.TrimLeft | generate/parser.go:124 | The result is a suffix of the string. Every rune removed is in the cutset, and the result does not start with a cutset rune. |
| GoStrings.Count | generate/parser.go:414 | The count is 0 iff the rune is absent, and at most the length. |
| GoStrings.CountAppend | generate/parser.go:414 | Counting distributes over concatenation. |
| GoStrings.Split | generate/parser.go:76 | There is at least one piece, and no piece holds the separator. |
| GoStrings.Join | generate/parser.go:76 | The pieces glued together with the separator between neighbours. A definition that states what `Split` undoes in `JoinSplit` and `SplitJoin`. |
| GoStrings.JoinSplit | generate/parser.go:76 | Joining the pieces with the separator gives the string back. |
| GoStrings.JoinSplitSep | generate/parser.go:76 | The step of that claim for a string starting with the separator. |
| GoStrings.JoinSplitRune | generate/parser.go:76 | The step of that claim for a string starting with another rune. |
| GoStrings.SplitCount | generate/parser.go:76 | There is one more piece than there are separators. |
| GoStrings.JoinAround | generate/parser.go:76-89 | A join seen from one piece: the pieces before it and their separators, the piece, then the separators and pieces after it. |
| GoStrings.JoinedBefore | generate/parser.go:76-89 | What a join puts before a piece that follows the given pieces: their join and a separator, or nothing. A helper of `JoinAround`. |
| GoStrings.JoinedAfter | generate/parser.go:76-89 | What a join puts after a piece that precedes the given pieces: a separator and their join, or nothing. A helper of `JoinAround`. |
| GoStrings.JoinFree | generate/parser.go:76-89 | A rune that is not the separator and is in no piece is not in the join. |
| GoStrings.SplitJoin | generate/parser.go:76 | Splitting a join of separator-free pieces gives the pieces back. |
| GoStrings.SplitAfterSep | generate/parser.go:76 | A leading separator gives an empty first piece. |
| GoStrings.SplitFree | generate/parser.go:76 | A separator-free prefix becomes part of the first piece. |
| GoStrings.UpperRune | generate/parser.go:224 | An ASCII lower-case letter moves up by 32. U+0131 becomes 'I' and U+017F becomes 'S'. Every other rune is kept. |
| GoStrings.ToUpper | generate/parser.go:224 | The result has the same length and is upper-cased rune by rune. |
| GoStrings.NoDoubleSlash | generate/parser.go:298 | No two adjacent runes are both '/'. The property `NoDoubleSlashLeft` proves of the field comment. |
| GoStrings.NoDoubleSlashLeft | generate/parser.go:298 | Removing every "//" from a comment leaves no two slashes side by side. |
| PathTemplate.CountParams | generate/parser.go:411-416 | The number of ':' in the path, wrapped to uint16. It is below 65536, is 0 when the path has no ':', and equals the ':' count when that count is below 65536. |
| PathTemplate.IsParamSegment | generate/parser.go:79 | The segment test: the segment contains a ':' anywhere, not only in front. |
| PathTemplate.SegmentKey | generate/parser.go:80 | The key: the segment with one leading ':' trimmed, as `TrimPrefix` does. |
| PathTemplate.PathParameter | generate/parser.go:82-87 | A path parameter has the key as its name, location "path", is required, and has type "string". |
| PathTemplate.RewriteStep | generate/parser.go:79-81 | The loop body on the path: a segment holding a ':' turns the first `:key` of the path into `{key}`. Any other segment keeps the path. A specification function; `RewriteStepAt` and `RewriteWellFormed` state what it does. |
| PathTemplate.RewriteSegments | generate/parser.go:76-89 | The path after the segment loop: `RewriteStep` applied segment by segment, in order, to the path rewritten so far. A specification function; `RenderSegments` equals it and `RewriteWellFormed` states what it gives. |
| PathTemplate.SegmentParameters | generate/parser.go:76-89 | The parameters the segment loop appends: one `PathParameter` per segment holding a ':', in segment order. A specification function; `SegmentParametersInOrder` states what it gives. |
| PathTemplate.RenderedPath | generate/parser.go:73-90 | The key of a route: the path rewritten segment by segment when `countParams` is positive, and otherwise the path itself. A specification function; `ColonFreePath` and `WellFormedRewrite` state what it gives. |
| PathTemplate.PathParameters | generate/parser.go:74-89 | The path parameters: one per segment holding a ':', in segment order, or none when `countParams` is 0. A specification function; `SegmentParametersInOrder`, `WellFormedRewrite` and `Routes.PathParametersAtPath` state what it gives. |
| PathTemplate.RenderPath | generate/parser.go:73-90 | The loop over the '/' segments returns the rewritten path and the path parameters. They equal the specification functions `RenderedPath` and `PathParameters`. |
| PathTemplate.RenderSegments | generate/parser.go:76-89 | The segment loop rewrites the path segment by segment and collects the parameters. The results equal `RewriteSegments` and `SegmentParameters`. |
| PathTemplate.RenderSegment | generate/parser.go:77-88 | One segment: when it holds a ':', the first `:key` in the path becomes `{key}` and one path parameter is added. Otherwise nothing changes. |
| PathTemplate.RenderSegmentsAt | generate/parser.go:76-89 | The loop over the segments from index i is the step on segment i, then the loop over the rest. |
| PathTemplate.ParamSegments | generate/parser.go:76-79 | The selected segments each contain ':' and come from the split path. |
| PathTemplate.SegmentParametersInOrder | generate/parser.go:76-89 | There is exactly one parameter per segment containing ':', in segment order. Each is named by its segment with one leading ':' trimmed. |
| PathTemplate.ColonFreePath | generate/parser.go:75 | A path without ':' is its own key and has no path parameters. |
| PathTemplate.WellFormedSegment | generate/parser.go:79-81 | A segment holding no ':', or a single ':' in front: the shape of a `:name` template segment. |
| PathTemplate.WellFormedTemplate | generate/parser.go:76-89 | Every '/' segment of the path is well formed. The condition under which `WellFormedRewrite` gives the braced path. |
| PathTemplate.BraceSegment | generate/parser.go:81 | The intended rewrite of one segment: `:name` becomes `{name}`, and the result of a well-formed segment holds no ':'. |
| PathTemplate.BraceSegments | generate/parser.go:76-89 | `BraceSegment` applied to each segment, in order. |
| PathTemplate.RewriteStepAt | generate/parser.go:80-81 | Before the first colon, the first occurrence of `:name` is the segment itself, so the replacement rewrites exactly that segment to `{name}`. |
| PathTemplate.RewriteWellFormed | generate/parser.go:76-89 | Behind colon-free text, the loop turns every `:name` segment into `{name}` and keeps the other segments. |
| PathTemplate.JoinFirst | generate/parser.go:76 | A join of two or more pieces is the first piece, the separator and the join of the rest. |
| PathTemplate.BracedJoin | generate/parser.go:76-89 | The braced first segment, a slash and the braced join of the rest make the braced join of all segments. |
| PathTemplate.ColonsOfWellFormed | generate/parser.go:411-416 | In a template of `:name` segments, the ':' count is the number of colon segments. |
| PathTemplate.WellFormedRewrite | generate/parser.go:73-90 | Every `:name` segment becomes `{name}` and the other segments are kept. The parameters follow the colon segments in order. While the ':' count is below 65536, their number equals that count, and so equals `countParams`. |
| Kinds.KindName | generate/parser.go:100 | `reflect.Kind.String()`: the lower-case Go name of each kind, "invalid" for `Invalid`. A definition; `TypeFormat` uses it for the fallback type. |
| Kinds.LookupKind | generate/parser.go:294 | A type name missing from the type table has kind `Invalid`. |
| Kinds.IsPrimitiveKind | generate/parser.go:380-399 | The domain of the primitive table: Int, Int64, Bool, String, Float32, Float64 and Slice. `PrimitiveSchema` succeeds exactly on it. |
| Kinds.PrimitiveSchema | generate/parser.go:380-399 | The exact table. Int maps to (integer, int32), Int64 to (integer, int64), Bool to (boolean, boolean), String to (string, ""), Float32 to (number, float), Float64 to (number, double), and Slice to (t with every "[]" removed, ""). Every other kind fails with ("", ""). |
| Kinds.PrimitiveTableInjective | generate/parser.go:380-399 | Apart from Slice, the table does not depend on the type name and gives different kinds different pairs. |
| Kinds.TypeFormat | generate/parser.go:97-101 | The fallback: the table's pair when the table succeeds, otherwise (KindName(kind), "UNKNOWN"). |
| TagOptions.OptionDefault | generate/parser.go:112-116 | What one option contributes as a default: for an option starting with "default" whose split on '=' has exactly two parts, the second part, and otherwise nothing. The same rule is at :365-369. `OptionDefaultRule` states it. |
| TagOptions.AllOptions | generate/parser.go:104-119 | The options the nested loops visit: those of every tag, tag after tag. Also at :359-374. `AllOptionsMembers` states it. |
| TagOptions.LastDefault | generate/parser.go:111-116 | The default the option loop leaves: that of the last option supplying one, or nothing. `LastDefaultWins` states it. |
| TagOptions.DefaultOf | generate/parser.go:104-119 | The `Default` field after the loops, starting from "": the last supplied default, or "". Also at :359-374. `LocatedParameterRules` states it against the tags. |
| TagOptions.NoDefaultFrom | generate/parser.go:111-116 | No option from a given index on supplies a default. `LastDefaultWins` is stated with it. |
| TagOptions.LastDefaultWins | generate/parser.go:111-116 | The default is None exactly when no option supplies one. Otherwise it is the value of the last supplying option. |
| TagOptions.AllOptionsMembers | generate/parser.go:104-119 | The option loops visit exactly the options of all tags. |
| TagOptions.LastDefaultSnoc | generate/parser.go:111-116 | A later default option overrides the earlier ones. |
| TagOptions.LastDefaultStep | generate/parser.go:111-116 | One more option of a loop: it supplies the default if it can, else the earlier default stays. |
| TagOptions.AllOptionsSnoc | generate/parser.go:104-119 | The options of the next tag are visited after those of the earlier tags. |
| TagOptions.OptionForcesRequired | generate/parser.go:117-118 | An option that makes a query or header parameter required: one starting neither with "default" nor with "optional", because the `default` test comes first. |
| TagOptions.TagForcesRequired | generate/parser.go:106-118 | A tag forces required when it has no options or one of its options forces it. |
| TagOptions.ForcesRequired | generate/parser.go:106-118 | The parameter is required when any of its tags forces it. `LocatedParameterRules` states it per tag and option. |
| TagOptions.ForcesRequiredSnoc | generate/parser.go:104-119 | One more tag forces required iff the earlier tags did or the new tag does. |
| TagOptions.OptionRequiresProperty | generate/parser.go:273 | An option that makes a property required in a definition: one not starting with "optional", `default=...` included. |
| TagOptions.TagName | generate/parser.go:106 | The parameter name is the last tag's name, or "" when there are no tags. |
| TagOptions.SplitPair | generate/parser.go:113 | Splitting "a=b" on '=' gives the two sides. |
| TagOptions.OptionalOption | generate/parser.go:111-118 | "optional" supplies no default and does not force required. |
| TagOptions.DefaultOption | generate/parser.go:111-118 | An option "default=v", with no '=' in v, supplies v and does not force required. |
| TagOptions.Default18Option | generate/parser.go:111-118 | "default=18" supplies "18" and does not force required. |
| TagOptions.AgeOptionalDefault | generate/parser.go:104-119 | The tag `age,optional,default=18` gives an optional parameter with default "18". |
| TagOptions.TwoOptionTag | generate/parser.go:104-119 | A single tag with two options, neither forcing required and the second supplying d, gives default d and does not force required. |
| TagOptions.TwoEqualsNoDefault | generate/parser.go:112-115 | "default=a=b" splits into three parts and so supplies no default. |
| Parameters.ParamDescription | generate/parser.go:122-124 | The description is a suffix of the comment. Only leading '/' runes are dropped, and the remainder does not start with '/'. |
| Parameters.ParamKind | generate/parser.go:97 | The kind of a query or header parameter: the type name with every "[]" removed, looked up in the kind table. The same lookup is at :130. |
| Parameters.ParamTypeFormat | generate/parser.go:96-101 | The type and format are the table's answer for the kind of the type name with every "[]" removed, or the kind's name with "UNKNOWN". |
| Parameters.ScanOptions | generate/parser.go:110-119 | The option loop of one tag. The last two-part default wins, and any option starting neither with "default" nor with "optional" sets required. |
| Parameters.ScanOptionStep | generate/parser.go:110-119 | One more option: it supplies the default if it can, else the earlier default stays. It forces required iff an earlier option did or it does. |
| Parameters.BuildLocatedParameter | generate/parser.go:96-127 | The query (and, with "header", the header) branch. It equals `LocatedParameter`. |
| Parameters.ScanParameterTags | generate/parser.go:104-120 | The tag loop names the parameter after the last tag, makes it required iff some tag forces it, and keeps the last default. |
| Parameters.ParameterTagStep | generate/parser.go:104-120 | One more tag: its name replaces the earlier name, it may force required, and its options' defaults come after the earlier ones. |
| Parameters.LocatedParameter | generate/parser.go:96-127 | The query or header parameter of a member: the table's type and format, the tag loop's name, required flag and default, and the trimmed comment. A specification function; `BuildLocatedParameter` equals it and `LocatedParameterRules` states its fields against the tags. |
| Parameters.LocatedParameterRules | generate/parser.go:103-125 | The name is the last tag's name. Required holds iff some tag has no options or has an option starting neither with "default" nor with "optional". The default is "" without a supplying option, and otherwise comes from the last supplying option. |
| Parameters.OptionDefaultRule | generate/parser.go:111-116 | An option supplies a default iff it starts with "default" and splits on '=' into exactly two parts. The default is then the second part. |
| Parameters.BodyParameter | generate/parser.go:162-176 | The body parameter is named "body", is in the body, is required, and refers to "#/definitions/" followed by the request name. |
| Parameters.Contributions | generate/parser.go:93-176 | From the four tag tests and the three candidate parameters: nothing for `path`, otherwise the query, header and body candidates whose tests hold, in that order. `ContributionsShape` states it. |
| Parameters.MemberParameters | generate/parser.go:93-176 | What one member contributes, each choice a substring test of the raw tag; the body parameter needs a named request. A specification function; `BuildMemberParameters` equals it, and `MemberParametersShape` and `MemberBodyCount` state what it gives. |
| Parameters.MemberParametersShape | generate/parser.go:91-177 | A `path` member contributes nothing. Any other member contributes its query parameter, then its header parameter, then its body parameter, each exactly when its own test holds. |
| Parameters.NonStructRequest | generate/parser.go:90-91 | A missing request type, or one that is not a struct, contributes no parameters. |
| Parameters.BuildMemberParameters | generate/parser.go:92-177 | One member-loop iteration equals `MemberParameters`. |
| Parameters.MembersParameters | generate/parser.go:91-178 | The parameters of a struct's members, member after member. `AppendMembersParameters` equals it, and `BodyParameterCount` and `MemberParameterLocations` state what it gives. |
| Parameters.RequestParameters | generate/parser.go:91-178 | Only a request type that is a struct contributes member parameters, with the struct's name as the request name. `NonStructRequest` states the other case. |
| Parameters.AppendRequestParameters | generate/parser.go:90-178 | The member loop appends the request struct's parameters, member after member, after the path parameters. |
| Parameters.AppendMembersParameters | generate/parser.go:91-178 | The loop over the members of a struct appends `MembersParameters` to the parameters collected so far. |
| Parameters.AppendMemberStep | generate/parser.go:91-178 | One more member: its parameters come next, then those of the later members. |
| Parameters.MembersParametersAt | generate/parser.go:91-178 | The parameters from member i on are member i's, then those of the members after it. |
| Parameters.CountAt | generate/parser.go:162-176 | The number of parameters at a location is at most the list length. |
| Parameters.CountAtAppend | generate/parser.go:162-176 | Counting by location distributes over concatenation. |
| Parameters.BodyMembers | generate/parser.go:162-176 | The number of json members (none tagged `path`) is at most the number of members. |
| Parameters.BodyParameterCount | generate/parser.go:162-176 | A named struct with k json members (none tagged `path`) yields k body parameters. A struct with an empty name yields none. |
| Parameters.MemberBodyCount | generate/parser.go:162-176 | A member yields one body parameter iff its tag contains "json" and not "path" and the request is named. |
| Parameters.ContributionsBodyCount | generate/parser.go:162-176 | With only the body parameter in the body, the contributions hold one body parameter iff json is chosen and path is not. |
| Parameters.MemberParameterLocations | generate/parser.go:91-177 | Every member parameter is in the query, in a header or in the body. |
| Parameters.MemberLocations | generate/parser.go:91-177 | The parameters of one member are in the query, in a header or in the body. |
| Parameters.ContributionsLocations | generate/parser.go:93-176 | With the query, header and body parameters in their own locations, every contribution is in one of the three. |
| Parameters.ContributionsShape | generate/parser.go:93-176 | The contributions of a member: nothing for `path`, otherwise query, header and body parameters in that order, each present exactly when its test holds. |
| Fields.RefTypeName | generate/parser.go:304-306 | The referenced name: the type name with its first '[', then its first ']', then its first '*' removed. A specification function; the `RefTypeName…` lemmas below state what it gives. |
| Fields.FieldCore | generate/parser.go:300-326 | The schema core of the first switch. A specification function; `RenderFieldCore` equals it, and `StructFieldRef` and `SliceFieldItems` state what it gives. |
| Fields.IsArrayField | generate/parser.go:328-345 | The array test of the second switch: a Slice kind, or an unknown kind whose type name starts with "[]" (:338). |
| Fields.ArrayOf | generate/parser.go:330-344 | An array schema core whose items are the given core. |
| Fields.FieldShape | generate/parser.go:328-356 | The second switch: the first switch's core, wrapped as an array's items for array fields. `FieldShapeItems` states it. |
| Fields.FieldShapeItems | generate/parser.go:328-356 | The first switch's core never has items. The shape has items iff the kind is Slice, or is unknown and the type name starts with "[]". Then it is an "array" whose items are that core. Otherwise the shape is that core. |
| Fields.FieldSchema | generate/parser.go:289-377 | The schema of a member: the shape, the comment with every "//" removed, and the last two-part default. A specification function; `SchemaOfField` equals it, and the ref lemmas below state its shape. |
| Fields.SchemaOfField | generate/parser.go:289-377 | The two switches and the option loop compute `FieldSchema`. That is the shape, the comment with every "//" removed, and the last two-part default. |
| Fields.RenderFieldCore | generate/parser.go:300-326 | The first switch equals `FieldCore`. An unknown type is a reference, a slice takes its items from the table, and any other kind takes the table's answer or (kind name, "UNKNOWN"). |
| Fields.ScanTags | generate/parser.go:359-374 | The tag loop sets the default to that of the last two-part default option of all tags. |
| Fields.ScanDefaults | generate/parser.go:363-373 | The option loop of one tag keeps the last two-part default. |
| Fields.StructFieldRef | generate/parser.go:301-309 | An unknown type `n`, `*n`, `[]n` or `[]*n` refers to "#/definitions/n". It is an array of that reference exactly when written with "[]". |
| Fields.BareRef | generate/parser.go:336-350 | An unknown bare type is a plain reference. |
| Fields.PointerRef | generate/parser.go:336-350 | An unknown `*n` is a plain reference to n. |
| Fields.SliceRef | generate/parser.go:336-344 | An unknown `[]n` is an array of references to n. |
| Fields.SliceOfPointerRef | generate/parser.go:336-344 | An unknown `[]*n` is an array of references to n. |
| Fields.RefTypeNameBare | generate/parser.go:304-306 | Removing the first '[', ']' and '*' leaves a plain name unchanged. |
| Fields.RefTypeNamePointer | generate/parser.go:304-306 | The same removal turns `*n` into n. |
| Fields.RefTypeNameSlice | generate/parser.go:304-306 | The same removal turns `[]n` into n. |
| Fields.RefTypeNameSliceOfPointer | generate/parser.go:304-306 | The same removal turns `[]*n` into n. |
| Fields.RefTypeNameSteps | generate/parser.go:304-306 | Three first-occurrence removals that give t1, t2 and then n make `RefTypeName` n. |
| Fields.RemoveFirstRune | generate/parser.go:304-306 | Removing the first occurrence of a leading rune drops that rune. |
| Fields.SliceFieldItems | generate/parser.go:310-335 | A slice field is an array. Its items are the table's answer for the element kind, or ("slice", "UNKNOWN") whatever the element kind is. |
| Definitions.IsJsonMember | generate/parser.go:253-255 | Only a member whose raw tag contains "json" becomes a property. |
| Definitions.PropertyKey | generate/parser.go:257-260 | The property key: the name `GetPropertyName` gives, or the field name when it fails. |
| Definitions.ListContains | generate/parser.go:417-425 | `contains` holds iff the string is in the list. |
| Definitions.JsonMembers | generate/parser.go:252-255 | The selected members are exactly those whose raw tag contains "json". |
| Definitions.Properties | generate/parser.go:252-264 | The properties the member loop appends: a key and a field schema for each json member, in order. `PropertiesAreJsonMembers` states it. |
| Definitions.PropertiesField | generate/parser.go:261-264 | `Properties` stays nil until a first property is appended. `DefinitionShape` states it. |
| Definitions.PropertiesAreJsonMembers | generate/parser.go:252-264 | The properties are the json members in member order. Each is keyed by its property name, or its field name, and holds its field schema. |
| Definitions.RequiredOf | generate/parser.go:252-281 | The required list of a struct: the tag loop of each json member, in order. A specification function; `RequiredMembers`, `RequiredNoDuplicates` and `DuplicateRequired` state what it gives. |
| Definitions.Definition | generate/parser.go:243-282 | The schema stored for a type: an object titled by the struct name, with its properties and required list; a non-struct type gets the zero struct. A specification function; `RenderDefinition` builds it and `DefinitionShape` states its parts. |
| Definitions.DefinitionShape | generate/parser.go:243-264 | A definition is an object titled with the struct's name. Its properties are nil iff there is no json member, and otherwise are those members in order. |
| Definitions.AddForOption | generate/parser.go:271-279 | One option: one not starting with "optional" appends the tag name unless it is already listed. The `default` and `options` cases change nothing. |
| Definitions.AddForOptions | generate/parser.go:271-280 | The option loop over one tag's options. `AddForOptionsOnce` states what it gives. |
| Definitions.AddForTag | generate/parser.go:266-281 | One tag: without options its name is appended even when already listed; otherwise it is the option loop. |
| Definitions.AddForTags | generate/parser.go:266-281 | The tag loop over one member's tags. `AddForTagsMembers` states what it gives. |
| Definitions.AddRequiredForOptions | generate/parser.go:270-279 | The option loop equals `AddForOptions`. |
| Definitions.AddRequiredForTags | generate/parser.go:266-281 | The tag loop equals `AddForTags`. |
| Definitions.RenderDefinition | generate/parser.go:243-282 | The member loop builds `Definition`: the properties and the required list, in order. |
| Definitions.RenderMember | generate/parser.go:252-281 | A json member appends its property, creating the list on the first one, and then its required names. Any other member changes nothing. |
| Definitions.DefinitionStep | generate/parser.go:252-281 | One more member: a json member adds its property and its required names. Any other member adds nothing. |
| Definitions.DefinitionsObject.constructor | generate/parser.go:42 | A new definitions map is empty. |
| Definitions.DefinitionsFold | generate/parser.go:242-285 | The definitions map after the type loop: each type's definition stored under its name, in order. A specification function; `RenderReplyAsDefinition` equals it, and `DefinitionsKeys` and `DefinitionsLastWins` state what it gives. |
| Definitions.RenderReplyAsDefinition | generate/parser.go:241-287 | The type loop stores the definition of every type under its name, in order, into the shared map. |
| Definitions.DefinitionsKeys | generate/parser.go:242-284 | The map's keys are the old keys and the type names, and nothing else. |
| Definitions.DefinitionsLastWins | generate/parser.go:284 | A name holds the definition of the last type with that name. |
| Definitions.AddForOptionsOnce | generate/parser.go:270-279 | The option loop adds the tag name once, exactly when some option does not start with "optional" and the name is not yet listed. |
| Definitions.AddForTagsMembers | generate/parser.go:266-281 | After the tag loop, a name is listed iff it was listed before or some tag with that name has no options or an option not starting with "optional". |
| Definitions.TagRequiresProperty | generate/parser.go:266-281 | A tag makes its name required when it has no options or an option not starting with "optional". `RequiredMembers` is stated with it. |
| Definitions.RequiredMembers | generate/parser.go:252-281 | A name is required iff some tag of a json member carries it and has no options or an option not starting with "optional". |
| Definitions.NoDuplicates | generate/parser.go:274-276 | No name is listed twice. The property the `contains` test aims at. |
| Definitions.AddForOptionsNoDuplicates | generate/parser.go:270-279 | The option loop introduces no duplicate. |
| Definitions.AddForTagsNoDuplicates | generate/parser.go:266-281 | When every tag has options, the tag loop keeps a list free of duplicates. |
| Definitions.RequiredNoDuplicates | generate/parser.go:266-281 | The de-duplication is partial: the list is free of duplicates when every tag of the json members has options. |
| Definitions.DuplicateRequired | generate/parser.go:267-269 | Two json members tagged `id` without options list "id" twice. |
| Definitions.OptionalDefaultRequired | generate/parser.go:270-279 | A json member tagged `age,optional,default=18` is required. |
| Routes.OperationTag | generate/parser.go:191-194 | The operation's tag: the group's "group" annotation when it is non-empty, otherwise the service name. `OperationShape` states it. |
| Routes.UnquoteOrEmpty | generate/parser.go:221 | `strconv.Unquote` with its error discarded: a failure reads as "". The same use is at :32-34. |
| Routes.OperationDescription | generate/parser.go:220-222 | The description: the unquoted @doc "description" property, set only when the route has @doc properties, otherwise "". |
| Swagger.RefSchema | generate/parser.go:201-205 | A schema holding nothing but a `$ref`, as the response schema is built. |
| Routes.ResponseRef | generate/parser.go:187-190 | The reference is "" iff there is no response type or its name is empty. Otherwise it is "#/definitions/" followed by the name. |
| Routes.RouteOperation | generate/parser.go:186-222 | The operation of a route: its tag, the path then request parameters, the "200" response, handler, summary and description. A specification function; `RenderRoute` equals it, and `OperationShape` and `PathParametersFirst` state its parts. |
| Routes.OperationShape | generate/parser.go:186-218 | The operation has one tag: the "group" annotation, or the service name when that is empty. It has exactly one response, "200", described "A successful response.", holding only the reference. Its id is the handler and its summary the joined doc. |
| Routes.PathParametersFirst | generate/parser.go:73-197 | The path parameters come first, and no later parameter is in the path. |
| Routes.PathParametersAtPath | generate/parser.go:73-89 | Every path parameter of a route is in the path. |
| Routes.LocationsSplit | generate/parser.go:90-197 | When the first part is all in the path and the second part has nothing in the path, the first part is a prefix of the whole list, every entry before its end is in the path, and none after it is. |
| Routes.SegmentParametersAtPath | generate/parser.go:82-87 | Every segment parameter is in the path. |
| Routes.RenderRoute | generate/parser.go:73-222 | One route's path and operation equal `RenderedPath` and `RouteOperation`. |
| Routes.MethodName | generate/parser.go:225-232 | The name each slot is selected by: GET, POST, DELETE and PUT, the `http.Method…` constants. |
| Routes.MethodSlot | generate/parser.go:224-233 | The selected slot's name is the upper-cased method. No slot is selected when the upper-cased method is none of GET, POST, DELETE or PUT. |
| Routes.Slot | generate/parser.go:224-233 | The operation a path item holds in a slot. `WithOperation`, `RouteSlot` and `StoreAllLastWins` are stated with it. |
| Routes.WithOperation | generate/parser.go:224-233 | Only the selected slot receives the operation, and every other slot is kept. An unsupported method keeps the item. |
| Routes.RouteEntryOf | generate/parser.go:73-235 | What one route contributes: the rewritten path as key, the slot of its method and its operation. `RouteEntryAt` states it. |
| Routes.RouteEntries | generate/parser.go:72 | There is one entry per route. |
| Routes.Store | generate/parser.go:181-235 | Storing one route adds its key and changes no other key. |
| Routes.StoreAll | generate/parser.go:72-236 | The paths map after the route loop of one group: each entry stored in order. A specification function; `RenderGroupRoutes` equals it, and `StoreAllKeys` and `StoreAllLastWins` state what it gives. |
| Routes.StoreAllSnoc | generate/parser.go:72-236 | One more route is stored after the earlier ones. |
| Routes.PathsObject.constructor | generate/parser.go:41 | A new paths map is empty. |
| Routes.StoreOperation | generate/parser.go:181-235 | The switch and the store equal `Store` of the route's entry. |
| Routes.RenderGroupRoutes | generate/parser.go:72-236 | The route loop of a group stores every route's entry in order. |
| Routes.RenderRouteAt | generate/parser.go:73-235 | The body of the route loop stores the entry of the route at index r. |
| Routes.RouteEntryAt | generate/parser.go:73-235 | The entry of route r has the rewritten path, the method's slot and the route's operation. |
| Routes.GroupsFold | generate/parser.go:70-237 | The paths map after the group loop: the groups' route loops in order. A specification function; `RenderServiceRoutes` equals it, and `GroupsKeys` and `GroupKeysMembers` state what it gives. |
| Routes.GroupsFoldSnoc | generate/parser.go:70-237 | One more group: its routes are stored after those of the earlier groups. |
| Routes.RenderGroupAt | generate/parser.go:70-237 | The body of the group loop: after group g the shared map equals `GroupsFold` of the groups up to g. |
| Routes.RenderServiceRoutes | generate/parser.go:68-239 | The group loop leaves the shared map equal to `GroupsFold` of its old value. |
| Routes.StoreAllKeys | generate/parser.go:235 | The keys after the route loop are the old keys and the entries' keys. |
| Routes.EntryKeySet | generate/parser.go:235 | The keys the route loop writes: one per entry. |
| Routes.EntryKeySetSnoc | generate/parser.go:235 | One more entry adds its key to the key set. |
| Routes.EntryKeys | generate/parser.go:235 | Each entry is keyed by its route's rewritten path. |
| Routes.RouteKeys | generate/parser.go:72-235 | The rewritten paths of a group's routes. |
| Routes.GroupKeys | generate/parser.go:70-237 | The rewritten paths of the routes of all groups. `GroupKeysMembers` states it. |
| Routes.GroupsKeys | generate/parser.go:70-237 | The keys after the group loop are the old keys and the rewritten path of every route, whatever its method. |
| Routes.GroupKeysMembers | generate/parser.go:70-237 | A key comes from some route of some group, and every route gives one. |
| Routes.StoreAllLastWins | generate/parser.go:181-235 | Within a run of route entries, items accumulate. A slot holds the operation of the last entry with that key and that method. `GroupsLastWins` carries this across groups. |
| Routes.AllEntries | generate/parser.go:70-237 | The entries of the routes of all groups, group after group, in route order. |
| Routes.StoreAllAppend | generate/parser.go:72-236 | The route loop over two runs of entries is the loop over the first and then over the second. |
| Routes.GroupsFoldAllEntries | generate/parser.go:70-237 | The group loop is one route loop over the entries of all groups. |
| Routes.GroupsLastWins | generate/parser.go:70-237 | Across groups, a slot holds the operation of the last route, in any group, with that key and method. A later group's route overwrites an earlier group's. |
| Routes.MethodSlotIgnoresCase | generate/parser.go:224 | Dispatch ignores case. |
| Routes.MethodSlotExamples | generate/parser.go:224-233 | "get" and "Get" select GET. "PATCH" selects nothing. "poſt" selects POST. |
| Routes.RouteSlot | generate/parser.go:181-235 | A route changes only the slot of its method in the item under its path. |
| Routes.UnsupportedMethodStoresItem | generate/parser.go:181-235 | A route with an unsupported method still stores the item, possibly new and empty, under its path. |
| ApiSpec.Name | generate/parser.go:284 | `spec.Type.Name()`: the declared name of a type of any form, the key of its definition. |
| ApiSpec.Lookup | generate/parser.go:221 | Indexing a Go `map[string]string`: the value of a present key, and "" for a missing one. The same indexing is at :32-34. |
| ApiSpec.GetAnnotation | generate/parser.go:192 | `Group.GetAnnotation`: the annotation's value, or "" when it is missing. |
| Generate.DocumentInfo | generate/parser.go:32-48 | The info object: the unquoted title, version and desc properties, each "" when missing or when unquoting fails. |
| Generate.GeneratedDocument | generate/parser.go:30-66 | The document applyGenerate returns: the fixed header, the info, the folded paths and definitions, and the apiKey scheme. A specification function; `ApplyGenerate` equals it, and `DocumentKeys`, `DocumentPaths` and `DocumentHeader` state what it gives. |
| Generate.ApplyGenerate | generate/parser.go:30-66 | The returned document equals `GeneratedDocument`. That is the fixed header, the unquoted info, the paths and definitions of fresh maps, empty stream definitions, and the single apiKey scheme. |
| Generate.DocumentKeys | generate/parser.go:59-63 | The document's paths are exactly the routes' rewritten paths, and its definitions are keyed by exactly the type names. |
| Generate.DocumentPaths | generate/parser.go:59-63 | A path of the document comes from a route, and every route's path is in the document. |
| Generate.DocumentHeader | generate/parser.go:36-56 | The header is Swagger "2.0" over http and https, with JSON in and out, no stream definitions, and the one "apiKey" header scheme named Authorization. |

## Left out

- `stringToBytes` (generate/parser.go:402-409) is a zero-copy conversion with no effect on
  the result. `countParams` is a count of ':' runes. ':' is a single byte in UTF-8, so this
  count equals the byte count.
- Strings are sequences of runes, not bytes. Every string operation the file uses gives the
  same result either way on the ASCII separators involved, for valid UTF-8 input.
- `strconv.Unquote` is an abstract parameter, and its error result is read as "".
- `swaggerMapTypes` and `reflect.Kind.String()` are defined outside this file. They are a map
  parameter and `KindName`.
- `Tags()`, `GetPropertyName()`, `GetComment()`, `JoinedDoc()`, `GetAnnotation` and
  `AtDoc.Properties` belong to the go-zero `spec` package, which is not part of this model.
  Their results are input fields.
- `route.RequestType` and `route.ResponseType` are interfaces that may be nil. They are
  `Option<ApiType>`.
- The Swagger struct definitions and the JSON encoding of the document are not part of this
  model. Only the record fields that the file sets are modelled.
- `requestResponseRefs` (generate/parser.go:213-217) is written but never read. `messageMap`
  (generate/parser.go:61-63) is created and passed but never used. Neither is modelled.
- The `error` result of `applyGenerate` is always nil and is not modelled.
- Operations are stored by pointer in Go. Nothing modifies an operation after it is stored,
  so they are values here.
- Go map iteration order is never used by the file, so maps are Dafny maps.
- JSON serialisation order of the maps is not modelled.
- `GoStrings.UpperRune` uses Go's upper-case mapping only for ASCII and for the two non-ASCII
  runes whose upper case is ASCII (U+0131 and U+017F). It keeps every other rune, and so does
  `GoStrings.ToUpper`, which applies it rune by rune. Only
  whether the result equals GET, POST, DELETE or PUT matters, and for that this is exact.
