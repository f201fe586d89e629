/**
 * The definitions section (renderReplyAsDefinition and contains): one object
 * schema per declared type, with the json-tagged members as ordered properties
 * and the names the tag options make required.
 */
module Definitions {
  import opened Wrappers
  import opened GoStrings
  import opened ApiSpec
  import opened Swagger
  import opened Kinds
  import opened TagOptions
  import opened Fields

  /** contains: a linear scan for `str`. */
  function ListContains(s: seq<string>, str: string): (r: bool)
    ensures r <==> str in s
  {
    if s == [] then false else s[0] == str || ListContains(s[1..], str)
  }

  /** Only members whose raw tag holds "json" become properties. */
  predicate IsJsonMember(m: Member) {
    Contains(m.tag, "json")
  }

  /** The property key: the name GetPropertyName gives, or the field name when
    * it fails. */
  function PropertyKey(m: Member): string {
    match m.propertyName
    case Some(name) => name
    case None => m.name
  }

  /** The json members, in member order. */
  function JsonMembers(members: seq<Member>): (r: seq<Member>)
    ensures |r| <= |members|
    ensures forall m :: m in r <==> m in members && IsJsonMember(m)
    decreases |members|
  {
    if members == [] then []
    else
      var init, last := members[..|members| - 1], members[|members| - 1];
      assert members == init + [last];
      JsonMembers(init) + (if IsJsonMember(last) then [last] else [])
  }

  /** The properties the member loop appends. */
  function Properties(members: seq<Member>, kinds: map<string, Kind>): seq<KeyVal>
    decreases |members|
  {
    if members == [] then []
    else
      var init, last := members[..|members| - 1], members[|members| - 1];
      Properties(init, kinds)
      + (if IsJsonMember(last) then [KeyVal(PropertyKey(last), FieldSchema(last, kinds))] else [])
  }

  /** `Properties` stays nil until a first property is appended. */
  function PropertiesField(members: seq<Member>, kinds: map<string, Kind>): Option<seq<KeyVal>> {
    var props := Properties(members, kinds);
    if props == [] then None else Some(props)
  }

  /** The properties are the json members in member order, each keyed by its
    * property name and described by its field schema. */
  lemma {:induction false} PropertiesAreJsonMembers(members: seq<Member>, kinds: map<string, Kind>)
    ensures |Properties(members, kinds)| == |JsonMembers(members)|
    ensures forall i :: 0 <= i < |JsonMembers(members)| ==>
              Properties(members, kinds)[i]
              == KeyVal(PropertyKey(JsonMembers(members)[i]), FieldSchema(JsonMembers(members)[i], kinds))
    decreases |members|
  {
    if members != [] {
      PropertiesAreJsonMembers(members[..|members| - 1], kinds);
    }
  }

  /** The step of the option loop: an option not starting with "optional" adds the
    * tag name unless it is already listed. */
  function AddForOption(req: seq<string>, name: string, option: string): seq<string> {
    if OptionRequiresProperty(option) && !ListContains(req, name) then req + [name] else req
  }

  /** The option loop over `opts`. */
  function AddForOptions(req: seq<string>, name: string, opts: seq<string>): seq<string>
    decreases |opts|
  {
    if opts == [] then req
    else AddForOption(AddForOptions(req, name, opts[..|opts| - 1]), name, opts[|opts| - 1])
  }

  /** The step of the tag loop: a tag without options appends its name even when
    * it is already listed. */
  function AddForTag(req: seq<string>, tag: Tag): seq<string> {
    if |tag.options| == 0 then req + [tag.name] else AddForOptions(req, tag.name, tag.options)
  }

  function AddForTags(req: seq<string>, tags: seq<Tag>): seq<string>
    decreases |tags|
  {
    if tags == [] then req else AddForTag(AddForTags(req, tags[..|tags| - 1]), tags[|tags| - 1])
  }

  /** The required list of a struct: its json members' tags, in order. */
  function RequiredOf(members: seq<Member>): seq<string>
    decreases |members|
  {
    if members == [] then []
    else
      var init, last := members[..|members| - 1], members[|members| - 1];
      if IsJsonMember(last) then AddForTags(RequiredOf(init), last.tags) else RequiredOf(init)
  }

  /** The definition of a declared type. A type that is not a struct has an empty
    * title and neither properties nor required names. */
  function Definition(t: ApiType, kinds: map<string, Kind>): Schema {
    var members := if t.DefineStruct? then t.members else [];
    Schema(EmptyCore.(typ := "object"), PropertiesField(members, kinds), RequiredOf(members),
           if t.DefineStruct? then t.rawName else "", "", "")
  }

  /** A definition is an object titled with the struct's name; its properties
    * are nil exactly when the struct has no json member, and otherwise are the
    * json members in order, each keyed by its property name. */
  lemma DefinitionShape(t: ApiType, kinds: map<string, Kind>)
    ensures var d := Definition(t, kinds);
            var js := JsonMembers(if t.DefineStruct? then t.members else []);
            && d.core == EmptyCore.(typ := "object")
            && (t.DefineStruct? ==> d.title == t.rawName)
            && (d.properties.None? <==> js == [])
            && (d.properties.Some? ==>
                  |d.properties.value| == |js|
                  && forall i :: 0 <= i < |js| ==>
                       d.properties.value[i] == KeyVal(PropertyKey(js[i]), FieldSchema(js[i], kinds)))
  {
    PropertiesAreJsonMembers(if t.DefineStruct? then t.members else [], kinds);
  }

  /** The option loop: the name is appended once, at the first option that does
    * not start with "optional", unless it is already listed. */
  method AddRequiredForOptions(req: seq<string>, name: string, opts: seq<string>) returns (r: seq<string>)
    ensures r == AddForOptions(req, name, opts)
  {
    r := req;
    var j := 0;
    while j < |opts|
      invariant 0 <= j <= |opts|
      invariant r == AddForOptions(req, name, opts[..j])
    {
      assert opts[..j + 1][..j] == opts[..j];
      var option := opts[j];
      if !HasPrefix(option, "optional") {
        if !ListContains(r, name) {
          r := r + [name];
        }
      }
      j := j + 1;
    }
    assert opts[..j] == opts;
  }

  /** The tag loop of one json member. */
  method AddRequiredForTags(req: seq<string>, tags: seq<Tag>) returns (r: seq<string>)
    ensures r == AddForTags(req, tags)
  {
    r := req;
    var i := 0;
    while i < |tags|
      invariant 0 <= i <= |tags|
      invariant r == AddForTags(req, tags[..i])
    {
      assert tags[..i + 1][..i] == tags[..i];
      var tag := tags[i];
      if |tag.options| == 0 {
        r := r + [tag.name];
      } else {
        r := AddRequiredForOptions(r, tag.name, tag.options);
      }
      i := i + 1;
    }
    assert tags[..i] == tags;
  }

  /** The body of the type loop of renderReplyAsDefinition: the schema of one type. */
  method RenderDefinition(t: ApiType, kinds: map<string, Kind>) returns (schema: Schema)
    ensures schema == Definition(t, kinds)
  {
    var members := if t.DefineStruct? then t.members else [];
    schema := Schema(EmptyCore.(typ := "object"), None, [], "", "", "");
    schema := schema.(title := if t.DefineStruct? then t.rawName else "");
    var i := 0;
    while i < |members|
      invariant 0 <= i <= |members|
      invariant schema == Schema(EmptyCore.(typ := "object"), PropertiesField(members[..i], kinds),
                                 RequiredOf(members[..i]), if t.DefineStruct? then t.rawName else "", "", "")
    {
      DefinitionStep(members, i, kinds);
      schema := RenderMember(schema, members[i], kinds);
      i := i + 1;
    }
    assert members[..i] == members;
  }

  /** The body of the member loop: a json member appends its property, creating
    * the list on the first one, and then its required names. */
  method RenderMember(schema: Schema, member: Member, kinds: map<string, Kind>) returns (next: Schema)
    ensures IsJsonMember(member) ==>
              var props := if schema.properties.None? then [] else schema.properties.value;
              next == schema.(properties := Some(props + [KeyVal(PropertyKey(member), FieldSchema(member, kinds))]),
                              required := AddForTags(schema.required, member.tags))
    ensures !IsJsonMember(member) ==> next == schema
  {
    next := schema;
    if Contains(member.tag, "json") {
      var value := SchemaOfField(member, kinds);
      var kv := KeyVal(member.name, value);
      if member.propertyName.Some? {
        kv := kv.(key := member.propertyName.value);
      }
      var props := if next.properties.None? then [] else next.properties.value;
      next := next.(properties := Some(props + [kv]));
      var req := AddRequiredForTags(next.required, member.tags);
      next := next.(required := req);
    }
  }

  /** One more member: how the properties and the required list of a prefix grow. */
  lemma DefinitionStep(members: seq<Member>, i: nat, kinds: map<string, Kind>)
    requires i < |members|
    ensures var props := Properties(members[..i], kinds);
            PropertiesField(members[..i + 1], kinds)
            == if IsJsonMember(members[i])
               then Some(props + [KeyVal(PropertyKey(members[i]), FieldSchema(members[i], kinds))])
               else PropertiesField(members[..i], kinds)
    ensures RequiredOf(members[..i + 1])
            == if IsJsonMember(members[i]) then AddForTags(RequiredOf(members[..i]), members[i].tags)
               else RequiredOf(members[..i])
  {
    var pre := members[..i + 1];
    assert pre[..|pre| - 1] == members[..i] && pre[|pre| - 1] == members[i];
    var props := Properties(members[..i], kinds);
    if IsJsonMember(members[i]) {
      var kv := KeyVal(PropertyKey(members[i]), FieldSchema(members[i], kinds));
      assert Properties(pre, kinds) == props + [kv];
      assert Properties(pre, kinds) != [];
    } else {
      assert Properties(pre, kinds) == props;
    }
  }

  /** The definitions map after the type loop: every type, in order, stored under
    * its name. */
  function DefinitionsFold(entries: map<string, Schema>, types: seq<ApiType>, kinds: map<string, Kind>)
    : map<string, Schema>
    decreases |types|
  {
    if types == [] then entries
    else
      var last := types[|types| - 1];
      DefinitionsFold(entries, types[..|types| - 1], kinds)[last.Name() := Definition(last, kinds)]
  }

  /** swaggerDefinitionsObject: the definitions map, shared with its caller. */
  class DefinitionsObject {
    var entries: map<string, Schema>

    constructor ()
      ensures entries == map[]
    {
      entries := map[];
    }
  }

  /** renderReplyAsDefinition: stores the definition of every type in `d`. */
  method RenderReplyAsDefinition(d: DefinitionsObject, types: seq<ApiType>, kinds: map<string, Kind>)
    modifies d
    ensures d.entries == DefinitionsFold(old(d.entries), types, kinds)
  {
    var i := 0;
    while i < |types|
      invariant 0 <= i <= |types|
      invariant d.entries == DefinitionsFold(old(d.entries), types[..i], kinds)
    {
      assert types[..i + 1][..i] == types[..i];
      var schema := RenderDefinition(types[i], kinds);
      d.entries := d.entries[types[i].Name() := schema];
      i := i + 1;
    }
    assert types[..i] == types;
  }

  /** Every type has an entry, and nothing else is added. */
  lemma {:induction false} DefinitionsKeys(entries: map<string, Schema>, types: seq<ApiType>, kinds: map<string, Kind>)
    ensures forall k :: k in DefinitionsFold(entries, types, kinds) <==>
              k in entries || exists i :: 0 <= i < |types| && types[i].Name() == k
    decreases |types|
  {
    if types != [] {
      var init := types[..|types| - 1];
      DefinitionsKeys(entries, init, kinds);
      assert forall i :: 0 <= i < |init| ==> init[i] == types[i];
    }
  }

  /** A name's entry is the definition of the last type with that name. */
  lemma {:induction false} DefinitionsLastWins(entries: map<string, Schema>, types: seq<ApiType>,
                                               kinds: map<string, Kind>, i: nat)
    requires i < |types|
    requires forall j :: i < j < |types| ==> types[j].Name() != types[i].Name()
    ensures types[i].Name() in DefinitionsFold(entries, types, kinds)
    ensures DefinitionsFold(entries, types, kinds)[types[i].Name()] == Definition(types[i], kinds)
    decreases |types|
  {
    if i < |types| - 1 {
      var init := types[..|types| - 1];
      assert forall j :: i < j < |init| ==> init[j] == types[j];
      DefinitionsLastWins(entries, init, kinds, i);
    }
  }

  /** A definition option that makes the tag name required. */
  predicate TagRequiresProperty(tag: Tag) {
    |tag.options| == 0 || exists k :: 0 <= k < |tag.options| && OptionRequiresProperty(tag.options[k])
  }

  /** The option loop adds the name at most once: exactly when some option does
    * not start with "optional" and the name is not yet listed. */
  lemma {:induction false} AddForOptionsOnce(req: seq<string>, name: string, opts: seq<string>)
    ensures AddForOptions(req, name, opts)
            == if name !in req && exists k :: 0 <= k < |opts| && OptionRequiresProperty(opts[k])
               then req + [name] else req
    decreases |opts|
  {
    if opts != [] {
      var init := opts[..|opts| - 1];
      AddForOptionsOnce(req, name, init);
      assert forall k :: 0 <= k < |init| ==> init[k] == opts[k];
      if name !in req && exists k :: 0 <= k < |init| && OptionRequiresProperty(init[k]) {
        assert name in req + [name];
      }
    }
  }

  /** A name is listed after the tag loop iff it was already listed or some tag
    * with that name requires it. */
  lemma {:induction false} AddForTagsMembers(req: seq<string>, tags: seq<Tag>, x: string)
    ensures x in AddForTags(req, tags) <==>
            x in req || exists j :: 0 <= j < |tags| && tags[j].name == x && TagRequiresProperty(tags[j])
    decreases |tags|
  {
    if tags != [] {
      var init, last := tags[..|tags| - 1], tags[|tags| - 1];
      AddForTagsMembers(req, init, x);
      assert forall j :: 0 <= j < |init| ==> init[j] == tags[j];
      if |last.options| > 0 {
        AddForOptionsOnce(AddForTags(req, init), last.name, last.options);
      }
    }
  }

  /** A name is required iff a tag with that name on a json member has no options,
    * or has an option that does not start with "optional". */
  lemma {:induction false} RequiredMembers(members: seq<Member>, x: string)
    ensures x in RequiredOf(members) <==>
            exists i, j :: 0 <= i < |members| && IsJsonMember(members[i]) && 0 <= j < |members[i].tags|
                           && members[i].tags[j].name == x && TagRequiresProperty(members[i].tags[j])
    decreases |members|
  {
    if members != [] {
      var init, last := members[..|members| - 1], members[|members| - 1];
      RequiredMembers(init, x);
      assert forall i :: 0 <= i < |init| ==> init[i] == members[i];
      if IsJsonMember(last) {
        AddForTagsMembers(RequiredOf(init), last.tags, x);
      }
    }
  }

  predicate NoDuplicates(s: seq<string>) {
    forall i, j :: 0 <= i < j < |s| ==> s[i] != s[j]
  }

  /** The option loop never introduces a duplicate. */
  lemma AddForOptionsNoDuplicates(req: seq<string>, name: string, opts: seq<string>)
    requires NoDuplicates(req)
    ensures NoDuplicates(AddForOptions(req, name, opts))
  {
    AddForOptionsOnce(req, name, opts);
  }

  /** When every tag has options, the tag loop keeps a list free of duplicates. */
  lemma {:induction false} AddForTagsNoDuplicates(req: seq<string>, tags: seq<Tag>)
    requires NoDuplicates(req)
    requires forall j :: 0 <= j < |tags| ==> |tags[j].options| > 0
    ensures NoDuplicates(AddForTags(req, tags))
    decreases |tags|
  {
    if tags != [] {
      var init, last := tags[..|tags| - 1], tags[|tags| - 1];
      assert forall j :: 0 <= j < |init| ==> init[j] == tags[j];
      AddForTagsNoDuplicates(req, init);
      AddForOptionsNoDuplicates(AddForTags(req, init), last.name, last.options);
    }
  }

  /** The de-duplication is partial: the required list of a struct is free of
    * duplicates when every tag of its json members has options. */
  lemma {:induction false} RequiredNoDuplicates(members: seq<Member>)
    requires forall i, j :: 0 <= i < |members| && IsJsonMember(members[i]) && 0 <= j < |members[i].tags| ==>
               |members[i].tags[j].options| > 0
    ensures NoDuplicates(RequiredOf(members))
    decreases |members|
  {
    if members != [] {
      var init, last := members[..|members| - 1], members[|members| - 1];
      assert forall i :: 0 <= i < |init| ==> init[i] == members[i];
      RequiredNoDuplicates(init);
      if IsJsonMember(last) {
        AddForTagsNoDuplicates(RequiredOf(init), last.tags);
      }
    }
  }

  /** ... and only then: two json members whose `id` tags have no options list
    * "id" twice. */
  lemma DuplicateRequired(a: Member, b: Member)
    requires IsJsonMember(a) && IsJsonMember(b)
    requires a.tags == [Tag("id", [])] && b.tags == [Tag("id", [])]
    ensures RequiredOf([a, b]) == ["id", "id"]
  {
    var tag := Tag("id", []);
    assert [tag][..0] == [];
    assert AddForTags([], [tag]) == ["id"];
    assert AddForTags(["id"], [tag]) == ["id", "id"];
    assert [a, b][..1] == [a] && [a][..0] == [];
    assert RequiredOf([a]) == ["id"];
  }

  /** Unlike a query parameter, a property tagged `age,optional,default=18` is
    * required: "default=18" does not start with "optional", and the switch's
    * own "default" case is never reached. */
  lemma OptionalDefaultRequired(m: Member)
    requires IsJsonMember(m)
    requires m.tags == [Tag("age", ["optional", "default=18"])]
    ensures RequiredOf([m]) == ["age"]
  {
    var tag := m.tags[0];
    assert [m][..0] == [];
    assert [tag][..0] == [];
    assert "default=18"[0] != "optional"[0];
    AddForOptionsOnce([], "age", tag.options);
    assert OptionRequiresProperty(tag.options[1]);
    assert AddForOptions([], "age", tag.options) == ["age"];
    assert AddForTags([], m.tags) == AddForTag([], tag);
    assert RequiredOf([m]) == AddForTags([], m.tags);
  }
}
