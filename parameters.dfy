/**
 * The parameters a request struct contributes to an operation (the member loop
 * of renderServiceRoutes): a query parameter for a `form` tag, a header
 * parameter for a `header` tag and a whole-body parameter for a `json` tag.
 */
module Parameters {
  import opened Wrappers
  import opened Seqs
  import opened GoStrings
  import opened ApiSpec
  import opened Swagger
  import opened Kinds
  import opened TagOptions

  /** A parameter's description: the raw comment with its leading '/' runes
    * trimmed, and empty when there is no comment. */
  function ParamDescription(comment: string): (d: string)
    ensures |d| <= |comment| && d == comment[|comment| - |d|..]
    ensures forall i :: 0 <= i < |comment| - |d| ==> comment[i] == '/'
    ensures d == [] || d[0] != '/'
  {
    if |comment| > 0 then TrimLeft(comment, "//") else ""
  }

  /** The kind of a query/header parameter: its type name with every "[]"
    * removed, looked up in the kind table. */
  function ParamKind(m: Member, kinds: map<string, Kind>): Kind {
    LookupKind(kinds, ReplaceAll(m.typeName, "[]", ""))
  }

  /** The query or header parameter of a member. */
  function LocatedParameter(m: Member, location: string, kinds: map<string, Kind>): Parameter {
    var tf := TypeFormat(ParamKind(m, kinds), m.typeName);
    Parameter(TagName(m.tags), location, tf.0, tf.1, ForcesRequired(m.tags),
              DefaultOf(m.tags), ParamDescription(m.comment), None)
  }

  /** The type and format of a query/header parameter: the primitive table's
    * answer, or the kind's name and "UNKNOWN". */
  method ParamTypeFormat(m: Member, kinds: map<string, Kind>) returns (ftype: string, format: string)
    ensures (ftype, format) == TypeFormat(ParamKind(m, kinds), m.typeName)
  {
    var tempKind := LookupKind(kinds, ReplaceAll(m.typeName, "[]", ""));
    var prim := PrimitiveSchema(tempKind, m.typeName);
    ftype, format := prim.0, prim.1;
    if !prim.2 {
      ftype := KindName(tempKind);
      format := "UNKNOWN";
    }
  }

  /** The option loop of one tag with options: a default option with two parts
    * sets the default, another option not starting with "optional" sets required.
    * `seen` are the options of the earlier tags, whose last default `sp0` holds. */
  method ScanOptions(sp0: Parameter, seen: seq<string>, opts: seq<string>) returns (sp: Parameter)
    requires sp0.defaultValue == LastDefault(seen).GetOr("")
    ensures sp == sp0.(required := sp0.required || exists k :: 0 <= k < |opts| && OptionForcesRequired(opts[k]),
                       defaultValue := LastDefault(seen + opts).GetOr(""))
  {
    sp := sp0;
    var j := 0;
    assert seen + opts[..0] == seen;
    while j < |opts|
      invariant 0 <= j <= |opts|
      invariant sp == sp0.(required := sp0.required || exists k :: 0 <= k < j && OptionForcesRequired(opts[k]),
                           defaultValue := LastDefault(seen + opts[..j]).GetOr(""))
    {
      var option := opts[j];
      ScanOptionStep(seen, opts, j);
      if HasPrefix(option, "default") {
        var segs := Split(option, '=');
        if |segs| == 2 {
          sp := sp.(defaultValue := segs[1]);
        }
      } else if !HasPrefix(option, "optional") {
        sp := sp.(required := true);
      }
      j := j + 1;
    }
    assert opts[..j] == opts;
  }

  /** One more option: it may supply the default, and it may force required. */
  lemma ScanOptionStep(seen: seq<string>, opts: seq<string>, j: nat)
    requires j < |opts|
    ensures LastDefault(seen + opts[..j + 1])
            == if OptionDefault(opts[j]).Some? then OptionDefault(opts[j]) else LastDefault(seen + opts[..j])
    ensures (exists k :: 0 <= k < j + 1 && OptionForcesRequired(opts[k]))
            <==> (exists k :: 0 <= k < j && OptionForcesRequired(opts[k])) || OptionForcesRequired(opts[j])
  {
    LastDefaultStep(seen, opts, j);
  }

  /** The query/header branch of the member loop: type and format from the
    * primitive table, then the tag and option loops for name, required and
    * default, then the description. */
  method BuildLocatedParameter(m: Member, location: string, kinds: map<string, Kind>)
    returns (sp: Parameter)
    ensures sp == LocatedParameter(m, location, kinds)
  {
    var ftype, format := ParamTypeFormat(m, kinds);
    sp := Parameter("", location, ftype, format, false, "", "", None);
    sp := ScanParameterTags(sp, m.tags);
    if |m.comment| > 0 {
      sp := sp.(description := TrimLeft(m.comment, "//"));
    }
  }

  /** The tag loop of a query/header parameter: each tag renames it, a tag
    * without options makes it required, and the option loop does the rest. */
  method ScanParameterTags(sp0: Parameter, tags: seq<Tag>) returns (sp: Parameter)
    requires sp0.name == "" && !sp0.required && sp0.defaultValue == ""
    ensures sp == sp0.(name := TagName(tags), required := ForcesRequired(tags), defaultValue := DefaultOf(tags))
  {
    sp := sp0;
    var i := 0;
    while i < |tags|
      invariant 0 <= i <= |tags|
      invariant sp == sp0.(name := TagName(tags[..i]), required := ForcesRequired(tags[..i]),
                           defaultValue := DefaultOf(tags[..i]))
    {
      var tag := tags[i];
      ghost var before := sp;
      sp := sp.(name := tag.name);
      if |tag.options| == 0 {
        sp := sp.(required := true);
        assert AllOptions(tags[..i]) + tag.options == AllOptions(tags[..i]);
      } else {
        sp := ScanOptions(sp, AllOptions(tags[..i]), tag.options);
      }
      ParameterTagStep(sp0, tags, i, before, sp);
      i := i + 1;
    }
    assert tags[..i] == tags;
  }

  /** One more tag in the tag loop of a query/header parameter. */
  lemma ParameterTagStep(sp0: Parameter, tags: seq<Tag>, i: nat, before: Parameter, after: Parameter)
    requires i < |tags|
    requires before == sp0.(name := TagName(tags[..i]), required := ForcesRequired(tags[..i]),
                            defaultValue := DefaultOf(tags[..i]))
    requires after == before.(name := tags[i].name,
                              required := before.required || TagForcesRequired(tags[i]),
                              defaultValue := LastDefault(AllOptions(tags[..i]) + tags[i].options).GetOr(""))
    ensures after == sp0.(name := TagName(tags[..i + 1]), required := ForcesRequired(tags[..i + 1]),
                          defaultValue := DefaultOf(tags[..i + 1]))
  {
    AllOptionsSnoc(tags, i);
    ForcesRequiredSnoc(tags, i);
    assert tags[..i + 1][i] == tags[i];
  }

  /** The rules of a query/header parameter: the last tag names it; it is
    * required iff some tag has no options or an option that starts neither with
    * "default" nor with "optional"; its default is "" when no option supplies
    * one, and otherwise what the last supplying option gives. */
  lemma LocatedParameterRules(m: Member, location: string, kinds: map<string, Kind>)
    ensures var p := LocatedParameter(m, location, kinds);
            var opts := AllOptions(m.tags);
            && p.location == location
            && p.name == (if m.tags == [] then "" else m.tags[|m.tags| - 1].name)
            && (p.required <==>
                  exists i :: 0 <= i < |m.tags| &&
                    (|m.tags[i].options| == 0 ||
                     exists j :: 0 <= j < |m.tags[i].options| && OptionForcesRequired(m.tags[i].options[j])))
            && (NoDefaultFrom(opts, 0) ==> p.defaultValue == "")
            && (!NoDefaultFrom(opts, 0) ==>
                  exists k :: 0 <= k < |opts| && OptionDefault(opts[k]) == Some(p.defaultValue) && NoDefaultFrom(opts, k + 1))
  {
    var p := LocatedParameter(m, location, kinds);
    var opts := AllOptions(m.tags);
    assert p.defaultValue == LastDefault(opts).GetOr("");
    assert p.required == ForcesRequired(m.tags);
    LastDefaultWins(opts);
  }

  /** A default option supplies the second part of its split on '=', and only
    * when there are exactly two parts. */
  lemma OptionDefaultRule(option: string)
    ensures OptionDefault(option).Some? <==> HasPrefix(option, "default") && |Split(option, '=')| == 2
    ensures OptionDefault(option).Some? ==> OptionDefault(option).value == Split(option, '=')[1]
  {
  }

  /** The whole-body parameter referring to the request type's definition. */
  function BodyParameter(reqName: string): (p: Parameter)
    ensures p.name == "body" && p.location == "body" && p.required
    ensures p.schema.Some? && p.schema.value.core.ref == DefinitionsPrefix + reqName
  {
    Parameter("body", "body", "", "", true, "", "", Some(RefSchema(DefinitionsPrefix + reqName)))
  }

  /** What one member contributes, from the outcomes of its four tag tests and
    * its candidate query, header and body parameters: nothing for a `path`
    * member, otherwise each candidate whose test holds, in that order. */
  function Contributions(path: bool, form: bool, header: bool, json: bool,
                         q: Parameter, h: Parameter, b: Parameter): seq<Parameter> {
    if path then []
    else (if form then [q] else []) + (if header then [h] else []) + (if json then [b] else [])
  }

  /** What one member of a request struct named `reqName` contributes, each test
    * a substring test of the raw tag; the body parameter needs a named request. */
  function MemberParameters(m: Member, reqName: string, kinds: map<string, Kind>): seq<Parameter> {
    Contributions(Contains(m.tag, "path"), Contains(m.tag, "form"), Contains(m.tag, "header"),
                  Contains(m.tag, "json") && |reqName| > 0,
                  LocatedParameter(m, "query", kinds), LocatedParameter(m, "header", kinds), BodyParameter(reqName))
  }

  /** The order and presence of the contributions. */
  lemma ContributionsShape(path: bool, form: bool, header: bool, json: bool, q: Parameter, h: Parameter, b: Parameter)
    ensures var ps := Contributions(path, form, header, json, q, h, b);
            && (path ==> ps == [])
            && (!path ==>
                  && |ps| == (if form then 1 else 0) + (if header then 1 else 0) + (if json then 1 else 0)
                  && (form ==> ps[0] == q)
                  && (header ==> ps[if form then 1 else 0] == h)
                  && (json ==> ps[|ps| - 1] == b))
  {
  }

  /** The parameters of the members, member after member. */
  function MembersParameters(members: seq<Member>, reqName: string, kinds: map<string, Kind>): seq<Parameter>
    decreases |members|
  {
    if members == [] then []
    else MemberParameters(members[0], reqName, kinds) + MembersParameters(members[1..], reqName, kinds)
  }

  /** Only a struct request type contributes member parameters. */
  function RequestParameters(req: Option<ApiType>, kinds: map<string, Kind>): seq<Parameter> {
    if req.Some? && req.value.DefineStruct? then
      MembersParameters(req.value.members, req.value.rawName, kinds)
    else []
  }

  /** A `path` member contributes nothing; any other member contributes its
    * query parameter, then its header parameter, then its body parameter, each
    * present exactly when its own test holds. */
  lemma MemberParametersShape(m: Member, reqName: string, kinds: map<string, Kind>)
    ensures Contains(m.tag, "path") ==> MemberParameters(m, reqName, kinds) == []
    ensures var ps := MemberParameters(m, reqName, kinds);
            var q, h, b := Contains(m.tag, "form"), Contains(m.tag, "header"), Contains(m.tag, "json") && |reqName| > 0;
            !Contains(m.tag, "path") ==>
              && |ps| == (if q then 1 else 0) + (if h then 1 else 0) + (if b then 1 else 0)
              && (q ==> ps[0] == LocatedParameter(m, "query", kinds))
              && (h ==> ps[if q then 1 else 0] == LocatedParameter(m, "header", kinds))
              && (b ==> ps[|ps| - 1] == BodyParameter(reqName))
  {
    ContributionsShape(Contains(m.tag, "path"), Contains(m.tag, "form"), Contains(m.tag, "header"),
                       Contains(m.tag, "json") && |reqName| > 0,
                       LocatedParameter(m, "query", kinds), LocatedParameter(m, "header", kinds), BodyParameter(reqName));
  }

  /** A request that is not a struct contributes no parameters. */
  lemma NonStructRequest(req: Option<ApiType>, kinds: map<string, Kind>)
    requires req.None? || !req.value.DefineStruct?
    ensures RequestParameters(req, kinds) == []
  {
  }

  /** One iteration of the member loop. */
  method BuildMemberParameters(m: Member, reqName: string, kinds: map<string, Kind>)
    returns (added: seq<Parameter>)
    ensures added == MemberParameters(m, reqName, kinds)
  {
    added := [];
    if !Contains(m.tag, "path") {
      var query, header, body := [], [], [];
      if Contains(m.tag, "form") {
        var sp := BuildLocatedParameter(m, "query", kinds);
        query := [sp];
      }
      if Contains(m.tag, "header") {
        var sp := BuildLocatedParameter(m, "header", kinds);
        header := [sp];
      }
      if Contains(m.tag, "json") {
        if |reqName| > 0 {
          body := [BodyParameter(reqName)];
        }
      }
      added := query + header + body;
    }
  }

  /** The member loop: appends the request struct's parameters after the ones
    * already collected (the path parameters). */
  method AppendRequestParameters(parameters: seq<Parameter>, req: Option<ApiType>, kinds: map<string, Kind>)
    returns (ps: seq<Parameter>)
    ensures ps == parameters + RequestParameters(req, kinds)
  {
    ps := parameters;
    if req.Some? && req.value.DefineStruct? {
      ps := AppendMembersParameters(parameters, req.value.members, req.value.rawName, kinds);
    } else {
      assert RequestParameters(req, kinds) == [];
    }
  }

  /** The loop over the members of a struct named `name`. */
  method AppendMembersParameters(parameters: seq<Parameter>, members: seq<Member>, name: string,
                                 kinds: map<string, Kind>)
    returns (ps: seq<Parameter>)
    ensures ps == parameters + MembersParameters(members, name, kinds)
  {
    ps := parameters;
    var i := 0;
    while i < |members|
      invariant 0 <= i <= |members|
      invariant ps + MembersParameters(members[i..], name, kinds)
                == parameters + MembersParameters(members, name, kinds)
    {
      var added := BuildMemberParameters(members[i], name, kinds);
      AppendMemberStep(ps, added, members, i, name, kinds);
      ps := ps + added;
      i := i + 1;
    }
    assert members[i..] == [];
  }

  lemma AppendMemberStep(ps: seq<Parameter>, added: seq<Parameter>, members: seq<Member>, i: nat, name: string, kinds: map<string, Kind>)
    requires i < |members|
    requires added == MemberParameters(members[i], name, kinds)
    ensures ps + MembersParameters(members[i..], name, kinds)
            == (ps + added) + MembersParameters(members[i + 1..], name, kinds)
  {
    MembersParametersAt(members, i, name, kinds);
    ConcatAssoc(ps, added, MembersParameters(members[i + 1..], name, kinds));
  }

  lemma MembersParametersAt(members: seq<Member>, i: nat, name: string, kinds: map<string, Kind>)
    requires i < |members|
    ensures MembersParameters(members[i..], name, kinds)
            == MemberParameters(members[i], name, kinds) + MembersParameters(members[i + 1..], name, kinds)
  {
    assert members[i..][1..] == members[i + 1..];
  }

  /** The number of parameters at a location. */
  function CountAt(ps: seq<Parameter>, location: string): (n: nat)
    ensures n <= |ps|
  {
    if ps == [] then 0
    else (if ps[0].location == location then 1 else 0) + CountAt(ps[1..], location)
  }

  lemma {:induction false} CountAtAppend(a: seq<Parameter>, b: seq<Parameter>, location: string)
    ensures CountAt(a + b, location) == CountAt(a, location) + CountAt(b, location)
    decreases |a|
  {
    if a == [] {
      assert a + b == b;
    } else {
      assert (a + b)[1..] == a[1..] + b;
      CountAtAppend(a[1..], b, location);
    }
  }

  /** The members whose raw tag holds "json" but not "path". */
  function BodyMembers(members: seq<Member>): (n: nat)
    ensures n <= |members|
  {
    if members == [] then 0
    else (if Contains(members[0].tag, "json") && !Contains(members[0].tag, "path") then 1 else 0)
         + BodyMembers(members[1..])
  }

  /** A struct with k json-tagged members (none also tagged `path`) yields k body
    * parameters when it has a name, and none when its name is empty. */
  lemma {:induction false} BodyParameterCount(members: seq<Member>, reqName: string, kinds: map<string, Kind>)
    ensures CountAt(MembersParameters(members, reqName, kinds), "body")
            == if |reqName| > 0 then BodyMembers(members) else 0
    decreases |members|
  {
    if members != [] {
      var head, tail := MemberParameters(members[0], reqName, kinds), MembersParameters(members[1..], reqName, kinds);
      BodyParameterCount(members[1..], reqName, kinds);
      MemberBodyCount(members[0], reqName, kinds);
      CountAtAppend(head, tail, "body");
      assert MembersParameters(members, reqName, kinds) == head + tail;
    }
  }

  lemma MemberBodyCount(m: Member, reqName: string, kinds: map<string, Kind>)
    ensures CountAt(MemberParameters(m, reqName, kinds), "body")
            == if Contains(m.tag, "json") && !Contains(m.tag, "path") && |reqName| > 0 then 1 else 0
  {
    ContributionsBodyCount(Contains(m.tag, "path"), Contains(m.tag, "form"), Contains(m.tag, "header"),
                           Contains(m.tag, "json") && |reqName| > 0,
                           LocatedParameter(m, "query", kinds), LocatedParameter(m, "header", kinds), BodyParameter(reqName));
  }

  lemma ContributionsBodyCount(path: bool, form: bool, header: bool, json: bool, q: Parameter, h: Parameter, b: Parameter)
    requires q.location != "body" && h.location != "body" && b.location == "body"
    ensures CountAt(Contributions(path, form, header, json, q, h, b), "body") == if json && !path then 1 else 0
  {
    if !path {
      var qs, hs, bs := if form then [q] else [], if header then [h] else [], if json then [b] else [];
      CountAtAppend(qs, hs, "body");
      CountAtAppend(qs + hs, bs, "body");
      assert CountAt(qs, "body") == 0;
      assert CountAt(hs, "body") == 0;
      assert CountAt(bs, "body") == if json then 1 else 0;
    }
  }

  /** Every member parameter is in the query, in a header or in the body. */
  lemma {:induction false} MemberParameterLocations(members: seq<Member>, reqName: string, kinds: map<string, Kind>)
    ensures forall p :: p in MembersParameters(members, reqName, kinds) ==>
              p.location == "query" || p.location == "header" || p.location == "body"
    decreases |members|
  {
    if members != [] {
      MemberParameterLocations(members[1..], reqName, kinds);
      MemberLocations(members[0], reqName, kinds);
      var a, b := MemberParameters(members[0], reqName, kinds), MembersParameters(members[1..], reqName, kinds);
      assert MembersParameters(members, reqName, kinds) == a + b;
    }
  }

  lemma MemberLocations(m: Member, reqName: string, kinds: map<string, Kind>)
    ensures forall p :: p in MemberParameters(m, reqName, kinds) ==>
              p.location == "query" || p.location == "header" || p.location == "body"
  {
    ContributionsLocations(Contains(m.tag, "path"), Contains(m.tag, "form"), Contains(m.tag, "header"),
                           Contains(m.tag, "json") && |reqName| > 0,
                           LocatedParameter(m, "query", kinds), LocatedParameter(m, "header", kinds), BodyParameter(reqName));
  }

  lemma ContributionsLocations(path: bool, form: bool, header: bool, json: bool, q: Parameter, h: Parameter, b: Parameter)
    requires q.location == "query" && h.location == "header" && b.location == "body"
    ensures forall p :: p in Contributions(path, form, header, json, q, h, b) ==>
              p.location == "query" || p.location == "header" || p.location == "body"
  {
  }
}
