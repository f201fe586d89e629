/**
 * The schema of one struct field (schemaOfField): a `$ref` to another
 * definition, an array of such refs, an array of primitives or a primitive.
 */
module Fields {
  import opened Wrappers
  import opened GoStrings
  import opened ApiSpec
  import opened Swagger
  import opened Kinds
  import opened TagOptions

  /** The referenced type of a field whose type the kind table does not know:
    * the name with its first '[', its first ']' and its first '*' removed. */
  function RefTypeName(t: string): string {
    ReplaceFirst(ReplaceFirst(ReplaceFirst(t, "[", ""), "]", ""), "*", "")
  }

  /** The schema core of the first switch of schemaOfField. */
  function FieldCore(kind: Kind, t: string, kinds: map<string, Kind>): SchemaCore {
    match kind
    case Invalid => EmptyCore.(ref := DefinitionsPrefix + RefTypeName(t))
    case Slice =>
      var prim := PrimitiveSchema(LookupKind(kinds, ReplaceAll(t, "[]", "")), t);
      if prim.2 then SchemaCore(prim.0, prim.1, "", None)
      else SchemaCore(KindName(Slice), "UNKNOWN", "", None)
    case _ =>
      var tf := TypeFormat(kind, t);
      SchemaCore(tf.0, tf.1, "", None)
  }

  /** The second switch: slices, and unknown types written `[]...`, are arrays. */
  predicate IsArrayField(kind: Kind, t: string) {
    kind == Slice || (kind == Invalid && HasPrefix(t, "[]"))
  }

  function ArrayOf(items: SchemaCore): SchemaCore {
    SchemaCore("array", "", "", Some(items))
  }

  /** The shape of a member's schema: its core, wrapped as an array's items
    * for array fields. */
  function FieldShape(kind: Kind, t: string, kinds: map<string, Kind>): SchemaCore {
    var core := FieldCore(kind, t, kinds);
    if IsArrayField(kind, t) then ArrayOf(core) else core
  }

  /** The schema of a member: the shape, the comment with every "//" removed as
    * the description, and the last two-part default option as the default. */
  function FieldSchema(m: Member, kinds: map<string, Kind>): Schema {
    Schema(FieldShape(LookupKind(kinds, m.typeName), m.typeName, kinds), None, [], "", ReplaceAll(m.getComment, "//", ""), DefaultOf(m.tags))
  }

  /** schemaOfField: the two switches, then the tag and option loops for the
    * default. */
  method SchemaOfField(m: Member, kinds: map<string, Kind>) returns (ret: Schema)
    ensures ret == FieldSchema(m, kinds)
  {
    var kind := LookupKind(kinds, m.typeName);
    var comment := ReplaceAll(m.getComment, "//", "");
    var core := RenderFieldCore(kind, m.typeName, kinds);
    if kind == Slice || (kind == Invalid && HasPrefix(m.typeName, "[]")) {
      ret := Schema(SchemaCore("array", "", "", Some(core)), None, [], "", "", "");
    } else {
      ret := Schema(core, None, [], "", "", "");
    }
    ret := ret.(description := comment);
    ret := ScanTags(ret, m.tags);
  }

  /** The first switch of schemaOfField. */
  method RenderFieldCore(kind: Kind, t: string, kinds: map<string, Kind>) returns (core: SchemaCore)
    ensures core == FieldCore(kind, t, kinds)
  {
    if kind == Invalid {
      var refTypeName := ReplaceFirst(t, "[", "");
      refTypeName := ReplaceFirst(refTypeName, "]", "");
      refTypeName := ReplaceFirst(refTypeName, "*", "");
      core := SchemaCore("", "", DefinitionsPrefix + refTypeName, None);
    } else if kind == Slice {
      var tempKind := LookupKind(kinds, ReplaceAll(t, "[]", ""));
      var prim := PrimitiveSchema(tempKind, t);
      if prim.2 {
        core := SchemaCore(prim.0, prim.1, "", None);
      } else {
        core := SchemaCore(KindName(kind), "UNKNOWN", "", None);
      }
    } else {
      var prim := PrimitiveSchema(kind, t);
      if prim.2 {
        core := SchemaCore(prim.0, prim.1, "", None);
      } else {
        core := SchemaCore(KindName(kind), "UNKNOWN", "", None);
      }
    }
  }

  /** The tag loop of schemaOfField: the last two-part default option of all
    * tags becomes the default. */
  method ScanTags(ret0: Schema, tags: seq<Tag>) returns (ret: Schema)
    requires ret0.defaultValue == ""
    ensures ret == ret0.(defaultValue := DefaultOf(tags))
  {
    ret := ret0;
    var i := 0;
    while i < |tags|
      invariant 0 <= i <= |tags|
      invariant ret == ret0.(defaultValue := DefaultOf(tags[..i]))
    {
      var tag := tags[i];
      AllOptionsSnoc(tags, i);
      var seen := AllOptions(tags[..i]);
      if |tag.options| == 0 {
        assert seen + tag.options == seen;
      } else {
        ret := ScanDefaults(ret, seen, tag.options);
      }
      i := i + 1;
    }
    assert tags[..i] == tags;
  }

  /** The option loop of one tag: a default option with two parts sets the
    * default; `seen` are the options of the earlier tags. */
  method ScanDefaults(ret0: Schema, seen: seq<string>, opts: seq<string>) returns (ret: Schema)
    requires ret0.defaultValue == LastDefault(seen).GetOr("")
    ensures ret == ret0.(defaultValue := LastDefault(seen + opts).GetOr(""))
  {
    ret := ret0;
    var j := 0;
    assert seen + opts[..0] == seen;
    while j < |opts|
      invariant 0 <= j <= |opts|
      invariant ret == ret0.(defaultValue := LastDefault(seen + opts[..j]).GetOr(""))
    {
      var option := opts[j];
      LastDefaultStep(seen, opts, j);
      if HasPrefix(option, "default") {
        var segs := Split(option, '=');
        if |segs| == 2 {
          ret := ret.(defaultValue := segs[1]);
        }
      }
      j := j + 1;
    }
    assert opts[..j] == opts;
  }

  /** A field whose type `n` (free of '[', ']' and '*') the kind table does not
    * know refers to the definition of `n`, written as `n`, `*n`, `[]n` or
    * `[]*n`; it is an array of that ref exactly when written with `[]`. */
  lemma StructFieldRef(t: string, kinds: map<string, Kind>, n: string, prefix: string)
    requires prefix in {"", "*", "[]", "[]*"}
    requires '[' !in n && ']' !in n && '*' !in n
    requires t == prefix + n
    ensures var ref := EmptyCore.(ref := DefinitionsPrefix + n);
            FieldShape(Invalid, t, kinds) == if prefix == "[]" || prefix == "[]*" then ArrayOf(ref) else ref
  {
    if prefix == "" {
      assert t == n;
      BareRef(n, kinds);
    } else if prefix == "*" {
      assert t == "*" + n;
      PointerRef(n, kinds);
    } else if prefix == "[]" {
      assert t == "[]" + n;
      SliceRef(n, kinds);
    } else {
      assert t == "[]*" + n;
      SliceOfPointerRef(n, kinds);
    }
  }

  lemma BareRef(n: string, kinds: map<string, Kind>)
    requires '[' !in n && ']' !in n && '*' !in n
    ensures FieldShape(Invalid, n, kinds) == EmptyCore.(ref := DefinitionsPrefix + n)
  {
    RefTypeNameBare(n);
    assert !HasPrefix(n, "[]") by {
      if |n| > 0 {
        assert n[0] in n;
      }
    }
  }

  lemma PointerRef(n: string, kinds: map<string, Kind>)
    requires '[' !in n && ']' !in n && '*' !in n
    ensures FieldShape(Invalid, "*" + n, kinds) == EmptyCore.(ref := DefinitionsPrefix + n)
  {
    RefTypeNamePointer(n);
    assert ("*" + n)[0] == '*';
  }

  lemma SliceRef(n: string, kinds: map<string, Kind>)
    requires '[' !in n && ']' !in n && '*' !in n
    ensures FieldShape(Invalid, "[]" + n, kinds) == ArrayOf(EmptyCore.(ref := DefinitionsPrefix + n))
  {
    RefTypeNameSlice(n);
    assert ("[]" + n)[..2] == "[]";
  }

  lemma SliceOfPointerRef(n: string, kinds: map<string, Kind>)
    requires '[' !in n && ']' !in n && '*' !in n
    ensures FieldShape(Invalid, "[]*" + n, kinds) == ArrayOf(EmptyCore.(ref := DefinitionsPrefix + n))
  {
    RefTypeNameSliceOfPointer(n);
    assert ("[]*" + n)[..2] == "[]";
  }

  lemma RefTypeNameBare(n: string)
    requires '[' !in n && ']' !in n && '*' !in n
    ensures RefTypeName(n) == n
  {
    ReplaceFirstAbsent(n, '[', "");
    ReplaceFirstAbsent(n, ']', "");
    ReplaceFirstAbsent(n, '*', "");
    RefTypeNameSteps(n, n, n, n);
  }

  lemma RefTypeNamePointer(n: string)
    requires '[' !in n && ']' !in n && '*' !in n
    ensures RefTypeName("*" + n) == n
  {
    var t := "*" + n;
    assert t == ['*'] + n;
    ReplaceFirstAbsent(t, '[', "");
    ReplaceFirstAbsent(t, ']', "");
    RemoveFirstRune('*', n);
    RefTypeNameSteps(t, t, t, n);
  }

  lemma RefTypeNameSlice(n: string)
    requires '[' !in n && ']' !in n && '*' !in n
    ensures RefTypeName("[]" + n) == n
  {
    var t0, t1 := "[]" + n, "]" + n;
    assert t0 == ['['] + t1 && t1 == [']'] + n;
    RemoveFirstRune('[', t1);
    RemoveFirstRune(']', n);
    ReplaceFirstAbsent(n, '*', "");
    RefTypeNameSteps(t0, t1, n, n);
  }

  lemma RefTypeNameSliceOfPointer(n: string)
    requires '[' !in n && ']' !in n && '*' !in n
    ensures RefTypeName("[]*" + n) == n
  {
    var t0, t1, t2 := "[]*" + n, "]*" + n, "*" + n;
    assert t0 == ['['] + t1 && t1 == [']'] + t2 && t2 == ['*'] + n;
    RemoveFirstRune('[', t1);
    RemoveFirstRune(']', t2);
    RemoveFirstRune('*', n);
    RefTypeNameSteps(t0, t1, t2, n);
  }

  /** RefTypeName through its three replacements, one at a time. */
  lemma RefTypeNameSteps(t0: string, t1: string, t2: string, n: string)
    requires ReplaceFirst(t0, "[", "") == t1
    requires ReplaceFirst(t1, "]", "") == t2
    requires ReplaceFirst(t2, "*", "") == n
    ensures RefTypeName(t0) == n
  {
    assert RefTypeName(t0) == ReplaceFirst(ReplaceFirst(t1, "]", ""), "*", "");
  }

  /** Removing the first occurrence of a rune that leads the string drops it. */
  lemma RemoveFirstRune(c: char, rest: string)
    ensures ReplaceFirst([c] + rest, [c], "") == rest
  {
    IndexOfRune([c] + rest, c);
    assert ([c] + rest)[1..] == rest;
  }

  /** A slice field is an array whose items come from the primitive table applied
    * to the element kind; when the table fails the items are ("slice",
    * "UNKNOWN"), whatever the element kind is. */
  lemma SliceFieldItems(m: Member, kinds: map<string, Kind>)
    requires LookupKind(kinds, m.typeName) == Slice
    ensures var elem := LookupKind(kinds, ReplaceAll(m.typeName, "[]", ""));
            var items := FieldSchema(m, kinds).core.items;
            FieldSchema(m, kinds).core.typ == "array"
            && items.Some?
            && (IsPrimitiveKind(elem) ==>
                  items.value == SchemaCore(PrimitiveSchema(elem, m.typeName).0, PrimitiveSchema(elem, m.typeName).1, "", None))
            && (!IsPrimitiveKind(elem) ==> items.value == SchemaCore("slice", "UNKNOWN", "", None))
  {
  }

  /** The second switch: a schema has items exactly when the field is an array
    * (a slice, or an unknown type written with a leading "[]"), and then they are
    * the core of the first switch under type "array"; any other field keeps that
    * core as it is. The core itself never has items. */
  lemma FieldShapeItems(kind: Kind, t: string, kinds: map<string, Kind>)
    ensures FieldCore(kind, t, kinds).items.None?
    ensures FieldShape(kind, t, kinds).items.Some? <==> kind == Slice || (kind == Invalid && HasPrefix(t, "[]"))
    ensures FieldShape(kind, t, kinds).items.Some? ==>
              FieldShape(kind, t, kinds) == SchemaCore("array", "", "", Some(FieldCore(kind, t, kinds)))
    ensures FieldShape(kind, t, kinds).items.None? ==> FieldShape(kind, t, kinds) == FieldCore(kind, t, kinds)
  {
  }
}
