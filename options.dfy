/**
 * The tag-option rules shared by query/header parameters, field schemas and
 * definitions: which option supplies the default value, and which options make
 * a parameter or a property required.
 */
module TagOptions {
  import opened Wrappers
  import opened GoStrings
  import opened ApiSpec

  /** What a single option contributes as a default: an option starting with
    * "default" whose split on '=' has exactly two parts gives the second part. */
  function OptionDefault(option: string): Option<string>
  {
    if HasPrefix(option, "default") then
      var segs := Split(option, '=');
      if |segs| == 2 then Some(segs[1]) else None
    else None
  }

  /** The options of all tags, tag after tag. */
  function AllOptions(tags: seq<Tag>): seq<string>
    decreases |tags|
  {
    if tags == [] then [] else AllOptions(tags[..|tags| - 1]) + tags[|tags| - 1].options
  }

  /** The default of the last option that supplies one: later options win. */
  function LastDefault(opts: seq<string>): Option<string>
    decreases |opts|
  {
    if opts == [] then None
    else if OptionDefault(opts[|opts| - 1]).Some? then OptionDefault(opts[|opts| - 1])
    else LastDefault(opts[..|opts| - 1])
  }

  /** The value the option loops leave in a `Default` field that starts empty. */
  function DefaultOf(tags: seq<Tag>): string {
    LastDefault(AllOptions(tags)).GetOr("")
  }

  /** No option from index `lo` on supplies a default. */
  predicate NoDefaultFrom(opts: seq<string>, lo: nat) {
    forall k :: lo <= k < |opts| ==> OptionDefault(opts[k]).None?
  }

  /** LastDefault is None exactly when no option supplies a default; otherwise it
    * is what the last supplying option gives. */
  lemma {:induction false} LastDefaultWins(opts: seq<string>)
    ensures LastDefault(opts).None? <==> NoDefaultFrom(opts, 0)
    ensures LastDefault(opts).Some? ==>
              exists k :: 0 <= k < |opts| && OptionDefault(opts[k]) == LastDefault(opts) && NoDefaultFrom(opts, k + 1)
    decreases |opts|
  {
    if opts != [] {
      var init := opts[..|opts| - 1];
      LastDefaultWins(init);
      assert forall k :: 0 <= k < |init| ==> init[k] == opts[k];
    }
  }

  /** A tag the options loops visit: every option of the tag is one of AllOptions. */
  lemma {:induction false} AllOptionsMembers(tags: seq<Tag>, o: string)
    ensures o in AllOptions(tags) <==> exists i :: 0 <= i < |tags| && o in tags[i].options
    decreases |tags|
  {
    if tags != [] {
      var init, last := tags[..|tags| - 1], tags[|tags| - 1];
      AllOptionsMembers(init, o);
      if o in AllOptions(tags) && o !in last.options {
        var i :| 0 <= i < |init| && o in init[i].options;
        assert tags[i] == init[i];
      }
      if exists i :: 0 <= i < |tags| && o in tags[i].options {
        var i :| 0 <= i < |tags| && o in tags[i].options;
        if i < |tags| - 1 {
          assert init[i] == tags[i];
        }
      }
    }
  }

  /** One more option: it wins if it supplies a default. */
  lemma LastDefaultSnoc(opts: seq<string>, o: string)
    ensures LastDefault(opts + [o]) ==
            if OptionDefault(o).Some? then OptionDefault(o) else LastDefault(opts)
  {
    assert (opts + [o])[..|opts|] == opts;
  }

  /** The option loops one option further: option `j` wins if it supplies a default. */
  lemma LastDefaultStep(seen: seq<string>, opts: seq<string>, j: nat)
    requires j < |opts|
    ensures LastDefault(seen + opts[..j + 1]) ==
            if OptionDefault(opts[j]).Some? then OptionDefault(opts[j]) else LastDefault(seen + opts[..j])
  {
    LastDefaultSnoc(seen + opts[..j], opts[j]);
    assert seen + opts[..j + 1] == (seen + opts[..j]) + [opts[j]] by {
      assert opts[..j + 1] == opts[..j] + [opts[j]];
    }
  }

  /** One more tag: its options come last. */
  lemma AllOptionsSnoc(tags: seq<Tag>, i: nat)
    requires i < |tags|
    ensures AllOptions(tags[..i + 1]) == AllOptions(tags[..i]) + tags[i].options
  {
    assert tags[..i + 1][..i] == tags[..i];
  }

  /** A query/header parameter option that makes the parameter required: one
    * that starts neither with "default" nor with "optional". */
  predicate OptionForcesRequired(option: string) {
    !HasPrefix(option, "default") && !HasPrefix(option, "optional")
  }

  /** A tag without options, or with an option that forces required. */
  predicate TagForcesRequired(tag: Tag) {
    |tag.options| == 0 || exists j :: 0 <= j < |tag.options| && OptionForcesRequired(tag.options[j])
  }

  /** A query/header parameter is required when any of its tags forces it. */
  predicate ForcesRequired(tags: seq<Tag>) {
    exists i :: 0 <= i < |tags| && TagForcesRequired(tags[i])
  }

  lemma ForcesRequiredSnoc(tags: seq<Tag>, i: nat)
    requires i < |tags|
    ensures ForcesRequired(tags[..i + 1]) <==> ForcesRequired(tags[..i]) || TagForcesRequired(tags[i])
  {
    var pre, pre' := tags[..i], tags[..i + 1];
    assert pre'[i] == tags[i];
    if ForcesRequired(pre) {
      var k :| 0 <= k < |pre| && TagForcesRequired(pre[k]);
      assert pre'[k] == pre[k];
    }
    if ForcesRequired(pre') {
      var k :| 0 <= k < |pre'| && TagForcesRequired(pre'[k]);
      if k < i {
        assert pre[k] == pre'[k];
      }
    }
  }

  /** A definition option that makes the property required: one that does not
    * start with "optional" (so `default=...` alone does). */
  predicate OptionRequiresProperty(option: string) {
    !HasPrefix(option, "optional")
  }

  /** The parameter name the tag loop leaves behind: the last tag's name. */
  function TagName(tags: seq<Tag>): (name: string)
    ensures tags == [] ==> name == ""
    ensures tags != [] ==> name == tags[|tags| - 1].name
  {
    if tags == [] then "" else tags[|tags| - 1].name
  }

  /** Splitting "a=b" on '=' when neither side holds one. */
  lemma SplitPair(a: string, b: string)
    requires '=' !in a && '=' !in b
    ensures Split(a + "=" + b, '=') == [a, b]
  {
    SplitJoin([a, b], '=');
    assert Join([a, b], '=') == a + "=" + b;
  }

  /** The option "optional" supplies no default and does not force required. */
  lemma OptionalOption()
    ensures OptionDefault("optional") == None
    ensures !OptionForcesRequired("optional")
  {
    assert "optional"[0] != "default"[0];
  }

  /** An option "default=v", with no '=' in v, supplies v and does not force
    * required. */
  lemma DefaultOption(v: string)
    requires '=' !in v
    ensures OptionDefault("default=" + v) == Some(v)
    ensures !OptionForcesRequired("default=" + v)
  {
    var o := "default=" + v;
    assert o == "default" + "=" + v;
    assert o[..7] == "default";
    assert '=' !in "default";
    SplitPair("default", v);
  }

  /** The option "default=18" supplies "18" and does not force required. */
  lemma Default18Option()
    ensures OptionDefault("default=18") == Some("18")
    ensures !OptionForcesRequired("default=18")
  {
    DefaultOption("18");
    assert "default=" + "18" == "default=18";
  }

  /** The tag `age,optional,default=18`: an optional parameter defaulting to 18. */
  lemma AgeOptionalDefault(tag: Tag)
    requires tag == Tag("age", ["optional", "default=18"])
    ensures DefaultOf([tag]) == "18"
    ensures !ForcesRequired([tag])
  {
    OptionalOption();
    Default18Option();
    TwoOptionTag(tag, "optional", "default=18", "18");
  }

  /** A single tag with two options, neither forcing required, the second one
    * supplying a default. */
  lemma TwoOptionTag(tag: Tag, o1: string, o2: string, d: string)
    requires tag.options == [o1, o2]
    requires !OptionForcesRequired(o1) && !OptionForcesRequired(o2)
    requires OptionDefault(o2) == Some(d)
    ensures DefaultOf([tag]) == d
    ensures !ForcesRequired([tag])
  {
    assert [tag][..0] == [];
    assert AllOptions([tag]) == [o1, o2];
    assert [o1, o2][..1] == [o1];
    assert LastDefault([o1, o2]) == Some(d);
    assert !TagForcesRequired(tag);
    assert !ForcesRequired([tag]);
  }

  /** An option with a second '=' supplies no default. */
  lemma TwoEqualsNoDefault()
    ensures OptionDefault("default=a=b") == None
  {
    SplitJoin(["default", "a", "b"], '=');
    assert Join(["default", "a", "b"], '=') == "default=a=b";
  }
}
