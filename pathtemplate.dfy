/**
 * Path templates: the `:name` segments of a route path become `{name}` and one
 * path parameter each (the first loop of renderServiceRoutes, and countParams).
 */
module PathTemplate {
  import opened Wrappers
  import opened GoStrings
  import opened Swagger

  /** countParams: the number of ':' in the path, converted to Go's uint16, so a
    * count of 65536 or more wraps around. */
  function CountParams(path: string): (n: nat)
    ensures n < 0x1_0000
    ensures n > 0 ==> ':' in path
    ensures ':' !in path ==> n == 0
    ensures Count(path, ':') < 0x1_0000 ==> n == Count(path, ':')
  {
    Count(path, ':') % 0x1_0000
  }

  /** A segment is rewritten when it contains a ':' anywhere. */
  predicate IsParamSegment(seg: string) {
    Contains(seg, ":")
  }

  /** The parameter name: the segment with one leading ':' trimmed. */
  function SegmentKey(seg: string): string {
    TrimPrefix(seg, ":")
  }

  /** The parameter emitted for a path key. */
  function PathParameter(key: string): (p: Parameter)
    ensures p.name == key && p.location == "path" && p.required && p.typ == "string"
  {
    Parameter(key, "path", "string", "", true, "", "", None)
  }

  /** The loop body for one segment: when it holds a ':', the first occurrence of
    * ":key" in the path rewritten so far becomes "{key}". */
  function RewriteStep(path: string, seg: string): string {
    if IsParamSegment(seg) then
      var key := SegmentKey(seg);
      ReplaceFirst(path, ":" + key, "{" + key + "}")
    else path
  }

  /** The path after the loop has visited `segs` in order. */
  function RewriteSegments(path: string, segs: seq<string>): string
    decreases |segs|
  {
    if segs == [] then path else RewriteSegments(RewriteStep(path, segs[0]), segs[1..])
  }

  /** The segments that hold a ':', in order. */
  function ParamSegments(segs: seq<string>): (r: seq<string>)
    ensures |r| <= |segs|
    ensures forall i :: 0 <= i < |r| ==> IsParamSegment(r[i]) && r[i] in segs
  {
    if segs == [] then []
    else (if IsParamSegment(segs[0]) then [segs[0]] else []) + ParamSegments(segs[1..])
  }

  /** The parameters the loop appends for `segs`. */
  function SegmentParameters(segs: seq<string>): seq<Parameter> {
    if segs == [] then []
    else (if IsParamSegment(segs[0]) then [PathParameter(SegmentKey(segs[0]))] else [])
         + SegmentParameters(segs[1..])
  }

  /** The route path as it is used as a key of the paths map. */
  function RenderedPath(path: string): string {
    if CountParams(path) > 0 then RewriteSegments(path, Split(path, '/')) else path
  }

  /** The path parameters of a route, in segment order. */
  function PathParameters(path: string): seq<Parameter> {
    if CountParams(path) > 0 then SegmentParameters(Split(path, '/')) else []
  }

  /** The loop body for one segment: the rewritten path and the parameters it
    * appends. */
  method RenderSegment(rendered: string, part: string) returns (rendered': string, added: seq<Parameter>)
    ensures rendered' == RewriteStep(rendered, part)
    ensures added == if IsParamSegment(part) then [PathParameter(SegmentKey(part))] else []
  {
    rendered', added := rendered, [];
    if Contains(part, ":") {
      var key := TrimPrefix(part, ":");
      rendered' := ReplaceFirst(rendered, ":" + key, "{" + key + "}");
      added := [Parameter(key, "path", "string", "", true, "", "", None)];
    }
  }

  /** The loop over `segs[i..]` is one step on `segs[i]`, then the loop over
    * `segs[i + 1..]`. */
  lemma RenderSegmentsAt(path: string, segs: seq<string>, i: nat)
    requires i < |segs|
    ensures RewriteSegments(path, segs[i..]) == RewriteSegments(RewriteStep(path, segs[i]), segs[i + 1..])
    ensures SegmentParameters(segs[i..])
            == (if IsParamSegment(segs[i]) then [PathParameter(SegmentKey(segs[i]))] else [])
               + SegmentParameters(segs[i + 1..])
  {
    assert segs[i..][1..] == segs[i + 1..];
  }

  /** The segment loop: rewrites the path segment by segment and collects the
    * path parameters. */
  method RenderSegments(path: string, p: seq<string>) returns (rendered: string, parameters: seq<Parameter>)
    ensures rendered == RewriteSegments(path, p)
    ensures parameters == SegmentParameters(p)
  {
    rendered := path;
    parameters := [];
    var i := 0;
    while i < |p|
      invariant 0 <= i <= |p|
      invariant RewriteSegments(rendered, p[i..]) == RewriteSegments(path, p)
      invariant parameters + SegmentParameters(p[i..]) == SegmentParameters(p)
    {
      RenderSegmentsAt(rendered, p, i);
      var added;
      rendered, added := RenderSegment(rendered, p[i]);
      assert parameters + SegmentParameters(p[i..]) == (parameters + added) + SegmentParameters(p[i + 1..]);
      parameters := parameters + added;
      i := i + 1;
    }
    assert p[i..] == [];
  }

  /** The path-template step of renderServiceRoutes: only a path with a ':' is
    * split and rewritten. */
  method RenderPath(path: string) returns (rendered: string, parameters: seq<Parameter>)
    ensures rendered == RenderedPath(path)
    ensures parameters == PathParameters(path)
  {
    rendered := path;
    parameters := [];
    if CountParams(path) > 0 {
      var p := Split(path, '/');
      rendered, parameters := RenderSegments(path, p);
    }
  }

  /** One parameter per segment holding a ':', in segment order, each named by
    * its segment with one leading ':' trimmed. */
  lemma {:induction false} SegmentParametersInOrder(segs: seq<string>)
    ensures |SegmentParameters(segs)| == |ParamSegments(segs)|
    ensures forall j :: 0 <= j < |ParamSegments(segs)| ==>
              SegmentParameters(segs)[j] == PathParameter(SegmentKey(ParamSegments(segs)[j]))
  {
    if segs != [] {
      var x, rest := segs[0], segs[1..];
      SegmentParametersInOrder(rest);
      var ps, ss := SegmentParameters(rest), ParamSegments(rest);
      if IsParamSegment(x) {
        assert SegmentParameters(segs) == [PathParameter(SegmentKey(x))] + ps;
        assert ParamSegments(segs) == [x] + ss;
      } else {
        assert SegmentParameters(segs) == ps;
        assert ParamSegments(segs) == ss;
      }
    }
  }

  /** A path without ':' is its own key and has no path parameters. */
  lemma ColonFreePath(path: string)
    requires ':' !in path
    ensures RenderedPath(path) == path
    ensures PathParameters(path) == []
  {
  }

  /** A well-formed segment holds no ':' or exactly one, in front. */
  predicate WellFormedSegment(seg: string) {
    ':' in seg ==> seg[0] == ':' && ':' !in seg[1..]
  }

  /** A template whose colon segments all have the `:name` shape. */
  predicate WellFormedTemplate(path: string) {
    forall i :: 0 <= i < |Split(path, '/')| ==> WellFormedSegment(Split(path, '/')[i])
  }

  /** The intended rewrite of one segment: `:name` becomes `{name}`. */
  function BraceSegment(seg: string): (r: string)
    ensures WellFormedSegment(seg) ==> ':' !in r
  {
    if |seg| > 0 && seg[0] == ':' then "{" + seg[1..] + "}" else seg
  }

  function BraceSegments(segs: seq<string>): (r: seq<string>) {
    seq(|segs|, i requires 0 <= i < |segs| => BraceSegment(segs[i]))
  }

  /** The loop step on a well-formed segment preceded only by colon-free text
    * rewrites that very segment. */
  lemma RewriteStepAt(before: string, x: string, after: string)
    requires ':' !in before
    requires WellFormedSegment(x)
    ensures RewriteStep(before + x + after, x) == before + BraceSegment(x) + after
  {
    IndexOfRune(x, ':');
    if ':' in x {
      var name := x[1..];
      assert x == [':'] + name;
      assert SegmentKey(x) == name;
      assert ":" + name == [':'] + name;
      ReplaceFirstAfterFree(before, ':', name, after, "{" + name + "}");
    }
  }

  /** Generalisation of WellFormedRewrite: behind colon-free text, the loop over
    * the well-formed segments `segs` rewrites each of them in place. */
  lemma {:induction false} RewriteWellFormed(before: string, segs: seq<string>)
    requires |segs| >= 1
    requires ':' !in before
    requires forall i :: 0 <= i < |segs| ==> WellFormedSegment(segs[i])
    ensures RewriteSegments(before + Join(segs, '/'), segs) == before + Join(BraceSegments(segs), '/')
    decreases |segs|
  {
    var x, rest := segs[0], segs[1..];
    if rest == [] {
      calc {
        RewriteSegments(before + Join(segs, '/'), segs);
        RewriteSegments(RewriteStep(before + x, x), []);
        { assert before + x == before + x + [];
          RewriteStepAt(before, x, []); }
        before + BraceSegment(x) + [];
        { assert BraceSegments(segs) == [BraceSegment(x)]; }
        before + Join(BraceSegments(segs), '/');
      }
    } else {
      var before' := before + BraceSegment(x) + "/";
      var after := "/" + Join(rest, '/');
      assert forall i :: 0 <= i < |rest| ==> WellFormedSegment(rest[i]) by {
        assert forall i :: 0 <= i < |rest| ==> rest[i] == segs[i + 1];
      }
      RewriteWellFormed(before', rest);
      var start, next := before + Join(segs, '/'), before' + Join(rest, '/');
      JoinFirst(before, segs, '/');
      assert next == before + BraceSegment(x) + after;
      RewriteStepAt(before, x, after);
      assert RewriteSegments(start, segs) == RewriteSegments(next, rest);
      BracedJoin(before, segs);
    }
  }

  /** A join of two or more pieces behind `before`: the first piece, then the
    * separator and the join of the rest. */
  lemma JoinFirst(before: string, segs: seq<string>, sep: char)
    requires |segs| >= 2
    ensures before + Join(segs, sep) == before + segs[0] + ([sep] + Join(segs[1..], sep))
  {
    assert Join(segs, sep) == segs[0] + ([sep] + Join(segs[1..], sep));
  }

  lemma BracedJoin(before: string, segs: seq<string>)
    requires |segs| >= 2
    ensures before + BraceSegment(segs[0]) + "/" + Join(BraceSegments(segs[1..]), '/')
            == before + Join(BraceSegments(segs), '/')
  {
    assert BraceSegments(segs)[1..] == BraceSegments(segs[1..]);
  }

  /** Number of ':' in a join of well-formed segments: one per colon segment. */
  lemma {:induction false} ColonsOfWellFormed(segs: seq<string>)
    requires |segs| >= 1
    requires forall i :: 0 <= i < |segs| ==> WellFormedSegment(segs[i])
    ensures Count(Join(segs, '/'), ':') == |ParamSegments(segs)|
    decreases |segs|
  {
    var x := segs[0];
    IndexOfRune(x, ':');
    assert Count(x, ':') == (if ':' in x then 1 else 0) by {
      if ':' in x {
        assert x == [':'] + x[1..];
      }
    }
    if |segs| > 1 {
      ColonsOfWellFormed(segs[1..]);
      CountAppend(x + "/", Join(segs[1..], '/'), ':');
      CountAppend(x, "/", ':');
      assert x + [ '/' ] + Join(segs[1..], '/') == (x + "/") + Join(segs[1..], '/');
    }
  }

  /** For a template made of `:name` segments, every `:name` becomes `{name}` in
    * place, and there is one string-typed required path parameter per ':' in the
    * path (while the uint16 count does not wrap), named after its segment. */
  lemma WellFormedRewrite(path: string)
    requires WellFormedTemplate(path)
    requires CountParams(path) > 0
    ensures RenderedPath(path) == Join(BraceSegments(Split(path, '/')), '/')
    ensures Count(path, ':') < 0x1_0000 ==> |PathParameters(path)| == Count(path, ':')
    ensures |PathParameters(path)| == |ParamSegments(Split(path, '/'))|
    ensures forall j :: 0 <= j < |PathParameters(path)| ==>
              ":" + PathParameters(path)[j].name == ParamSegments(Split(path, '/'))[j]
  {
    var segs := Split(path, '/');
    JoinSplit(path, '/');
    RewriteWellFormed([], segs);
    assert [] + path == path;
    assert [] + Join(BraceSegments(segs), '/') == Join(BraceSegments(segs), '/');
    ColonsOfWellFormed(segs);
    SegmentParametersInOrder(segs);
    forall j | 0 <= j < |PathParameters(path)|
      ensures ":" + PathParameters(path)[j].name == ParamSegments(segs)[j]
    {
      var seg := ParamSegments(segs)[j];
      IndexOfRune(seg, ':');
      assert seg in segs;
      assert WellFormedSegment(seg);
      assert HasPrefix(seg, ":");
    }
  }
}
