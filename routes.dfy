/**
 * The paths section (renderServiceRoutes): one operation per route, stored in
 * the path item of the route's rewritten path under the slot of its method.
 */
module Routes {
  import opened Wrappers
  import opened GoStrings
  import opened ApiSpec
  import opened Swagger
  import opened Kinds
  import opened PathTemplate
  import opened Parameters

  const SuccessDescription := "A successful response."

  /** The reference of the "200" response: the response type's definition when
    * there is a response type with a non-empty name, and "" otherwise. */
  function ResponseRef(resp: Option<ApiType>): (ref: string)
    ensures ref == "" <==> resp.None? || resp.value.Name() == ""
    ensures ref != "" ==> ref == DefinitionsPrefix + resp.value.Name()
  {
    if resp.Some? && |resp.value.Name()| > 0 then DefinitionsPrefix + resp.value.Name() else ""
  }

  /** The operation's tag: the group's "group" annotation, or the service name
    * when that annotation is missing or empty. */
  function OperationTag(service: Service, group: Group): string {
    var value := GetAnnotation(group, "group");
    if |value| > 0 then value else service.name
  }

  /** strconv.Unquote, with a failure read as "". */
  function UnquoteOrEmpty(unquote: string -> Option<string>, s: string): string {
    unquote(s).GetOr("")
  }

  /** The description: the unquoted @doc "description" property, set only when
    * the route has @doc properties at all. */
  function OperationDescription(route: Route, unquote: string -> Option<string>): string {
    if |route.atDocProperties| > 0 then UnquoteOrEmpty(unquote, Lookup(route.atDocProperties, "description"))
    else ""
  }

  /** The operation of a route. */
  function RouteOperation(service: Service, group: Group, route: Route, kinds: map<string, Kind>,
                          unquote: string -> Option<string>): Operation {
    Operation(
      [OperationTag(service, group)],
      PathParameters(route.path) + RequestParameters(route.requestType, kinds),
      map["200" := Response(SuccessDescription, RefSchema(ResponseRef(route.responseType)))],
      route.handler,
      route.joinedDoc,
      OperationDescription(route, unquote))
  }

  /** The operation has one tag, exactly one response, "200", whose schema holds
    * only the response reference, and the handler as its id. */
  lemma OperationShape(service: Service, group: Group, route: Route, kinds: map<string, Kind>,
                       unquote: string -> Option<string>)
    ensures var op := RouteOperation(service, group, route, kinds, unquote);
            && op.tags == [if GetAnnotation(group, "group") != "" then GetAnnotation(group, "group") else service.name]
            && op.responses.Keys == {"200"}
            && op.responses["200"].description == "A successful response."
            && op.responses["200"].schema == RefSchema(ResponseRef(route.responseType))
            && op.operationId == route.handler
            && op.summary == route.joinedDoc
  {
  }

  /** The path parameters come first, and only they are in the path. */
  lemma PathParametersFirst(service: Service, group: Group, route: Route,
                            kinds: map<string, Kind>, unquote: string -> Option<string>)
    ensures var ps := RouteOperation(service, group, route, kinds, unquote).parameters;
            var n := |PathParameters(route.path)|;
            n <= |ps| && ps[..n] == PathParameters(route.path)
            && (forall i :: 0 <= i < n ==> ps[i].location == "path")
            && (forall i :: n <= i < |ps| ==> ps[i].location != "path")
  {
    var pp, rp := PathParameters(route.path), RequestParameters(route.requestType, kinds);
    PathParametersAtPath(route.path);
    if route.requestType.Some? && route.requestType.value.DefineStruct? {
      MemberParameterLocations(route.requestType.value.members, route.requestType.value.rawName, kinds);
    }
    LocationsSplit(pp, rp);
  }

  /** A list of path parameters followed by a list without one. */
  lemma LocationsSplit(pp: seq<Parameter>, rp: seq<Parameter>)
    requires forall p :: p in pp ==> p.location == "path"
    requires forall p :: p in rp ==> p.location != "path"
    ensures var ps := pp + rp;
            |pp| <= |ps| && ps[..|pp|] == pp
            && (forall i :: 0 <= i < |pp| ==> ps[i].location == "path")
            && (forall i :: |pp| <= i < |ps| ==> ps[i].location != "path")
  {
    var ps := pp + rp;
    assert ps[..|pp|] == pp;
    assert forall i :: 0 <= i < |pp| ==> ps[i] == pp[i];
    assert forall i :: |pp| <= i < |ps| ==> ps[i] == rp[i - |pp|];
  }

  lemma PathParametersAtPath(path: string)
    ensures forall p :: p in PathParameters(path) ==> p.location == "path"
  {
    if CountParams(path) > 0 {
      SegmentParametersAtPath(Split(path, '/'));
    }
  }

  lemma {:induction false} SegmentParametersAtPath(segs: seq<string>)
    ensures forall p :: p in SegmentParameters(segs) ==> p.location == "path"
    decreases |segs|
  {
    if segs != [] {
      SegmentParametersAtPath(segs[1..]);
    }
  }

  /** The body of the route loop up to the path item: the rewritten path and the
    * operation. */
  method RenderRoute(service: Service, group: Group, route: Route, kinds: map<string, Kind>,
                     unquote: string -> Option<string>)
    returns (path: string, op: Operation)
    ensures path == RenderedPath(route.path)
    ensures op == RouteOperation(service, group, route, kinds, unquote)
  {
    var parameters;
    path, parameters := RenderPath(route.path);
    parameters := AppendRequestParameters(parameters, route.requestType, kinds);
    var respRef := "";
    if route.responseType.Some? && |route.responseType.value.Name()| > 0 {
      respRef := DefinitionsPrefix + route.responseType.value.Name();
    }
    var tags := service.name;
    var value := GetAnnotation(group, "group");
    if |value| > 0 {
      tags := value;
    }
    op := Operation([tags], parameters, map["200" := Response(SuccessDescription, RefSchema(respRef))],
                    "", "", "");
    op := op.(operationId := route.handler);
    op := op.(summary := route.joinedDoc);
    if |route.atDocProperties| > 0 {
      op := op.(description := UnquoteOrEmpty(unquote, Lookup(route.atDocProperties, "description")));
    }
  }

  /** The methods a path item has a slot for. */
  datatype HttpMethod = Get | Post | Delete | Put

  function MethodName(h: HttpMethod): string {
    match h
    case Get => "GET"
    case Post => "POST"
    case Delete => "DELETE"
    case Put => "PUT"
  }

  /** The slot the switch on the upper-cased method selects, if any. */
  function MethodSlot(verb: string): (slot: Option<HttpMethod>)
    ensures slot.Some? ==> MethodName(slot.value) == ToUpper(verb)
    ensures slot.None? ==> forall h :: MethodName(h) != ToUpper(verb)
  {
    var u := ToUpper(verb);
    if u == "GET" then Some(Get)
    else if u == "POST" then Some(Post)
    else if u == "DELETE" then Some(Delete)
    else if u == "PUT" then Some(Put)
    else None
  }

  /** The operation a path item holds in a slot. */
  function Slot(item: PathItem, h: HttpMethod): Option<Operation> {
    match h
    case Get => item.get
    case Post => item.post
    case Delete => item.delete
    case Put => item.put
  }

  /** The switch: the selected slot gets the operation, every other slot is kept;
    * an unsupported method keeps the item as it is. */
  function WithOperation(item: PathItem, slot: Option<HttpMethod>, op: Operation): (r: PathItem)
    ensures slot.None? ==> r == item
    ensures slot.Some? ==> Slot(r, slot.value) == Some(op)
    ensures forall h :: Some(h) != slot ==> Slot(r, h) == Slot(item, h)
  {
    match slot
    case None => item
    case Some(Get) => item.(get := Some(op))
    case Some(Post) => item.(post := Some(op))
    case Some(Delete) => item.(delete := Some(op))
    case Some(Put) => item.(put := Some(op))
  }

  /** What one route contributes to the paths map: the key, the slot and the
    * operation. */
  datatype RouteEntry = RouteEntry(key: string, slot: Option<HttpMethod>, op: Operation)

  function RouteEntryOf(service: Service, group: Group, route: Route, kinds: map<string, Kind>,
                        unquote: string -> Option<string>): RouteEntry {
    RouteEntry(RenderedPath(route.path), MethodSlot(route.verb), RouteOperation(service, group, route, kinds, unquote))
  }

  /** The entries of a group's routes, in route order. */
  function RouteEntries(service: Service, group: Group, kinds: map<string, Kind>,
                        unquote: string -> Option<string>): (es: seq<RouteEntry>)
    ensures |es| == |group.routes|
  {
    seq(|group.routes|, i requires 0 <= i < |group.routes| =>
      RouteEntryOf(service, group, group.routes[i], kinds, unquote))
  }

  lemma RouteEntryAt(service: Service, group: Group, r: nat, kinds: map<string, Kind>,
                     unquote: string -> Option<string>)
    requires r < |group.routes|
    ensures RouteEntries(service, group, kinds, unquote)[r]
            == RouteEntry(RenderedPath(group.routes[r].path), MethodSlot(group.routes[r].verb),
                          RouteOperation(service, group, group.routes[r], kinds, unquote))
  {
  }

  /** One route: its path item, created when the key has none yet, gets the
    * operation and is stored back under the key; no other key changes. */
  function Store(entries: map<string, PathItem>, e: RouteEntry): (r: map<string, PathItem>)
    ensures r.Keys == entries.Keys + {e.key}
    ensures forall k :: k in entries && k != e.key ==> r[k] == entries[k]
  {
    var item := if e.key in entries then entries[e.key] else EmptyPathItem;
    entries[e.key := WithOperation(item, e.slot, e.op)]
  }

  /** The route loop over the entries `es`. */
  function StoreAll(entries: map<string, PathItem>, es: seq<RouteEntry>): map<string, PathItem>
    decreases |es|
  {
    if es == [] then entries else Store(StoreAll(entries, es[..|es| - 1]), es[|es| - 1])
  }

  lemma StoreAllSnoc(entries: map<string, PathItem>, es: seq<RouteEntry>, r: nat)
    requires r < |es|
    ensures StoreAll(entries, es[..r + 1]) == Store(StoreAll(entries, es[..r]), es[r])
  {
    assert es[..r + 1][..r] == es[..r];
  }

  /** The paths map after the group loop. */
  function GroupsFold(entries: map<string, PathItem>, service: Service, groups: seq<Group>,
                      kinds: map<string, Kind>, unquote: string -> Option<string>): map<string, PathItem>
    decreases |groups|
  {
    if groups == [] then entries
    else
      StoreAll(GroupsFold(entries, service, groups[..|groups| - 1], kinds, unquote),
               RouteEntries(service, groups[|groups| - 1], kinds, unquote))
  }

  lemma GroupsFoldSnoc(entries: map<string, PathItem>, service: Service, groups: seq<Group>, g: nat,
                       kinds: map<string, Kind>, unquote: string -> Option<string>)
    requires g < |groups|
    ensures GroupsFold(entries, service, groups[..g + 1], kinds, unquote)
            == StoreAll(GroupsFold(entries, service, groups[..g], kinds, unquote), RouteEntries(service, groups[g], kinds, unquote))
  {
    assert groups[..g + 1][..g] == groups[..g];
  }

  /** swaggerPathsObject: the paths map, shared with its caller. */
  class PathsObject {
    var entries: map<string, PathItem>

    constructor ()
      ensures entries == map[]
    {
      entries := map[];
    }
  }

  /** The tail of the route loop: the switch on the upper-cased method, then the
    * path item stored back under the path. */
  method StoreOperation(paths: PathsObject, path: string, verb: string, op: Operation)
    modifies paths
    ensures paths.entries == Store(old(paths.entries), RouteEntry(path, MethodSlot(verb), op))
  {
    var item := if path in paths.entries then paths.entries[path] else EmptyPathItem;
    var u := ToUpper(verb);
    if u == "GET" {
      item := item.(get := Some(op));
    } else if u == "POST" {
      item := item.(post := Some(op));
    } else if u == "DELETE" {
      item := item.(delete := Some(op));
    } else if u == "PUT" {
      item := item.(put := Some(op));
    }
    paths.entries := paths.entries[path := item];
  }

  /** The route loop of one group. */
  method RenderGroupRoutes(service: Service, group: Group, paths: PathsObject,
                           kinds: map<string, Kind>, unquote: string -> Option<string>)
    modifies paths
    ensures paths.entries == StoreAll(old(paths.entries), RouteEntries(service, group, kinds, unquote))
  {
    var routes := group.routes;
    ghost var es := RouteEntries(service, group, kinds, unquote);
    ghost var start := paths.entries;
    var r := 0;
    while r < |routes|
      invariant 0 <= r <= |routes| == |es|
      invariant paths.entries == StoreAll(start, es[..r])
    {
      StoreAllSnoc(start, es, r);
      RenderRouteAt(service, group, r, paths, kinds, unquote);
      r := r + 1;
    }
    assert es[..r] == es;
  }

  /** The body of the route loop for the route at index `r`. */
  method RenderRouteAt(service: Service, group: Group, r: nat, paths: PathsObject,
                       kinds: map<string, Kind>, unquote: string -> Option<string>)
    requires r < |group.routes|
    modifies paths
    ensures paths.entries == Store(old(paths.entries), RouteEntries(service, group, kinds, unquote)[r])
  {
    var route := group.routes[r];
    var path, op := RenderRoute(service, group, route, kinds, unquote);
    RouteEntryAt(service, group, r, kinds, unquote);
    StoreOperation(paths, path, route.verb, op);
  }

  /** renderServiceRoutes: stores the operation of every route of every group. */
  method RenderServiceRoutes(service: Service, groups: seq<Group>, paths: PathsObject,
                             kinds: map<string, Kind>, unquote: string -> Option<string>)
    modifies paths
    ensures paths.entries == GroupsFold(old(paths.entries), service, groups, kinds, unquote)
  {
    ghost var start := paths.entries;
    var g := 0;
    while g < |groups|
      invariant 0 <= g <= |groups|
      invariant paths.entries == GroupsFold(start, service, groups[..g], kinds, unquote)
    {
      RenderGroupAt(service, groups, g, paths, kinds, unquote, start);
      g := g + 1;
    }
    assert groups[..g] == groups;
  }

  /** The body of the group loop for the group at index `g`. */
  method RenderGroupAt(service: Service, groups: seq<Group>, g: nat, paths: PathsObject,
                       kinds: map<string, Kind>, unquote: string -> Option<string>,
                       ghost start: map<string, PathItem>)
    requires g < |groups|
    requires paths.entries == GroupsFold(start, service, groups[..g], kinds, unquote)
    modifies paths
    ensures paths.entries == GroupsFold(start, service, groups[..g + 1], kinds, unquote)
  {
    GroupsFoldSnoc(start, service, groups, g, kinds, unquote);
    RenderGroupRoutes(service, groups[g], paths, kinds, unquote);
  }

  /** The keys of the entries. */
  function EntryKeySet(es: seq<RouteEntry>): set<string> {
    set i | 0 <= i < |es| :: es[i].key
  }

  /** The keys after the route loop: the old keys and the key of every entry. */
  lemma {:induction false} StoreAllKeys(entries: map<string, PathItem>, es: seq<RouteEntry>)
    ensures StoreAll(entries, es).Keys == entries.Keys + EntryKeySet(es)
    decreases |es|
  {
    if es != [] {
      var init, last := es[..|es| - 1], es[|es| - 1];
      StoreAllKeys(entries, init);
      EntryKeySetSnoc(es);
      assert StoreAll(entries, es) == Store(StoreAll(entries, init), last);
    }
  }

  lemma EntryKeySetSnoc(es: seq<RouteEntry>)
    requires es != []
    ensures EntryKeySet(es) == EntryKeySet(es[..|es| - 1]) + {es[|es| - 1].key}
  {
    var init := es[..|es| - 1];
    assert forall i :: 0 <= i < |init| ==> init[i] == es[i];
    forall k | k in EntryKeySet(es)
      ensures k in EntryKeySet(init) + {es[|es| - 1].key}
    {
      var i :| 0 <= i < |es| && es[i].key == k;
      if i < |init| {
        assert init[i].key == k;
      }
    }
  }

  /** The rewritten paths of a group's routes. */
  function RouteKeys(group: Group): set<string> {
    set i | 0 <= i < |group.routes| :: RenderedPath(group.routes[i].path)
  }

  /** The rewritten paths of the routes of all groups. */
  function GroupKeys(groups: seq<Group>): set<string>
    decreases |groups|
  {
    if groups == [] then {} else GroupKeys(groups[..|groups| - 1]) + RouteKeys(groups[|groups| - 1])
  }

  /** Each entry is keyed by its route's rewritten path. */
  lemma EntryKeys(service: Service, group: Group, kinds: map<string, Kind>, unquote: string -> Option<string>)
    ensures EntryKeySet(RouteEntries(service, group, kinds, unquote)) == RouteKeys(group)
  {
    var es := RouteEntries(service, group, kinds, unquote);
    assert forall i :: 0 <= i < |es| ==> es[i].key == RenderedPath(group.routes[i].path);
  }

  /** The keys after the group loop: the old keys and the rewritten path of
    * every route of every group, whatever its method. */
  lemma {:induction false} GroupsKeys(entries: map<string, PathItem>, service: Service, groups: seq<Group>,
                                      kinds: map<string, Kind>, unquote: string -> Option<string>)
    ensures GroupsFold(entries, service, groups, kinds, unquote).Keys == entries.Keys + GroupKeys(groups)
    decreases |groups|
  {
    if groups != [] {
      var init, last := groups[..|groups| - 1], groups[|groups| - 1];
      GroupsKeys(entries, service, init, kinds, unquote);
      StoreAllKeys(GroupsFold(entries, service, init, kinds, unquote), RouteEntries(service, last, kinds, unquote));
      EntryKeys(service, last, kinds, unquote);
    }
  }

  /** A key of the group loop is the rewritten path of some route of some group. */
  lemma {:induction false} GroupKeysMembers(groups: seq<Group>, k: string)
    ensures k in GroupKeys(groups) <==>
            exists g, i :: 0 <= g < |groups| && 0 <= i < |groups[g].routes| && RenderedPath(groups[g].routes[i].path) == k
    decreases |groups|
  {
    if groups != [] {
      var init := groups[..|groups| - 1];
      GroupKeysMembers(init, k);
      assert forall g :: 0 <= g < |init| ==> init[g] == groups[g];
    }
  }

  /** Routes accumulate: the operation of the last entry with a given key and
    * slot is the one left in that slot, whatever came before or after it under
    * other keys or other slots. */
  lemma {:induction false} StoreAllLastWins(entries: map<string, PathItem>, es: seq<RouteEntry>, i: nat, h: HttpMethod)
    requires i < |es| && es[i].slot == Some(h)
    requires forall j :: i < j < |es| ==> es[j].key != es[i].key || es[j].slot != Some(h)
    ensures es[i].key in StoreAll(entries, es)
    ensures Slot(StoreAll(entries, es)[es[i].key], h) == Some(es[i].op)
    decreases |es|
  {
    var init := es[..|es| - 1];
    if i < |es| - 1 {
      assert forall j :: i < j < |init| ==> init[j] == es[j];
      StoreAllLastWins(entries, init, i, h);
    }
  }

  /** The entries of the routes of all groups, group after group. */
  function AllEntries(service: Service, groups: seq<Group>, kinds: map<string, Kind>,
                      unquote: string -> Option<string>): seq<RouteEntry>
    decreases |groups|
  {
    if groups == [] then []
    else AllEntries(service, groups[..|groups| - 1], kinds, unquote) + RouteEntries(service, groups[|groups| - 1], kinds, unquote)
  }

  /** The route loop over two runs of entries is the loop over the first, then over the second. */
  lemma {:induction false} StoreAllAppend(entries: map<string, PathItem>, a: seq<RouteEntry>, b: seq<RouteEntry>)
    ensures StoreAll(entries, a + b) == StoreAll(StoreAll(entries, a), b)
    decreases |b|
  {
    if b == [] {
      assert a + b == a;
    } else {
      StoreAllAppend(entries, a, b[..|b| - 1]);
      assert (a + b)[..|a + b| - 1] == a + b[..|b| - 1];
    }
  }

  /** The group loop is one route loop over the entries of all groups. */
  lemma {:induction false} GroupsFoldAllEntries(entries: map<string, PathItem>, service: Service, groups: seq<Group>,
                                                kinds: map<string, Kind>, unquote: string -> Option<string>)
    ensures GroupsFold(entries, service, groups, kinds, unquote) == StoreAll(entries, AllEntries(service, groups, kinds, unquote))
    decreases |groups|
  {
    if groups != [] {
      var init, last := groups[..|groups| - 1], groups[|groups| - 1];
      GroupsFoldAllEntries(entries, service, init, kinds, unquote);
      StoreAllAppend(entries, AllEntries(service, init, kinds, unquote), RouteEntries(service, last, kinds, unquote));
    }
  }

  /** Across groups too, the last route with a given key and slot wins: a later
    * group's route overwrites an earlier group's operation in the same slot. */
  lemma GroupsLastWins(entries: map<string, PathItem>, service: Service, groups: seq<Group>,
                       kinds: map<string, Kind>, unquote: string -> Option<string>, i: nat, h: HttpMethod)
    requires i < |AllEntries(service, groups, kinds, unquote)|
    requires AllEntries(service, groups, kinds, unquote)[i].slot == Some(h)
    requires forall j :: i < j < |AllEntries(service, groups, kinds, unquote)| ==>
               AllEntries(service, groups, kinds, unquote)[j].key != AllEntries(service, groups, kinds, unquote)[i].key
               || AllEntries(service, groups, kinds, unquote)[j].slot != Some(h)
    ensures var e := AllEntries(service, groups, kinds, unquote)[i];
            && e.key in GroupsFold(entries, service, groups, kinds, unquote)
            && Slot(GroupsFold(entries, service, groups, kinds, unquote)[e.key], h) == Some(e.op)
  {
    GroupsFoldAllEntries(entries, service, groups, kinds, unquote);
    StoreAllLastWins(entries, AllEntries(service, groups, kinds, unquote), i, h);
  }

  /** Dispatch ignores case: a method and its upper case select the same slot. */
  lemma MethodSlotIgnoresCase(verb: string)
    ensures MethodSlot(ToUpper(verb)) == MethodSlot(verb)
  {
    assert ToUpper(ToUpper(verb)) == ToUpper(verb);
  }

  /** "get" and "Get" select GET, "PATCH" selects nothing, and "poſt" (with
    * U+017F, whose upper case is 'S') selects POST. */
  lemma MethodSlotExamples()
    ensures MethodSlot("get") == Some(Get)
    ensures MethodSlot("Get") == Some(Get)
    ensures MethodSlot("PATCH") == None
    ensures MethodSlot("po\U{017F}t") == Some(Post)
  {
    assert ToUpper("get") == "GET";
    assert ToUpper("Get") == "GET";
    assert ToUpper("PATCH") == "PATCH";
    assert ToUpper("po\U{017F}t") == "POST";
  }

  /** A route whose method has a slot leaves its operation in that slot, and the
    * other slots of the item already stored under the path are untouched. */
  lemma RouteSlot(entries: map<string, PathItem>, service: Service, group: Group, route: Route,
                  kinds: map<string, Kind>, unquote: string -> Option<string>, h: HttpMethod)
    ensures var key := RenderedPath(route.path);
            var r := Store(entries, RouteEntryOf(service, group, route, kinds, unquote));
            var before := if key in entries then entries[key] else EmptyPathItem;
            Slot(r[key], h) == if Some(h) == MethodSlot(route.verb)
                               then Some(RouteOperation(service, group, route, kinds, unquote))
                               else Slot(before, h)
  {
  }

  /** A route whose method has no slot still stores the (possibly new and empty)
    * path item under its rewritten path. */
  lemma UnsupportedMethodStoresItem(entries: map<string, PathItem>, service: Service, group: Group,
                                    route: Route, kinds: map<string, Kind>, unquote: string -> Option<string>)
    requires MethodSlot(route.verb).None?
    ensures var key := RenderedPath(route.path);
            Store(entries, RouteEntryOf(service, group, route, kinds, unquote))
            == entries[key := if key in entries then entries[key] else EmptyPathItem]
  {
  }
}
