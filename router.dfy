/** The route collector: a stack of group attributes and the tables it fills,
    `routes` (keyed by verb followed by uri) and `namedRoutes` (route name to uri). */
module Routing {
  import opened Wrappers
  import opened PhpStrings
  import opened PhpArrays
  import opened RouteActions

  /** The group attributes the router reads. Middleware is split into a list
      before a group is pushed. */
  datatype GroupAttributes = GroupAttributes(
    prefix: Option<string>,
    namespace: Option<string>,
    name: Option<string>,
    suffix: Option<string>,
    domain: Option<string>,
    middleware: Option<MiddlewareSpec>)

  const NoAttributes := GroupAttributes(None, None, None, None, None, None)

  /** A group's `middleware` string is split on `|` into a list. */
  function NormalizeGroup(a: GroupAttributes): (r: GroupAttributes)
    ensures r.middleware.None? <==> a.middleware.None?
    ensures r.middleware.Some? ==> r.middleware.value == SplitMiddleware(a.middleware.value)
    ensures r.(middleware := a.middleware) == a
  {
    if a.middleware.Some? then a.(middleware := Some(SplitMiddleware(a.middleware.value))) else a
  }

  /** The namespace of a nested group: a namespace of its own is appended to the
      enclosing one with `\`, unless it starts with `\`; without one the enclosing
      namespace is inherited. */
  function FormatUsesPrefix(inner: GroupAttributes, outer: GroupAttributes): Option<string>
  {
    if inner.namespace.Some? then
      if outer.namespace.Some? && !StartsWith(inner.namespace.value, "\\") then
        Some(Trim(outer.namespace.value, '\\') + "\\" + Trim(inner.namespace.value, '\\'))
      else Some(Trim(inner.namespace.value, '\\'))
    else outer.namespace
  }

  /** The prefix of a nested group: both prefixes trimmed of `/` and joined by `/`;
      without a prefix of its own the enclosing one is inherited. */
  function FormatGroupPrefix(inner: GroupAttributes, outer: GroupAttributes): Option<string>
  {
    if inner.prefix.Some? then
      Some(Trim(outer.prefix.GetOr(""), '/') + "/" + Trim(inner.prefix.value, '/'))
    else outer.prefix
  }

  /** `array_merge_recursive` on one key: values present on both sides are
      concatenated as lists, a value present on one side is kept. */
  function MergeRecursive(outer: Option<MiddlewareSpec>, inner: Option<MiddlewareSpec>): (r: Option<MiddlewareSpec>)
    ensures outer.None? ==> r == inner
    ensures inner.None? ==> r == outer
    ensures outer.Some? && inner.Some? ==> r == Some(Listed(AsList(outer.value) + AsList(inner.value)))
  {
    if outer.Some? && inner.Some? then Some(Listed(AsList(outer.value) + AsList(inner.value)))
    else if outer.Some? then outer
    else inner
  }

  /** `Router::mergeGroup($new, $old)` on the modelled attributes. */
  function MergeGroup(inner: GroupAttributes, outer: GroupAttributes): GroupAttributes
  {
    GroupAttributes(
      prefix := FormatGroupPrefix(inner, outer),
      namespace := FormatUsesPrefix(inner, outer),
      name := if outer.name.Some? then
                Some(outer.name.value + (if inner.name.Some? then "." + inner.name.value else ""))
              else inner.name,
      suffix := if outer.suffix.Some? && inner.suffix.None? then outer.suffix else inner.suffix,
      domain := if inner.domain.Some? then inner.domain else outer.domain,
      middleware := MergeRecursive(outer.middleware, inner.middleware))
  }

  /** What a nested group inherits and how: the prefix and namespace are joined,
      the names are joined by `.`, the enclosing middleware comes first, and the
      enclosing suffix and domain apply unless the group has its own. */
  lemma NestedGroupAttributes(inner: GroupAttributes, outer: GroupAttributes)
    ensures outer.name.Some? && inner.name.Some? ==>
      MergeGroup(inner, outer).name == Some(outer.name.value + "." + inner.name.value)
    ensures outer.middleware.Some? && inner.middleware.Some? ==>
      MergeGroup(inner, outer).middleware == Some(Listed(AsList(outer.middleware.value) + AsList(inner.middleware.value)))
    ensures inner.suffix.None? ==> MergeGroup(inner, outer).suffix == outer.suffix
    ensures inner.domain.None? ==> MergeGroup(inner, outer).domain == outer.domain
    ensures inner.domain.Some? ==> MergeGroup(inner, outer).domain == inner.domain
  {
    if outer.name.Some? && inner.name.Some? {
      assert outer.name.value + ("." + inner.name.value) == outer.name.value + "." + inner.name.value;
    }
  }

  /** Nested prefixes are joined by one `/`: `p` under `q` gives `p/q` when
      neither has a `/` at its ends, and the prefix is inherited when the nested
      group has none. */
  lemma NestedPrefix(inner: GroupAttributes, outer: GroupAttributes, p: string, q: string)
    requires outer.prefix == Some(p)
    requires NoEdge(p, '/') && NoEdge(q, '/')
    ensures inner.prefix == Some(q) ==> MergeGroup(inner, outer).prefix == Some(p + "/" + q)
    ensures inner.prefix.None? ==> MergeGroup(inner, outer).prefix == Some(p)
  {
    assert MergeGroup(inner, outer).prefix == FormatGroupPrefix(inner, outer);
    if inner.prefix == Some(q) {
      TrimNoEdge(p, '/');
      TrimNoEdge(q, '/');
      assert FormatGroupPrefix(inner, outer) == Some(Trim(p, '/') + "/" + Trim(q, '/'));
    }
  }

  /** A nested namespace starting with `\` replaces the enclosing one; any other
      nested namespace is appended to the (trimmed) enclosing one; a group
      without a namespace inherits the enclosing one unchanged. */
  lemma NestedNamespace(inner: GroupAttributes, outer: GroupAttributes)
    ensures inner.namespace.None? ==> MergeGroup(inner, outer).namespace == outer.namespace
    ensures inner.namespace.Some? && StartsWith(inner.namespace.value, "\\") ==>
      MergeGroup(inner, outer).namespace == Some(Trim(inner.namespace.value, '\\'))
    ensures inner.namespace.Some? && !StartsWith(inner.namespace.value, "\\") && outer.namespace.Some? ==>
      MergeGroup(inner, outer).namespace ==
        Some(Trim(outer.namespace.value, '\\') + "\\" + Trim(inner.namespace.value, '\\'))
    ensures inner.namespace.Some? && outer.namespace.None? ==>
      MergeGroup(inner, outer).namespace == Some(Trim(inner.namespace.value, '\\'))
    ensures inner.namespace.Some? ==> MergeGroup(inner, outer).namespace.Some?
    ensures inner.namespace.Some? ==>
      NoEdge(MergeGroup(inner, outer).namespace.value, '\\') || outer.namespace.Some?
  {
  }

  /** `mergeWithLastGroup([])`, which `addRoute` uses, gives back the top group. */
  lemma MergeWithEmptyGroup(outer: GroupAttributes)
    ensures MergeGroup(NoAttributes, outer) == outer
  {
    if outer.name.Some? {
      assert outer.name.value + "" == outer.name.value;
    }
  }

  /** `Router::parseAction`: a string becomes `['uses' => s]`, a closure a
      one-element array, and an array keeps its keys with a string middleware split. */
  function ParseAction(a: ActionInput): (r: Action)
    ensures a.UsesString? ==> r == EmptyAction.(uses := Some(a.target))
    ensures a.Callable? ==> r == EmptyAction.(closure := Some(a.id))
    ensures a.ActionArray? ==> r.(middleware := a.fields.middleware) == a.fields
    ensures r.middleware.None? || r.middleware.value.Listed?
  {
    match a
    case UsesString(s) => EmptyAction.(uses := Some(s))
    case Callable(id) => EmptyAction.(closure := Some(id))
    case ActionArray(f) =>
      if f.middleware.Some? then f.(middleware := Some(SplitMiddleware(f.middleware.value))) else f
  }

  /** PHP's `empty()` on a string. */
  predicate IsEmptyString(s: string)
  {
    !Truthy(s)
  }

  /** `mergeAsGroup`: a non-empty group name is put before the action's name with `.`. */
  function MergeAsGroup(action: Action, groupName: Option<string>): Action
  {
    if groupName.Some? && !IsEmptyString(groupName.value) then
      if action.name.Some? then action.(name := Some(groupName.value + "." + action.name.value))
      else action.(name := groupName)
    else action
  }

  /** `mergeMiddlewareGroup`: the group's middleware goes before the action's own. */
  function MergeMiddlewareGroup(action: Action, middleware: Option<MiddlewareSpec>): Action
  {
    if middleware.Some? then
      if action.middleware.Some? then
        action.(middleware := Some(Listed(AsList(middleware.value) + AsList(action.middleware.value))))
      else action.(middleware := middleware)
    else action
  }

  /** `prependGroupNamespace`: a class not starting with `\` is put under the namespace. */
  function PrependGroupNamespace(target: string, namespace: Option<string>): (r: string)
    ensures StartsWith(target, "\\") ==> r == target
    ensures namespace.None? ==> r == target
    ensures namespace.Some? && !StartsWith(target, "\\") ==> r == namespace.value + "\\" + target
  {
    if namespace.Some? && !StartsWith(target, "\\") then namespace.value + "\\" + target else target
  }

  /** `mergeNamespaceGroup`: the namespace applies to a `uses` target only. */
  function MergeNamespaceGroup(action: Action, namespace: Option<string>): Action
  {
    if namespace.Some? && action.uses.Some? then
      action.(uses := Some(PrependGroupNamespace(action.uses.value, namespace)))
    else action
  }

  /** `mergeGroupAttributes`: name first, then middleware, then namespace. */
  function MergeGroupAttributes(action: Action, attributes: GroupAttributes): (r: Action)
    ensures r.closure == action.closure
  {
    MergeNamespaceGroup(
      MergeMiddlewareGroup(MergeAsGroup(action, attributes.name), attributes.middleware),
      attributes.namespace)
  }

  /** How a group changes a route's action: the group middleware precedes the
      action's own, a non-empty group name is put in front of the action name with
      `.`, and a `uses` target starting with `\` is never given the namespace. */
  lemma GroupAttributesOnAction(action: Action, attributes: GroupAttributes)
    ensures var r := MergeGroupAttributes(action, attributes);
      && (attributes.middleware.Some? && action.middleware.Some? ==>
            r.middleware == Some(Listed(AsList(attributes.middleware.value) + AsList(action.middleware.value))))
      && (attributes.middleware.None? ==> r.middleware == action.middleware)
      && (attributes.name.Some? && Truthy(attributes.name.value) && action.name.Some? ==>
            r.name == Some(attributes.name.value + "." + action.name.value))
      && (attributes.name.None? ==> r.name == action.name)
      && (action.uses.Some? && StartsWith(action.uses.value, "\\") ==> r.uses == action.uses)
      && (action.uses.Some? && !StartsWith(action.uses.value, "\\") && attributes.namespace.Some? ==>
            r.uses == Some(attributes.namespace.value + "\\" + action.uses.value))
      && (action.uses.None? ==> r.uses == None)
  {
  }

  /** One entry of the route table. */
  datatype Route = Route(verb: string, uri: string, action: Action)

  /** `addRoute`'s `$method`: one verb or a list of verbs. */
  datatype Methods = OneVerb(verb: string) | VerbList(verbs: seq<string>)

  function VerbsOf(m: Methods): seq<string>
  {
    match m
    case OneVerb(v) => [v]
    case VerbList(vs) => vs
  }

  /** The uri `addRoute` stores: the group prefix joined with `/`, the group suffix
      appended, and the whole trimmed and given one leading `/`. The result starts
      with `/` and ends with `/` only when it is `/` itself. */
  function RouteUri(attributes: Option<GroupAttributes>, uri: string): (r: string)
    ensures SlashPath(r)
  {
    var t := TrimmedUri(attributes, uri);
    SlashBeforeTrimmed(t);
    "/" + t
  }

  /** The prefixed and suffixed uri with `/` trimmed off both ends. */
  function TrimmedUri(attributes: Option<GroupAttributes>, uri: string): (t: string)
    ensures NoEdge(t, '/')
  {
    Trim(SuffixedUri(attributes, uri), '/')
  }

  /** The uri with the group prefix put in front and the group suffix appended,
      before the final trim. */
  function SuffixedUri(attributes: Option<GroupAttributes>, uri: string): string
  {
    var prefixed := PrefixedUri(attributes, uri);
    if attributes.Some? && attributes.value.suffix.Some?
    then Trim(prefixed, '/') + TrimRight(attributes.value.suffix.value, '/')
    else prefixed
  }

  function PrefixedUri(attributes: Option<GroupAttributes>, uri: string): string
  {
    if attributes.Some? && attributes.value.prefix.Some?
    then Trim(attributes.value.prefix.value, '/') + "/" + Trim(uri, '/')
    else uri
  }

  /** Under a group prefix `p`, a route uri `u` is stored as `/p/u` with each part
      trimmed, and as `/p` when `u` is only slashes. */
  lemma PrefixedRouteUri(g: GroupAttributes, p: string, u: string)
    requires g.prefix == Some(p) && g.suffix.None?
    requires Trim(p, '/') != ""
    ensures Trim(u, '/') != "" ==> RouteUri(Some(g), u) == "/" + Trim(p, '/') + "/" + Trim(u, '/')
    ensures Trim(u, '/') == "" ==> RouteUri(Some(g), u) == "/" + Trim(p, '/')
  {
    PrefixedUriJoined(g, p, u);
    SlashJoinedTrim(Trim(p, '/'), Trim(u, '/'));
  }

  lemma PrefixedUriJoined(g: GroupAttributes, p: string, u: string)
    requires g.prefix == Some(p) && g.suffix.None?
    ensures RouteUri(Some(g), u) == "/" + Trim(Trim(p, '/') + "/" + Trim(u, '/'), '/')
  {
  }

  lemma SlashJoinedTrim(a: string, b: string)
    requires a != "" && NoEdge(a, '/') && NoEdge(b, '/')
    ensures b != "" ==> "/" + Trim(a + "/" + b, '/') == "/" + a + "/" + b
    ensures b == "" ==> "/" + Trim(a + "/" + b, '/') == "/" + a
  {
    TrimJoin(a, b, '/');
    assert a + ['/'] + b == a + "/" + b;
    if b != "" {
      ConcatAssoc("/", a + "/", b);
      ConcatAssoc("/", a, "/");
    }
  }

  /** The group stack of `group(['prefix' => 'user'], ...)`. */
  function UserGroupStack(): (r: seq<GroupAttributes>)
    ensures CurrentAttributes(r) == Some(NoAttributes.(prefix := Some("user")))
  {
    PushGroup([], NoAttributes.(prefix := Some("user")))
  }

  /** Under a group holding only the prefix `p`, the uri `u` is stored as `/p/u`
      when neither has a `/` at its ends. */
  lemma PrefixedSegmentUri(p: string, u: string)
    requires p != "" && u != "" && NoEdge(p, '/') && NoEdge(u, '/')
    ensures RouteUri(CurrentAttributes(PushGroup([], NoAttributes.(prefix := Some(p)))), u) == "/" + p + "/" + u
  {
    var g := NoAttributes.(prefix := Some(p));
    assert CurrentAttributes(PushGroup([], g)) == Some(g);
    TrimNoEdge(p, '/');
    TrimNoEdge(u, '/');
    PrefixedRouteUri(g, p, u);
  }

  /** The same route written with a leading `/` is stored alike. */
  lemma PrefixedSlashSegmentUri(p: string, u: string)
    requires p != "" && u != "" && NoEdge(p, '/') && NoEdge(u, '/')
    ensures RouteUri(CurrentAttributes(PushGroup([], NoAttributes.(prefix := Some(p)))), "/" + u) == "/" + p + "/" + u
  {
    var g := NoAttributes.(prefix := Some(p));
    assert CurrentAttributes(PushGroup([], g)) == Some(g);
    TrimNoEdge(p, '/');
    TrimNoEdge(u, '/');
    TrimDropsLeading(u, '/');
    assert ['/'] + u == "/" + u;
    PrefixedRouteUri(g, p, "/" + u);
  }

  /** Under a group holding only the prefix `p`, the route `/` is stored as `/p`. */
  lemma PrefixedRootUri(p: string)
    requires p != "" && NoEdge(p, '/')
    ensures RouteUri(CurrentAttributes(PushGroup([], NoAttributes.(prefix := Some(p)))), "/") == "/" + p
  {
    var g := NoAttributes.(prefix := Some(p));
    assert CurrentAttributes(PushGroup([], g)) == Some(g);
    TrimNoEdge(p, '/');
    TrimDropsLeading("", '/');
    assert ['/'] + "" == "/";
    PrefixedRouteUri(g, p, "/");
  }

  lemma UserRouteLiterals()
    ensures "/" + "user" == "/user"
    ensures "/" + "user" + "/" + "profile" == "/user/profile"
    ensures "/" + "user" + "/" + "show" == "/user/show"
    ensures "/" + "show" == "/show"
  {
  }

  /** Routes registered as `/`, `profile` and `/show` inside a group with prefix
      `user` are stored as `/user`, `/user/profile` and `/user/show`. */
  lemma GroupPrefixIndexExample()
    ensures RouteUri(CurrentAttributes(UserGroupStack()), "/") == "/user"
  {
    PrefixedRootUri("user");
    UserRouteLiterals();
  }

  lemma GroupPrefixProfileExample()
    ensures RouteUri(CurrentAttributes(UserGroupStack()), "profile") == "/user/profile"
  {
    PrefixedSegmentUri("user", "profile");
    UserRouteLiterals();
  }

  lemma GroupPrefixShowExample()
    ensures RouteUri(CurrentAttributes(UserGroupStack()), "/show") == "/user/show"
  {
    PrefixedSlashSegmentUri("user", "show");
    UserRouteLiterals();
  }

  /** The action `addRoute` stores: parsed, then given the group's attributes. */
  function RouteAction(attributes: Option<GroupAttributes>, action: ActionInput): Action
  {
    var a := ParseAction(action);
    if attributes.Some? then MergeGroupAttributes(a, attributes.value) else a
  }

  /** A `uses` target starting with `\` is stored as written whatever the groups. */
  lemma AbsoluteUsesKept(attributes: Option<GroupAttributes>, target: string)
    requires StartsWith(target, "\\")
    ensures RouteAction(attributes, UsesString(target)).uses == Some(target)
  {
  }

  /** The attributes `addRoute` applies: the top of the stack merged with nothing. */
  function CurrentAttributes(stack: seq<GroupAttributes>): Option<GroupAttributes>
  {
    if stack == [] then None else Some(MergeGroup(NoAttributes, stack[|stack| - 1]))
  }

  /** The group stack after `updateGroupStack`: the first group is pushed as given
      (with its middleware split), a nested one merged with the top. */
  function PushGroup(stack: seq<GroupAttributes>, attributes: GroupAttributes): (r: seq<GroupAttributes>)
    ensures |r| == |stack| + 1 && r[..|stack|] == stack
    ensures stack == [] ==> r[|stack|] == NormalizeGroup(attributes)
    ensures stack != [] ==> r[|stack|] == MergeGroup(NormalizeGroup(attributes), stack[|stack| - 1])
  {
    var a := NormalizeGroup(attributes);
    stack + [if stack == [] then a else MergeGroup(a, stack[|stack| - 1])]
  }

  /** `$routes[$verb.$uri] = ...` for each verb in order. */
  function PutVerbs(routes: OMap<string, Route>, verbs: seq<string>, uri: string, action: Action): OMap<string, Route>
  {
    if verbs == [] then routes
    else
      var v := verbs[|verbs| - 1];
      Put(PutVerbs(routes, verbs[..|verbs| - 1], uri, action), v + uri, Route(v, uri, action))
  }

  lemma SuffixDetermines(v: string, w: string, uri: string)
    requires v + uri == w + uri
    ensures v == w
  {
    assert v == (v + uri)[..|v|];
    assert w == (w + uri)[..|w|];
  }

  /** Every verb gets its own entry under `verb + uri`. */
  lemma {:induction false} PutVerbsEntry(routes: OMap<string, Route>, verbs: seq<string>, uri: string, action: Action, v: string)
    requires v in verbs
    ensures Get(PutVerbs(routes, verbs, uri, action), v + uri) == Some(Route(v, uri, action))
  {
    var n := |verbs|;
    var w := verbs[n - 1];
    var before := PutVerbs(routes, verbs[..n - 1], uri, action);
    if v == w {
      PutGet(before, w + uri, Route(w, uri, action));
    } else {
      assert v in verbs[..n - 1] by {
        var i :| 0 <= i < n && verbs[i] == v;
        assert i != n - 1;
        assert verbs[..n - 1][i] == v;
      }
      PutVerbsEntry(routes, verbs[..n - 1], uri, action, v);
      if v + uri == w + uri {
        SuffixDetermines(v, w, uri);
      }
      PutOther(before, w + uri, Route(w, uri, action), v + uri);
    }
  }

  /** Keys not of the form `verb + uri` keep their entries. */
  lemma {:induction false} PutVerbsOther(routes: OMap<string, Route>, verbs: seq<string>, uri: string, action: Action, k: string)
    requires forall v :: v in verbs ==> v + uri != k
    ensures Get(PutVerbs(routes, verbs, uri, action), k) == Get(routes, k)
  {
    if verbs != [] {
      var n := |verbs|;
      var w := verbs[n - 1];
      assert forall v :: v in verbs[..n - 1] ==> v in verbs;
      PutVerbsOther(routes, verbs[..n - 1], uri, action, k);
      PutOther(PutVerbs(routes, verbs[..n - 1], uri, action), w + uri, Route(w, uri, action), k);
    }
  }

  lemma {:induction false} PutVerbsUnique(routes: OMap<string, Route>, verbs: seq<string>, uri: string, action: Action)
    requires UniqueKeys(routes)
    ensures UniqueKeys(PutVerbs(routes, verbs, uri, action))
  {
    if verbs != [] {
      var n := |verbs|;
      PutVerbsUnique(routes, verbs[..n - 1], uri, action);
      PutUnique(PutVerbs(routes, verbs[..n - 1], uri, action), verbs[n - 1] + uri, Route(verbs[n - 1], uri, action));
    }
  }

  /** The two tables the router fills. */
  datatype RouteTable = RouteTable(routes: OMap<string, Route>, named: OMap<string, string>)

  predicate ValidTable(t: RouteTable)
  {
    UniqueKeys(t.routes) && UniqueKeys(t.named)
  }

  /** `Router::addRoute` as a function of the tables and the group stack. */
  function AddRouteTo(t: RouteTable, stack: seq<GroupAttributes>, verbs: Methods, uri: string, action: ActionInput): RouteTable
  {
    var attributes := CurrentAttributes(stack);
    var u := RouteUri(attributes, uri);
    var a := RouteAction(attributes, action);
    RouteTable(
      PutVerbs(t.routes, VerbsOf(verbs), u, a),
      if a.name.Some? then Put(t.named, a.name.value, u) else t.named)
  }

  /** After `addRoute`: each verb has its entry under `verb + uri`, no other entry
      changed, a named action maps its name to the uri, and the keys stay unique. */
  lemma AddRouteEffect(t: RouteTable, stack: seq<GroupAttributes>, verbs: Methods, uri: string, action: ActionInput)
    requires ValidTable(t)
    ensures var t' := AddRouteTo(t, stack, verbs, uri, action);
      var u := RouteUri(CurrentAttributes(stack), uri);
      var a := RouteAction(CurrentAttributes(stack), action);
      && ValidTable(t')
      && (forall v :: v in VerbsOf(verbs) ==> Get(t'.routes, v + u) == Some(Route(v, u, a)))
      && (forall k :: (forall v :: v in VerbsOf(verbs) ==> v + u != k) ==> Get(t'.routes, k) == Get(t.routes, k))
      && (a.name.Some? ==> Get(t'.named, a.name.value) == Some(u))
      && (forall n :: (a.name.None? || n != a.name.value) ==> Get(t'.named, n) == Get(t.named, n))
  {
    var u := RouteUri(CurrentAttributes(stack), uri);
    var a := RouteAction(CurrentAttributes(stack), action);
    var t' := AddRouteTo(t, stack, verbs, uri, action);
    PutVerbsUnique(t.routes, VerbsOf(verbs), u, a);
    if a.name.Some? {
      PutUnique(t.named, a.name.value, u);
      PutGet(t.named, a.name.value, u);
      forall n | n != a.name.value ensures Get(t'.named, n) == Get(t.named, n) {
        PutOther(t.named, a.name.value, u, n);
      }
    }
    forall v | v in VerbsOf(verbs) ensures Get(t'.routes, v + u) == Some(Route(v, u, a)) {
      PutVerbsEntry(t.routes, VerbsOf(verbs), u, a, v);
    }
    forall k | (forall v :: v in VerbsOf(verbs) ==> v + u != k) ensures Get(t'.routes, k) == Get(t.routes, k) {
      PutVerbsOther(t.routes, VerbsOf(verbs), u, a, k);
    }
  }

  /** What the group callback does, as a script of registrations. */
  datatype Registration =
    | AddRouteCall(verbs: Methods, uri: string, action: ActionInput)
    | GroupCall(attributes: GroupAttributes, body: seq<Registration>)

  /** The tables after running a script under a group stack. */
  function RunScript(t: RouteTable, stack: seq<GroupAttributes>, calls: seq<Registration>): RouteTable
    decreases calls
  {
    if calls == [] then t
    else
      var t' := match calls[0]
        case AddRouteCall(verbs, uri, action) => AddRouteTo(t, stack, verbs, uri, action)
        case GroupCall(attributes, body) => RunScript(t, PushGroup(stack, attributes), body);
      RunScript(t', stack, calls[1..])
  }

  /** Running a script keeps both tables' keys unique. */
  lemma {:induction false} RunScriptValid(t: RouteTable, stack: seq<GroupAttributes>, calls: seq<Registration>)
    requires ValidTable(t)
    ensures ValidTable(RunScript(t, stack, calls))
    decreases calls
  {
    if calls != [] {
      match calls[0]
      case AddRouteCall(verbs, uri, action) =>
        AddRouteEffect(t, stack, verbs, uri, action);
        RunScriptValid(AddRouteTo(t, stack, verbs, uri, action), stack, calls[1..]);
      case GroupCall(attributes, body) =>
        RunScriptValid(t, PushGroup(stack, attributes), body);
        RunScriptValid(RunScript(t, PushGroup(stack, attributes), body), stack, calls[1..]);
    }
  }

  class Router {
    var groupStack: seq<GroupAttributes>
    var routes: OMap<string, Route>
    var namedRoutes: OMap<string, string>

    ghost predicate Valid()
      reads this
    {
      UniqueKeys(routes) && UniqueKeys(namedRoutes)
    }

    function Table(): RouteTable
      reads this
    {
      RouteTable(routes, namedRoutes)
    }

    constructor ()
      ensures Valid()
      ensures groupStack == [] && routes == [] && namedRoutes == []
    {
      groupStack, routes, namedRoutes := [], [], [];
    }

    /** `Router::group`: push the attributes, run the callback, pop again. */
    method Group(attributes: GroupAttributes, callback: seq<Registration>)
      requires Valid()
      modifies this
      ensures Valid()
      ensures groupStack == old(groupStack)
      ensures Table() == RunScript(old(Table()), PushGroup(old(groupStack), attributes), callback)
      decreases callback, 1
    {
      var a := attributes;
      if a.middleware.Some? && a.middleware.value.Piped? {
        a := a.(middleware := Some(SplitMiddleware(a.middleware.value)));
      }
      UpdateGroupStack(a);
      Run(callback);
      groupStack := groupStack[..|groupStack| - 1];
    }

    /** `Router::updateGroupStack`. */
    method UpdateGroupStack(attributes: GroupAttributes)
      modifies this`groupStack
      ensures groupStack == old(groupStack) + [if old(groupStack) == [] then attributes
                                               else MergeGroup(attributes, old(groupStack)[|old(groupStack)| - 1])]
    {
      var a := attributes;
      if groupStack != [] {
        a := MergeGroup(a, groupStack[|groupStack| - 1]);
      }
      groupStack := groupStack + [a];
    }

    /** Runs the registrations the group callback makes. */
    method Run(calls: seq<Registration>)
      requires Valid()
      modifies this
      ensures Valid()
      ensures groupStack == old(groupStack)
      ensures Table() == RunScript(old(Table()), groupStack, calls)
      decreases calls, 0
    {
      if calls != [] {
        match calls[0] {
          case AddRouteCall(verbs, uri, action) =>
            AddRoute(verbs, uri, action);
          case GroupCall(attributes, body) =>
            Group(attributes, body);
        }
        Run(calls[1..]);
      }
    }

    /** `Router::hasGroupStack`. */
    method HasGroupStack() returns (b: bool)
      ensures b <==> groupStack != []
    {
      b := groupStack != [];
    }

    /** `Router::addRoute`. */
    method AddRoute(verbs: Methods, uri: string, action: ActionInput)
      requires Valid()
      modifies this`routes, this`namedRoutes
      ensures Valid()
      ensures Table() == AddRouteTo(old(Table()), groupStack, verbs, uri, action)
    {
      ghost var t := Table();
      var a := ParseAction(action);
      var attributes: Option<GroupAttributes> := None;
      var inGroup := HasGroupStack();
      if inGroup {
        attributes := Some(MergeGroup(NoAttributes, groupStack[|groupStack| - 1]));
      }
      assert attributes == CurrentAttributes(groupStack);
      var u := uri;
      if attributes.Some? {
        if attributes.value.prefix.Some? {
          u := Trim(attributes.value.prefix.value, '/') + "/" + Trim(u, '/');
        }
        assert u == PrefixedUri(attributes, uri);
        if attributes.value.suffix.Some? {
          u := Trim(u, '/') + TrimRight(attributes.value.suffix.value, '/');
        }
        a := MergeGroupAttributes(a, attributes.value);
      }
      assert u == SuffixedUri(attributes, uri);
      assert a == RouteAction(attributes, action);
      u := "/" + Trim(u, '/');
      assert u == RouteUri(attributes, uri);
      ghost var t' := AddRouteTo(t, groupStack, verbs, uri, action);
      assert t' == RouteTable(PutVerbs(routes, VerbsOf(verbs), u, a),
                              if a.name.Some? then Put(namedRoutes, a.name.value, u) else namedRoutes);
      AddRouteEffect(t, groupStack, verbs, uri, action);
      StoreRoute(verbs, u, a);
      assert Table() == t';
    }

    /** The end of `Router::addRoute`: the name is recorded, then one entry per verb. */
    method StoreRoute(verbs: Methods, u: string, a: Action)
      modifies this`routes, this`namedRoutes
      ensures routes == PutVerbs(old(routes), VerbsOf(verbs), u, a)
      ensures namedRoutes == if a.name.Some? then Put(old(namedRoutes), a.name.value, u) else old(namedRoutes)
    {
      if a.name.Some? {
        namedRoutes := Put(namedRoutes, a.name.value, u);
      }
      ghost var named := namedRoutes;
      match verbs {
        case VerbList(vs) =>
          for i := 0 to |vs|
            invariant routes == PutVerbs(old(routes), vs[..i], u, a)
            invariant namedRoutes == named
          {
            assert vs[..i + 1][..i] == vs[..i];
            routes := Put(routes, vs[i] + u, Route(vs[i], u, a));
          }
          assert vs[..|vs|] == vs;
        case OneVerb(v) =>
          assert [v][..0] == [];
          routes := Put(routes, v + u, Route(v, u, a));
      }
    }

    /** `Router::getRoutes`. */
    method GetRoutes() returns (r: OMap<string, Route>)
      ensures r == routes
    {
      r := routes;
    }
  }
}
