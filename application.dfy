/** The application object: its own route table, the global and route
    middleware lists, run-once bookkeeping for service providers, configuration
    files and lazy container binders, the dispatch decision and the base and
    storage paths. */
module LumenApplication {
  import opened Wrappers
  import opened PhpStrings
  import opened PhpArrays
  import opened RouteActions
  import opened Routing
  import opened ExceptionHandlers

  /** `Application::parseAction`: unlike the router's, an action array is kept
      as it is, with a string middleware left unsplit. */
  function AppParseAction(a: ActionInput): (r: Action)
    ensures a.UsesString? ==> r == EmptyAction.(uses := Some(a.target))
    ensures a.Callable? ==> r == EmptyAction.(closure := Some(a.id))
    ensures a.ActionArray? ==> r == a.fields
  {
    match a
    case UsesString(s) => EmptyAction.(uses := Some(s))
    case Callable(id) => EmptyAction.(closure := Some(id))
    case ActionArray(f) => f
  }

  /** The uri `Application::addRoute` stores: trimmed of `/` with one `/` in front. */
  function AppRouteUri(uri: string): (r: string)
    ensures SlashPath(r)
    ensures r[1..] == Trim(uri, '/')
  {
    var t := Trim(uri, '/');
    SlashBeforeTrimmed(t);
    assert ("/" + t)[1..] == t;
    "/" + t
  }

  /** `Application::addRoute` as a function of the two tables. */
  function AppAddRouteTo(t: RouteTable, verb: string, uri: string, action: ActionInput): RouteTable
  {
    var u := AppRouteUri(uri);
    var a := AppParseAction(action);
    RouteTable(
      Put(t.routes, verb + u, Route(verb, u, a)),
      if a.name.Some? then Put(t.named, a.name.value, u) else t.named)
  }

  /** After `addRoute`: the entry under `verb + "/" + trim(uri)` is the new
      route, a named action maps its name to the uri, every other entry is as
      it was, and the keys stay unique. */
  lemma AppAddRouteEffect(t: RouteTable, verb: string, uri: string, action: ActionInput)
    requires ValidTable(t)
    ensures var t' := AppAddRouteTo(t, verb, uri, action);
      var u := "/" + Trim(uri, '/');
      var a := AppParseAction(action);
      && ValidTable(t')
      && Get(t'.routes, verb + u) == Some(Route(verb, u, a))
      && (forall k :: k != verb + u ==> Get(t'.routes, k) == Get(t.routes, k))
      && (a.name.Some? ==> Get(t'.named, a.name.value) == Some(u))
      && (forall n :: (a.name.None? || n != a.name.value) ==> Get(t'.named, n) == Get(t.named, n))
  {
    var u := "/" + Trim(uri, '/');
    var a := AppParseAction(action);
    var t' := AppAddRouteTo(t, verb, uri, action);
    PutUnique(t.routes, verb + u, Route(verb, u, a));
    PutGet(t.routes, verb + u, Route(verb, u, a));
    forall k | k != verb + u ensures Get(t'.routes, k) == Get(t.routes, k) {
      PutOther(t.routes, verb + u, Route(verb, u, a), k);
    }
    if a.name.Some? {
      PutUnique(t.named, a.name.value, u);
      PutGet(t.named, a.name.value, u);
      forall n | n != a.name.value ensures Get(t'.named, n) == Get(t.named, n) {
        PutOther(t.named, a.name.value, u, n);
      }
    }
  }

  /** Registering the same route twice is the same as registering it once;
      the second write replaces the first in place. */
  lemma AppAddRouteTwice(t: RouteTable, verb: string, uri: string, action: ActionInput)
    ensures AppAddRouteTo(AppAddRouteTo(t, verb, uri, action), verb, uri, action) == AppAddRouteTo(t, verb, uri, action)
  {
    var u := AppRouteUri(uri);
    var a := AppParseAction(action);
    PutPut(t.routes, verb + u, Route(verb, u, a), Route(verb, u, a));
    if a.name.Some? {
      PutPut(t.named, a.name.value, u, u);
    }
  }

  /** The entries of a middleware short-hand: a string is split on `|`, a list is kept. */
  function MiddlewareEntries(m: MiddlewareSpec): seq<string>
  {
    match m
    case Piped(s) => Explode(s, '|')
    case Listed(names) => names
  }

  /** One entry `alias:params` of a short-hand: the alias is looked up in the
      route middleware (falling back to itself) and the parameters are put back
      when they are truthy. */
  function GatherOne(aliases: OMap<string, string>, entry: string): string
  {
    var (name, parameters) := SplitFirst(entry, ':');
    Get(aliases, name).GetOr(name) + (if parameters.Some? && Truthy(parameters.value) then ":" + parameters.value else "")
  }

  lemma SplitAtFirst(a: string, x: string, b: string, y: string)
    requires ':' !in a && ':' !in b
    requires a + [':'] + x == b + [':'] + y
    ensures a == b && x == y
  {
    var s := a + [':'] + x;
    assert s[|a|] == ':' && s[|b|] == ':';
    assert a == s[..|a|] && b == s[..|b|];
    assert x == s[|a| + 1..] && y == s[|b| + 1..];
  }

  /** An entry without `:` resolves to its alias target or to itself; an entry
      `name:params` resolves the part before the first `:` and keeps the rest
      after a `:`, except that empty and `"0"` parameters are dropped. */
  lemma {:induction false} GatherOneCases(aliases: OMap<string, string>, name: string, parameters: string)
    requires ':' !in name
    ensures GatherOne(aliases, name) == Get(aliases, name).GetOr(name)
    ensures GatherOne(aliases, name + ":" + parameters) ==
            Get(aliases, name).GetOr(name) + (if Truthy(parameters) then ":" + parameters else "")
  {
    var e := name + ":" + parameters;
    var (n, p) := SplitFirst(e, ':');
    assert e == name + [':'] + parameters;
    assert ':' in e by {
      assert e[|name|] == ':';
    }
    SplitAtFirst(n, p.value, name, parameters);
  }

  /** `gatherMiddlewareClassNames`: every entry of the short-hand, resolved, in order. */
  function GatherMiddlewareClassNames(aliases: OMap<string, string>, m: MiddlewareSpec): (r: seq<string>)
    ensures |r| == |MiddlewareEntries(m)|
    ensures forall i :: 0 <= i < |r| ==> r[i] == GatherOne(aliases, MiddlewareEntries(m)[i])
  {
    GatherAll(aliases, MiddlewareEntries(m))
  }

  function GatherAll(aliases: OMap<string, string>, entries: seq<string>): (r: seq<string>)
    ensures |r| == |entries|
    ensures forall i :: 0 <= i < |r| ==> r[i] == GatherOne(aliases, entries[i])
  {
    if entries == [] then [] else [GatherOne(aliases, entries[0])] + GatherAll(aliases, entries[1..])
  }

  /** A short-hand string without aliases, `:` or `|` passes through as the
      single class name it names. */
  lemma GatherPlainName(aliases: OMap<string, string>, name: string)
    requires ':' !in name && '|' !in name && name !in Keys(aliases)
    ensures GatherMiddlewareClassNames(aliases, Piped(name)) == [name]
  {
    ExplodeNoDelimiter(name, '|');
    GatherOneCases(aliases, name, "");
  }

  /** `sendThroughPipeline`: the middleware the request passes through, which is
      none when the list is empty or when `middleware.disable` is bound to
      `true` (`disable` is `None` when unbound, `Some(b)` when bound, with `b`
      telling whether the bound value is identical to `true`). */
  function ThroughPipeline(middleware: seq<string>, disable: Option<bool>): (r: seq<string>)
    ensures r == [] || r == middleware
    ensures r == middleware <==> (middleware == [] || disable != Some(true))
  {
    if |middleware| > 0 && !(disable.Some? && disable.value) then middleware else []
  }

  /** FastRoute's answer for a method and path. */
  datatype Verdict =
    | NotFound
    | MethodNotAllowed(allowed: seq<string>)
    | Found(action: Action, parameters: seq<(string, string)>)

  /** A route that is called: its action, its parameters and the route
      middleware the request passes through first. */
  datatype Dispatched = Dispatched(action: Action, parameters: seq<(string, string)>, routeMiddleware: seq<string>)

  /** The outcome of `dispatch`: the global middleware passed through, and the
      route called or the HTTP error handed to the exception handler. */
  datatype DispatchOutcome = DispatchOutcome(globalMiddleware: seq<string>, result: Result<Dispatched, HttpError>)

  /** `handleFoundRoute`: route middleware is gathered only when the action has some. */
  function HandleFoundRoute(aliases: OMap<string, string>, disable: Option<bool>,
                            action: Action, parameters: seq<(string, string)>): (r: Dispatched)
    ensures r.action == action && r.parameters == parameters
    ensures action.middleware.None? ==> r.routeMiddleware == []
    ensures action.middleware.Some? && disable != Some(true) ==>
      r.routeMiddleware == GatherMiddlewareClassNames(aliases, action.middleware.value)
  {
    var m := if action.middleware.Some? then GatherMiddlewareClassNames(aliases, action.middleware.value) else [];
    Dispatched(action, parameters, ThroughPipeline(m, disable))
  }

  /** `handleDispatcherResponse`. */
  function HandleDispatcherResponse(aliases: OMap<string, string>, disable: Option<bool>, v: Verdict): (r: Result<Dispatched, HttpError>)
    ensures v.NotFound? ==> r == Failure(NotFoundHttp(""))
    ensures v.MethodNotAllowed? ==> r == Failure(MethodNotAllowedHttp(v.allowed))
    ensures v.Found? ==> r.Success? && r.value.action == v.action && r.value.parameters == v.parameters
  {
    match v
    case NotFound => Failure(NotFoundHttp(""))
    case MethodNotAllowed(allowed) => Failure(MethodNotAllowedHttp(allowed))
    case Found(action, parameters) => Success(HandleFoundRoute(aliases, disable, action, parameters))
  }

  /** The decision inside `dispatch`: the static table first, FastRoute otherwise. */
  function DispatchDecision(routes: OMap<string, Route>, aliases: OMap<string, string>, global: seq<string>,
                            disable: Option<bool>, dispatcher: (string, string) -> Verdict,
                            verb: string, path: string): DispatchOutcome
  {
    var hit := Get(routes, verb + path);
    DispatchOutcome(
      ThroughPipeline(global, disable),
      if hit.Some? then Success(HandleFoundRoute(aliases, disable, hit.value.action, []))
      else HandleDispatcherResponse(aliases, disable, dispatcher(verb, path)))
  }

  /** A hit in the static table is called with no parameters and FastRoute is
      not consulted; on a miss, not-found becomes a 404 and a wrong method a 405
      listing the allowed methods. */
  lemma DispatchOrder(routes: OMap<string, Route>, aliases: OMap<string, string>, global: seq<string>,
                      disable: Option<bool>, d1: (string, string) -> Verdict, d2: (string, string) -> Verdict,
                      verb: string, path: string)
    ensures var o := DispatchDecision(routes, aliases, global, disable, d1, verb, path);
      && (verb + path in Keys(routes) ==>
            o == DispatchDecision(routes, aliases, global, disable, d2, verb, path)
            && o.result.Success? && o.result.value.parameters == []
            && o.result.value.action == Get(routes, verb + path).value.action)
      && (verb + path !in Keys(routes) && d1(verb, path).NotFound? ==>
            o.result.Failure? && StatusCode(o.result.error) == 404)
      && (verb + path !in Keys(routes) && d1(verb, path).MethodNotAllowed? ==>
            o.result == Failure(MethodNotAllowedHttp(d1(verb, path).allowed)) && StatusCode(o.result.error) == 405)
  {
  }

  /** `Application::sendExceptionToHandler`, the version `dispatch` calls:
      unlike the trait's, it resolves the handler contract without asking
      whether it is bound, so Lumen's own handler is never the fallback. */
  function AppSendExceptionToHandler(e: Throwable): (r: Handling)
    ensures r.handler == ContractKey && r.reported == Reported(e) && r.output == RenderedResponse
  {
    Handling(ContractKey, Reported(e), RenderedResponse)
  }

  /** `Application::handleUncaughtException`: as above, and in the console the
      throwable is echoed as a string instead of rendered for the console. */
  function AppHandleUncaughtException(e: Throwable, inConsole: bool): (r: Handling)
    ensures r.handler == ContractKey && r.reported == Reported(e)
    ensures r.output == if inConsole then EchoedString else SentResponse
  {
    Handling(ContractKey, Reported(e), if inConsole then EchoedString else SentResponse)
  }

  /** The application's handlers agree with the trait's exactly when the
      contract is bound and, for an uncaught exception, outside the console. */
  lemma AppHandlersAgainstTrait(e: Throwable, contractBound: bool, inConsole: bool)
    ensures AppSendExceptionToHandler(e) == SendExceptionToHandler(e, contractBound) <==> contractBound
    ensures AppHandleUncaughtException(e, inConsole) == HandleUncaughtException(e, contractBound, inConsole)
      <==> contractBound && !inConsole
  {
    assert ContractKey != LumenHandlerKey;
  }

  /** The container keys `Application::sendExceptionToHandler` resolves, in
      order: the handler, then the request it renders for. */
  const SendExceptionMakes: seq<string> := [ContractKey, "request"]

  /** The container keys `dispatch` resolves while it handles a request, in
      order: `request` for each middleware pipeline that runs (the global one,
      then the route's) and, when an HTTP error reaches the handler, the keys
      the handler resolves. */
  function DispatchMakes(o: DispatchOutcome): (r: seq<string>)
    ensures forall i :: 0 <= i < |r| ==> r[i] == "request" || r[i] == ContractKey
    ensures "request" in r <==>
      |o.globalMiddleware| > 0 || o.result.Failure? || |o.result.value.routeMiddleware| > 0
    ensures ContractKey in r <==> o.result.Failure?
  {
    var global := if |o.globalMiddleware| > 0 then ["request"] else [];
    match o.result
    case Success(d) => global + (if |d.routeMiddleware| > 0 then ["request"] else [])
    case Failure(_) => global + SendExceptionMakes
  }

  /** The binders behind the keys `dispatch` resolves: the request binder
      for `request` and the error binder for the handler contract. */
  lemma DispatchBinders(keys: seq<string>)
    requires forall i :: 0 <= i < |keys| ==> keys[i] == "request" || keys[i] == ContractKey
    ensures BinderSet(DefaultBindings, keys) ==
      (if "request" in keys then {RegisterRequestBindings} else {})
      + (if ContractKey in keys then {RegisterErrorBindings} else {})
  {
    assert DefaultBindings["request"] == RegisterRequestBindings;
    assert DefaultBindings[ContractKey] == RegisterErrorBindings;
  }

  /** The request data `getMethod` and `getPathInfo` read from `$_POST` and `$_SERVER`. */
  datatype ServerVars = ServerVars(postMethod: Option<string>, requestMethod: string,
                                   queryString: Option<string>, requestUri: string)

  /** `getMethod`: a `_method` form field overrides the request method, upper-cased. */
  function GetMethod(server: ServerVars): (r: string)
    ensures server.postMethod.Some? ==> r == ToUpper(server.postMethod.value)
    ensures server.postMethod.None? ==> r == server.requestMethod
  {
    if server.postMethod.Some? then ToUpper(server.postMethod.value) else server.requestMethod
  }

  /** `getPathInfo`: the request uri with `?query` removed (every `?` when there
      is no query string), trimmed of `/`, with one `/` in front. */
  function GetPathInfo(server: ServerVars): (r: string)
    ensures SlashPath(r)
  {
    var t := QueryStripped(server.requestUri, server.queryString.GetOr(""));
    SlashBeforeTrimmed(t);
    "/" + t
  }

  /** The request uri with `?query` removed, trimmed of `/`. */
  function QueryStripped(uri: string, query: string): (t: string)
    ensures NoEdge(t, '/')
  {
    Trim(StrReplace(uri, "?" + query, ""), '/')
  }

  lemma NoQuestionMarkNoMatch(path: string, x: string)
    requires '?' !in path && x != [] && x[0] == '?'
    ensures NoMatchBefore(path, x)
  {
    forall i | 0 <= i < |path| ensures !StartsWith((path + x)[i..], x) {
      assert (path + x)[i..][0] == path[i];
    }
  }

  /** For a request uri `path?query` whose path holds no `?`, the path info is
      the path trimmed of `/` with one `/` in front. */
  lemma GetPathInfoStripsQuery(server: ServerVars, path: string, query: string)
    requires '?' !in path
    requires server.queryString == Some(query) && server.requestUri == path + "?" + query
    ensures GetPathInfo(server) == "/" + Trim(path, '/')
  {
    var x := "?" + query;
    assert server.requestUri == path + x;
    assert server.queryString.GetOr("") == query;
    NoQuestionMarkNoMatch(path, x);
    StrReplaceAtEnd(path, x, "");
    assert path + "" == path;
  }

  /** `$path ? '/'.$path : $path`: a truthy path is joined with `/`, a missing one
      adds nothing, and a falsy string (`""` or `"0"`) is appended as it is. */
  function PathSuffix(path: Option<string>): (r: string)
    ensures path.Some? && Truthy(path.value) ==> r == "/" + path.value
    ensures path.None? ==> r == ""
    ensures path.Some? && !Truthy(path.value) ==> r == path.value
  {
    if path.Some? && Truthy(path.value) then "/" + path.value else path.GetOr("")
  }

  /** The base path `basePath` settles on: the one already set, or the working
      directory when running in the console and its parent otherwise
      (`realPathOfParent` is `realpath(getcwd().'/../')`, `""` when it fails). */
  function ResolvedBasePath(current: Option<string>, inConsole: bool, cwd: string, realPathOfParent: string): (r: string)
    ensures current.Some? ==> r == current.value
    ensures current.None? ==> r == if inConsole then cwd else realPathOfParent
  {
    if current.Some? then current.value else if inConsole then cwd else realPathOfParent
  }

  /** `storagePath`: the custom storage path when it is truthy, and
      `base/storage` otherwise. */
  function StoragePathOf(storage: Option<string>, base: string, path: Option<string>): (r: string)
    ensures storage.Some? && Truthy(storage.value) ==> r == storage.value + PathSuffix(path)
    ensures !(storage.Some? && Truthy(storage.value)) ==> r == base + "/storage" + PathSuffix(path)
  {
    if storage.Some? && Truthy(storage.value) then storage.value + PathSuffix(path)
    else base + "/storage" + PathSuffix(path)
  }

  /** The application's config directory: the custom config path when it is
      truthy, `base/config` otherwise. */
  function AppConfigDir(configPath: Option<string>, base: string): (r: string)
    ensures configPath.Some? && Truthy(configPath.value) ==> r == configPath.value
    ensures !(configPath.Some? && Truthy(configPath.value)) ==> r == base + "/config"
  {
    if configPath.Some? && Truthy(configPath.value) then configPath.value else base + "/config"
  }

  /** `getConfigurationPath($name)` given the application's config directory
      `dir`, the framework's own `framework` and `file_exists`: the file
      `name.php` (the directory itself, with a `/`, for a falsy name) in the
      application's directory when it exists, else in the framework's when
      that exists, else `None` for `null`. */
  function ConfigurationPath(dir: string, framework: string, name: string, fileExists: string -> bool): (r: Option<string>)
  {
    var entry := if Truthy(name) then "/" + name + ".php" else "/";
    if fileExists(dir + entry) then Some(dir + entry)
    else if fileExists(framework + entry) then Some(framework + entry)
    else None
  }

  /** The path found is an existing file in one of the two directories,
      the application's winning; nothing is found only when neither has it. */
  lemma ConfigurationPathFound(dir: string, framework: string, name: string, fileExists: string -> bool)
    ensures var r := ConfigurationPath(dir, framework, name, fileExists);
      var entry := if Truthy(name) then "/" + name + ".php" else "/";
      && (r.Some? ==> fileExists(r.value) && (r.value == dir + entry || r.value == framework + entry))
      && (r.None? <==> !fileExists(dir + entry) && !fileExists(framework + entry))
      && (fileExists(dir + entry) ==> r == Some(dir + entry))
  {
  }

  /** The elements of a sequence. */
  function Elements<T>(s: seq<T>): set<T>
  {
    set x | x in s
  }

  /** The keys of a sequence of run-once calls that do their work: each key the
      first time it is seen, unless it was done before. */
  function FirstTimes<T>(done: set<T>, keys: seq<T>): (r: seq<T>)
    ensures Distinct(r)
    ensures forall i :: 0 <= i < |r| ==> r[i] !in done && r[i] in keys
    ensures forall i :: 0 <= i < |keys| ==> keys[i] in done || keys[i] in r
    decreases |keys|
  {
    if keys == [] then []
    else
      var n := |keys|;
      var r := FirstTimes(done, keys[..n - 1]);
      var k := keys[n - 1];
      assert forall i :: 0 <= i < n - 1 ==> keys[i] == keys[..n - 1][i];
      if k in done || k in r then r else r + [k]
  }

  /** One more call extends the record by its key exactly when the key is new. */
  lemma FirstTimesStep<T>(done: set<T>, keys: seq<T>, k: T)
    ensures FirstTimes(done, keys + [k]) ==
      FirstTimes(done, keys) + (if k in done || k in keys then [] else [k])
  {
    var r := FirstTimes(done, keys);
    assert (keys + [k])[..|keys|] == keys;
    if k in keys {
      var i :| 0 <= i < |keys| && keys[i] == k;
      assert k in done || k in r;
    } else {
      assert k !in r;
    }
  }

  /** The binder methods the lazy bindings name, after the application's
      method names (`registerCacheBindings`, …). */
  datatype Binder =
    | RegisterCacheBindings
    | RegisterConfigBindings
    | RegisterDatabaseBindings
    | RegisterErrorBindings
    | RegisterFilesBindings
    | RegisterLogBindings
    | RegisterRequestBindings

  /** The binder method `make($abstract)` runs: the one registered for the key,
      unless it has run already. */
  function BinderToRun(bindings: map<string, Binder>, ran: set<Binder>, key: string): (r: Option<Binder>)
    ensures r.Some? <==> key in bindings && bindings[key] !in ran
    ensures r.Some? ==> r.value == bindings[key]
  {
    if key in bindings && bindings[key] !in ran then Some(bindings[key]) else None
  }

  /** The binders a sequence of `make` calls asks for, in order. */
  function BindersAskedFor(bindings: map<string, Binder>, keys: seq<string>): (r: seq<Binder>)
    ensures forall i :: 0 <= i < |r| ==> r[i] in bindings.Values
  {
    if keys == [] then []
    else BindersAskedFor(bindings, keys[..|keys| - 1]) +
         (if keys[|keys| - 1] in bindings then [bindings[keys[|keys| - 1]]] else [])
  }

  /** `make` on one more key runs exactly the binder that `FirstTimes` adds to
      the record of the earlier calls: a binder shared by several keys runs for
      the first of them only. */
  lemma MakeCallsRunOnce(bindings: map<string, Binder>, ran: set<Binder>, keys: seq<string>, k: string)
    ensures var r := FirstTimes(ran, BindersAskedFor(bindings, keys));
      var b := BinderToRun(bindings, ran + Elements(r), k);
      FirstTimes(ran, BindersAskedFor(bindings, keys + [k])) == r + (if b.Some? then [b.value] else [])
  {
    var asked := BindersAskedFor(bindings, keys);
    var r := FirstTimes(ran, asked);
    assert (keys + [k])[..|keys|] == keys;
    if k in bindings {
      var m := bindings[k];
      assert BindersAskedFor(bindings, keys + [k]) == asked + [m];
      FirstTimesStep(ran, asked, m);
      if m in asked {
        var i :| 0 <= i < |asked| && asked[i] == m;
        assert m in ran || m in r;
      }
      if m in r {
        var i :| 0 <= i < |r| && r[i] == m;
        assert m in asked;
      }
      assert (m in ran + Elements(r)) <==> m in ran || m in r;
    } else {
      assert BindersAskedFor(bindings, keys + [k]) == asked;
    }
  }

  /** The binder methods `Application` defines. */
  const DefinedBinders: set<Binder> := {
    RegisterConfigBindings, RegisterDatabaseBindings, RegisterErrorBindings,
    RegisterFilesBindings, RegisterLogBindings, RegisterRequestBindings}

  /** What one `make` call does to the binder record: nothing when no binder
      is due, the binder run and recorded, or a binder method that does not
      exist, whose call throws before anything is recorded. */
  datatype MakeStep =
    | Resolved
    | RanBinder(binder: Binder)
    | UndefinedBinder(binder: Binder)

  /** `make($abstract)` given the bindings, the binder methods that exist and
      the binders that ran. */
  function MakeEffect(bindings: map<string, Binder>, defined: set<Binder>, ran: set<Binder>, key: string): (r: MakeStep)
    ensures r.Resolved? <==> BinderToRun(bindings, ran, key).None?
    ensures r.RanBinder? <==> BinderToRun(bindings, ran, key).Some? && bindings[key] in defined
    ensures !r.Resolved? ==> r.binder == bindings[key]
  {
    var b := BinderToRun(bindings, ran, key);
    if b.None? then Resolved
    else if b.value in defined then RanBinder(b.value)
    else UndefinedBinder(b.value)
  }

  /** The binders registered for some of the keys. */
  function BinderSet(bindings: map<string, Binder>, keys: seq<string>): set<Binder>
  {
    set k | k in keys && k in bindings :: bindings[k]
  }

  /** The binders asked for are those registered for the keys. */
  lemma {:induction false} BindersAskedForSet(bindings: map<string, Binder>, keys: seq<string>)
    ensures Elements(BindersAskedFor(bindings, keys)) == BinderSet(bindings, keys)
    decreases |keys|
  {
    if keys != [] {
      var n := |keys|;
      var init := keys[..n - 1];
      BindersAskedForSet(bindings, init);
      assert keys == init + [keys[n - 1]];
      BinderSetSnoc(bindings, init, keys[n - 1]);
      assert Elements(BindersAskedFor(bindings, keys)) == Elements(BindersAskedFor(bindings, init)) +
        (if keys[n - 1] in bindings then {bindings[keys[n - 1]]} else {});
    }
  }

  /** One more key adds its binder, if it has one. */
  lemma BinderSetSnoc(bindings: map<string, Binder>, keys: seq<string>, k: string)
    ensures BinderSet(bindings, keys + [k]) == BinderSet(bindings, keys) + (if k in bindings then {bindings[k]} else {})
  {
  }

  /** What was done before, together with what a run of calls does for the
      first time, is everything done before or asked for. */
  lemma FirstTimesCover<T>(done: set<T>, keys: seq<T>)
    ensures done + Elements(FirstTimes(done, keys)) == done + Elements(keys)
  {
    var r := FirstTimes(done, keys);
    forall x | x in keys ensures x in done || x in r {
      var i :| 0 <= i < |keys| && keys[i] == x;
    }
    forall x | x in r ensures x in keys {
      var i :| 0 <= i < |r| && r[i] == x;
    }
  }

  /** One `make` of a key whose binder method exists extends the record of a
      run of calls as `FirstTimes` does. */
  lemma MakeStepRecord(bindings: map<string, Binder>, ran0: set<Binder>, keys: seq<string>, k: string,
                       ran: set<Binder>, defined: set<Binder>, step: MakeStep)
    requires ran == ran0 + BinderSet(bindings, keys)
    requires k in bindings ==> bindings[k] in defined
    requires step == MakeEffect(bindings, defined, ran, k)
    ensures ran + (if step.RanBinder? then {step.binder} else {}) == ran0 + BinderSet(bindings, keys + [k])
    ensures FirstTimes(ran0, BindersAskedFor(bindings, keys + [k])) ==
      FirstTimes(ran0, BindersAskedFor(bindings, keys)) + (if step.RanBinder? then [step.binder] else [])
  {
    var asked := BindersAskedFor(bindings, keys);
    FirstTimesCover(ran0, asked);
    BindersAskedForSet(bindings, keys);
    MakeCallsRunOnce(bindings, ran0, keys, k);
    BinderSetSnoc(bindings, keys, k);
  }

  /** The request binder recorded up front and the binders of the keys
      resolved afterwards make up the record `dispatch` leaves. */
  lemma DispatchRecord(ran: set<Binder>, given: bool, asked: bool, failed: bool)
    ensures ran + (if given then {RegisterRequestBindings} else {})
      + ((if asked then {RegisterRequestBindings} else {}) + (if failed then {RegisterErrorBindings} else {}))
      == ran + (if given || asked then {RegisterRequestBindings} else {}) + (if failed then {RegisterErrorBindings} else {})
  {
  }

  /** The lazy container bindings declared with the application. */
  const DefaultBindings: map<string, Binder> := map[
    "cache" := RegisterCacheBindings,
    "Illuminate\\Contracts\\Cache\\Factory" := RegisterCacheBindings,
    "Illuminate\\Contracts\\Cache\\Repository" := RegisterCacheBindings,
    "config" := RegisterConfigBindings,
    "db" := RegisterDatabaseBindings,
    "Illuminate\\Database\\Eloquent\\Factory" := RegisterDatabaseBindings,
    "Illuminate\\Contracts\\Debug\\ExceptionHandler" := RegisterErrorBindings,
    "files" := RegisterFilesBindings,
    "filesystem" := RegisterFilesBindings,
    "log" := RegisterLogBindings,
    "Psr\\Log\\LoggerInterface" := RegisterLogBindings,
    "request" := RegisterRequestBindings,
    "Illuminate\\Http\\Request" := RegisterRequestBindings]

  /** Resolving `log` and then the logger contract runs the log binder once:
      the second key shares the binder the first one ran. */
  lemma SharedBinderRunsOnce(ran: set<Binder>)
    requires RegisterLogBindings !in ran
    ensures MakeEffect(DefaultBindings, DefinedBinders, ran, "log") == RanBinder(RegisterLogBindings)
    ensures MakeEffect(DefaultBindings, DefinedBinders, ran + {RegisterLogBindings}, "Psr\\Log\\LoggerInterface") == Resolved
  {
  }

  /** The three cache keys name a binder method the application does not
      define, so resolving any of them throws and records nothing, however
      often it is tried: the cache binder can never run. */
  lemma CacheBinderUndefined(ran: set<Binder>, key: string)
    requires key in {"cache", "Illuminate\\Contracts\\Cache\\Factory", "Illuminate\\Contracts\\Cache\\Repository"}
    requires RegisterCacheBindings !in ran
    ensures MakeEffect(DefaultBindings, DefinedBinders, ran, key) == UndefinedBinder(RegisterCacheBindings)
  {
  }

  /** `config` runs the config binder, unless it has run. */
  lemma ConfigBinderDefined(ran: set<Binder>)
    ensures MakeEffect(DefaultBindings, DefinedBinders, ran, "config") ==
      if RegisterConfigBindings in ran then Resolved else RanBinder(RegisterConfigBindings)
  {
  }

  /** Every other declared binding names a binder method that exists. */
  lemma OtherBindersDefined(key: string)
    requires key in DefaultBindings && DefaultBindings[key] != RegisterCacheBindings
    ensures DefaultBindings[key] in DefinedBinders
  {
  }

  /** The binder methods as evidently intended: the declared cache binder
      exists as well. */
  const IntendedBinders: set<Binder> := DefinedBinders + {RegisterCacheBindings}

  /** With the intended binder methods no `make` call fails, and `cache` runs
      the cache binder once for all three cache keys. */
  lemma IntendedCacheBinderRuns(ran: set<Binder>, key: string)
    ensures !MakeEffect(DefaultBindings, IntendedBinders, ran, key).UndefinedBinder?
    ensures RegisterCacheBindings !in ran ==>
      MakeEffect(DefaultBindings, IntendedBinders, ran, "cache") == RanBinder(RegisterCacheBindings)
    ensures MakeEffect(DefaultBindings, IntendedBinders, ran + {RegisterCacheBindings}, "Illuminate\\Contracts\\Cache\\Factory") == Resolved
    ensures MakeEffect(DefaultBindings, IntendedBinders, ran + {RegisterCacheBindings}, "Illuminate\\Contracts\\Cache\\Repository") == Resolved
  {
    if key in DefaultBindings {
      assert DefaultBindings[key] in DefaultBindings.Values;
      assert DefaultBindings.Values <= IntendedBinders;
    }
  }

  class Application {
    var routes: OMap<string, Route>
    var namedRoutes: OMap<string, string>
    var middleware: seq<string>
    var routeMiddleware: OMap<string, string>
    var loadedProviders: set<string>
    var loadedConfigurations: set<string>
    var ranServiceBinders: set<Binder>
    /** The lazy container bindings; the model never rebinds them. */
    const availableBindings: map<string, Binder> := DefaultBindings
    var basePath: Option<string>
    var storagePath: Option<string>
    var configPath: Option<string>
    /** The provider classes whose `register` and `boot` ran, in order. */
    ghost var providersRun: seq<string>
    /** The binder methods that ran, in order. */
    ghost var bindersRun: seq<Binder>

    ghost predicate Valid()
      reads this
    {
      && UniqueKeys(routes) && UniqueKeys(namedRoutes) && UniqueKeys(routeMiddleware)
      && Distinct(middleware)
      && Distinct(providersRun)
      && (forall i :: 0 <= i < |providersRun| ==> providersRun[i] in loadedProviders)
      && (forall p :: p in loadedProviders ==> p in providersRun)
      && Distinct(bindersRun)
      && (forall i :: 0 <= i < |bindersRun| ==> bindersRun[i] in ranServiceBinders)
    }

    function Table(): RouteTable
      reads this
    {
      RouteTable(routes, namedRoutes)
    }

    constructor (base: Option<string>)
      ensures Valid()
      ensures routes == [] && namedRoutes == [] && middleware == [] && routeMiddleware == []
      ensures loadedProviders == {} && loadedConfigurations == {} && ranServiceBinders == {}
      ensures availableBindings == DefaultBindings && basePath == base && storagePath == None && configPath == None
    {
      routes, namedRoutes, middleware, routeMiddleware := [], [], [], [];
      loadedProviders, loadedConfigurations, ranServiceBinders := {}, {}, {};
      basePath, storagePath, configPath := base, None, None;
      providersRun, bindersRun := [], [];
    }

    /** `Application::addRoute`. */
    method AddRoute(verb: string, uri: string, action: ActionInput)
      requires Valid()
      modifies this`routes, this`namedRoutes
      ensures Valid()
      ensures Table() == AppAddRouteTo(old(Table()), verb, uri, action)
    {
      ghost var t := Table();
      var a := AppParseAction(action);
      var u := "/" + Trim(uri, '/');
      if a.name.Some? {
        namedRoutes := Put(namedRoutes, a.name.value, u);
      }
      routes := Put(routes, verb + u, Route(verb, u, a));
      AppAddRouteEffect(t, verb, uri, action);
    }

    /** `Application::middleware`: the list is extended and de-duplicated,
      keeping each class at its first position. */
    method Middleware(added: seq<string>)
      requires Valid()
      modifies this`middleware
      ensures Valid()
      ensures middleware == ArrayUnique(old(middleware) + added)
    {
      middleware := ArrayUnique(middleware + added);
    }

    /** `Application::routeMiddleware`: later aliases replace earlier ones. */
    method RouteMiddleware(added: OMap<string, string>)
      requires Valid()
      modifies this`routeMiddleware
      ensures Valid()
      ensures routeMiddleware == Merge(old(routeMiddleware), added)
    {
      routeMiddleware := Merge(routeMiddleware, added);
      MergeUnique(old(routeMiddleware), added);
    }

    /** `Application::register` for a provider class: the provider registers
      and boots only the first time its class is seen. */
    method Register(provider: string) returns (ran: bool)
      requires Valid()
      modifies this`loadedProviders, this`providersRun
      ensures Valid()
      ensures ran <==> provider !in old(loadedProviders)
      ensures loadedProviders == old(loadedProviders) + {provider}
      ensures providersRun == old(providersRun) + (if ran then [provider] else [])
    {
      if provider in loadedProviders {
        return false;
      }
      loadedProviders := loadedProviders + {provider};
      providersRun := providersRun + [provider];
      ran := true;
    }

    /** `Application::make`, binder bookkeeping only: the binder method for the
      key runs when it has not run yet and is then recorded; a binder method
      the application does not define throws before it is recorded. */
    method Make(key: string) returns (step: MakeStep)
      requires Valid()
      modifies this`ranServiceBinders, this`bindersRun
      ensures Valid()
      ensures step == MakeEffect(availableBindings, DefinedBinders, old(ranServiceBinders), key)
      ensures ranServiceBinders == old(ranServiceBinders) + (if step.RanBinder? then {step.binder} else {})
      ensures bindersRun == old(bindersRun) + (if step.RanBinder? then [step.binder] else [])
    {
      step := Resolved;
      if key in availableBindings && availableBindings[key] !in ranServiceBinders {
        var m := availableBindings[key];
        if m !in DefinedBinders {
          return UndefinedBinder(m);
        }
        bindersRun := bindersRun + [m];
        ranServiceBinders := ranServiceBinders + {m};
        step := RanBinder(m);
      }
    }

    /** `make` on each key in turn, for keys whose binder methods exist: each
      binder runs for the first key that needs it. */
    method MakeAll(keys: seq<string>)
      requires Valid()
      requires forall k :: k in keys && k in availableBindings ==> availableBindings[k] in DefinedBinders
      modifies this`ranServiceBinders, this`bindersRun
      ensures Valid()
      ensures ranServiceBinders == old(ranServiceBinders) + BinderSet(availableBindings, keys)
      ensures bindersRun == old(bindersRun) + FirstTimes(old(ranServiceBinders), BindersAskedFor(availableBindings, keys))
      decreases |keys|
    {
      if keys == [] {
        assert BindersAskedFor(availableBindings, keys) == [];
        return;
      }
      ghost var ran0, run0 := ranServiceBinders, bindersRun;
      var n := |keys|;
      MakeAll(keys[..n - 1]);
      ghost var ran := ranServiceBinders;
      var step := Make(keys[n - 1]);
      MakeStepRecord(availableBindings, ran0, keys[..n - 1], keys[n - 1], ran, DefinedBinders, step);
      ConcatAssoc(run0, FirstTimes(ran0, BindersAskedFor(availableBindings, keys[..n - 1])),
                  if step.RanBinder? then [step.binder] else []);
      assert keys == keys[..n - 1] + [keys[n - 1]];
    }

    /** `Application::useConfigPath`. */
    method UseConfigPath(path: string)
      modifies this`configPath
      ensures configPath == Some(path)
    {
      configPath := Some(path);
    }

    /** `Application::useStoragePath`. */
    method UseStoragePath(path: string)
      modifies this`storagePath
      ensures storagePath == Some(path)
    {
      storagePath := Some(path);
    }

    /** `Application::getConfigurationPath($name)`: the application's config
      directory is the custom config path when it is truthy and otherwise
      `basePath('config')`, which fixes the base path. */
    method GetConfigurationPath(name: string, fileExists: string -> bool, framework: string,
                                inConsole: bool, cwd: string, realPathOfParent: string) returns (path: Option<string>)
      modifies this`basePath
      ensures path == ConfigurationPath(
        AppConfigDir(configPath, ResolvedBasePath(old(basePath), inConsole, cwd, realPathOfParent)),
        framework, name, fileExists)
      ensures configPath.Some? && Truthy(configPath.value) ==> basePath == old(basePath)
      ensures !(configPath.Some? && Truthy(configPath.value)) ==>
        basePath == Some(ResolvedBasePath(old(basePath), inConsole, cwd, realPathOfParent))
    {
      ghost var resolved := ResolvedBasePath(basePath, inConsole, cwd, realPathOfParent);
      var dir;
      if configPath.Some? && Truthy(configPath.value) {
        dir := configPath.value;
      } else {
        dir := BasePath(Some("config"), inConsole, cwd, realPathOfParent);
      }
      assert dir == AppConfigDir(configPath, resolved);
      path := ConfigurationPath(dir, framework, name, fileExists);
    }

    /** `make('config')`, which runs the config binder unless it has run. */
    method MakeConfig()
      requires Valid()
      modifies this`ranServiceBinders, this`bindersRun
      ensures Valid()
      ensures ranServiceBinders == old(ranServiceBinders) + {RegisterConfigBindings}
      ensures bindersRun == old(bindersRun) +
        (if RegisterConfigBindings in old(ranServiceBinders) then [] else [RegisterConfigBindings])
    {
      ConfigBinderDefined(ranServiceBinders);
      var _ := Make("config");
    }

    /** `Application::configure`: the first call for a name marks it loaded,
      looks the file up in the config directory (which may fix the base path)
      and, when `getConfigurationPath` finds one, loads it into the `config`
      binding, which runs the config binder when that has not run.
      `fileExists` is `file_exists` and `framework` the framework's own
      config directory. */
    method Configure(name: string, fileExists: string -> bool, framework: string,
                     inConsole: bool, cwd: string, realPathOfParent: string) returns (loaded: bool)
      requires Valid()
      modifies this`loadedConfigurations, this`ranServiceBinders, this`bindersRun, this`basePath
      ensures Valid()
      ensures loadedConfigurations == old(loadedConfigurations) + {name}
      ensures var dir := AppConfigDir(configPath, ResolvedBasePath(old(basePath), inConsole, cwd, realPathOfParent));
        loaded <==> name !in old(loadedConfigurations) && ConfigurationPath(dir, framework, name, fileExists).Some?
      ensures name in old(loadedConfigurations) || (configPath.Some? && Truthy(configPath.value)) ==>
        basePath == old(basePath)
      ensures name !in old(loadedConfigurations) && !(configPath.Some? && Truthy(configPath.value)) ==>
        basePath == Some(ResolvedBasePath(old(basePath), inConsole, cwd, realPathOfParent))
      ensures !loaded ==> ranServiceBinders == old(ranServiceBinders) && bindersRun == old(bindersRun)
      ensures loaded ==> ranServiceBinders == old(ranServiceBinders) + {RegisterConfigBindings}
      ensures loaded ==>
        bindersRun == old(bindersRun) + (if RegisterConfigBindings in old(ranServiceBinders) then [] else [RegisterConfigBindings])
    {
      if name in loadedConfigurations {
        return false;
      }
      loadedConfigurations := loadedConfigurations + {name};
      var path := GetConfigurationPath(name, fileExists, framework, inConsole, cwd, realPathOfParent);
      loaded := false;
      if path.Some? {
        MakeConfig();
        loaded := true;
      }
    }

    /** A request handed to `dispatch` is bound as the request instance, so
      the request binder counts as run without running. */
    method MarkRequestBinderRun()
      requires Valid()
      modifies this`ranServiceBinders
      ensures Valid()
      ensures ranServiceBinders == old(ranServiceBinders) + {RegisterRequestBindings}
    {
      ranServiceBinders := ranServiceBinders + {RegisterRequestBindings};
      assert forall i :: 0 <= i < |bindersRun| ==> bindersRun[i] in ranServiceBinders;
    }

    /** The body of `dispatch` between the request and the handler: the
      global pipeline around the static table lookup, with FastRoute on a
      miss. */
    method Decide(verb: string, path: string, disable: Option<bool>, dispatcher: (string, string) -> Verdict)
      returns (o: DispatchOutcome)
      ensures o == DispatchDecision(routes, routeMiddleware, middleware, disable, dispatcher, verb, path)
    {
      ghost var decision := DispatchDecision(routes, routeMiddleware, middleware, disable, dispatcher, verb, path);
      var global := ThroughPipeline(middleware, disable);
      var hit := Get(routes, verb + path);
      if hit.Some? {
        o := DispatchOutcome(global, Success(HandleFoundRoute(routeMiddleware, disable, hit.value.action, [])));
      } else {
        o := DispatchOutcome(global, HandleDispatcherResponse(routeMiddleware, disable, dispatcher(verb, path)));
      }
      assert o == decision;
    }

    /** The binder record `dispatch` leaves: a given request marks the request
      binder as run, and the keys resolved on the way (`request` for each
      pipeline that runs, the handler and `request` for an HTTP error) run
      their binders in that order. */
    method RecordDispatch(given: bool, o: DispatchOutcome)
      requires Valid()
      modifies this`ranServiceBinders, this`bindersRun
      ensures Valid()
      ensures ranServiceBinders == old(ranServiceBinders)
        + (if given || "request" in DispatchMakes(o) then {RegisterRequestBindings} else {})
        + (if o.result.Failure? then {RegisterErrorBindings} else {})
      ensures bindersRun == old(bindersRun) + FirstTimes(
        old(ranServiceBinders) + (if given then {RegisterRequestBindings} else {}),
        BindersAskedFor(availableBindings, DispatchMakes(o)))
    {
      if given {
        MarkRequestBinderRun();
      }
      ghost var marked := ranServiceBinders;
      assert marked == old(ranServiceBinders) + (if given then {RegisterRequestBindings} else {});
      var keys := DispatchMakes(o);
      DispatchBinders(keys);
      MakeAll(keys);
      assert bindersRun == old(bindersRun) + FirstTimes(marked, BindersAskedFor(availableBindings, keys));
      DispatchRecord(old(ranServiceBinders), given, "request" in keys, ContractKey in keys);
    }

    /** `Application::dispatch`: the method and path come from the given
      request or from the server data. The container keys resolved on the way
      do not influence the outcome, so their record is written once the
      outcome is known. */
    method Dispatch(request: Option<(string, string)>, server: ServerVars, disable: Option<bool>,
                    dispatcher: (string, string) -> Verdict) returns (o: DispatchOutcome)
      requires Valid()
      modifies this`ranServiceBinders, this`bindersRun
      ensures Valid()
      ensures var verb := if request.Some? then request.value.0 else GetMethod(server);
        var path := if request.Some? then request.value.1 else GetPathInfo(server);
        o == DispatchDecision(routes, routeMiddleware, middleware, disable, dispatcher, verb, path)
      ensures ranServiceBinders == old(ranServiceBinders)
        + (if request.Some? || "request" in DispatchMakes(o) then {RegisterRequestBindings} else {})
        + (if o.result.Failure? then {RegisterErrorBindings} else {})
      ensures bindersRun == old(bindersRun) + FirstTimes(
        old(ranServiceBinders) + (if request.Some? then {RegisterRequestBindings} else {}),
        BindersAskedFor(availableBindings, DispatchMakes(o)))
    {
      var verb, path;
      if request.Some? {
        verb, path := request.value.0, request.value.1;
      } else {
        verb, path := GetMethod(server), GetPathInfo(server);
      }
      o := Decide(verb, path, disable, dispatcher);
      RecordDispatch(request.Some?, o);
    }

    /** `Application::basePath`: the base path is fixed on first use. */
    method BasePath(path: Option<string>, inConsole: bool, cwd: string, realPathOfParent: string) returns (r: string)
      modifies this`basePath
      ensures basePath == Some(ResolvedBasePath(old(basePath), inConsole, cwd, realPathOfParent))
      ensures r == basePath.value + PathSuffix(path)
    {
      if basePath.None? {
        basePath := Some(if inConsole then cwd else realPathOfParent);
      }
      r := basePath.value + PathSuffix(path);
    }

    /** `Application::storagePath`. */
    method StoragePath(path: Option<string>, inConsole: bool, cwd: string, realPathOfParent: string) returns (r: string)
      modifies this`basePath
      ensures storagePath.Some? && Truthy(storagePath.value) ==> basePath == old(basePath)
      ensures !(storagePath.Some? && Truthy(storagePath.value)) ==>
        basePath == Some(ResolvedBasePath(old(basePath), inConsole, cwd, realPathOfParent))
      ensures r == StoragePathOf(storagePath, ResolvedBasePath(old(basePath), inConsole, cwd, realPathOfParent), path)
    {
      if storagePath.Some? && Truthy(storagePath.value) {
        return storagePath.value + PathSuffix(path);
      }
      ghost var resolved := ResolvedBasePath(basePath, inConsole, cwd, realPathOfParent);
      var base := BasePath(None, inConsole, cwd, realPathOfParent);
      assert PathSuffix(None) == "" && resolved + "" == resolved;
      assert base == resolved;
      r := base + "/storage" + PathSuffix(path);
      assert r == StoragePathOf(storagePath, resolved, path);
    }
  }

  /** Once fixed, the base path no longer depends on where the process runs. */
  lemma BasePathStable(current: Option<string>, inConsole: bool, cwd: string, parent: string,
                       inConsole': bool, cwd': string, parent': string)
    ensures var b := ResolvedBasePath(current, inConsole, cwd, parent);
      ResolvedBasePath(Some(b), inConsole', cwd', parent') == b
  {
  }

  /** Adding global middleware twice is adding it once; de-duplicating in
      between makes no difference to the final list. */
  lemma MiddlewareIdempotent(current: seq<string>, added: seq<string>, more: seq<string>)
    ensures ArrayUnique(ArrayUnique(current + added) + added) == ArrayUnique(current + added)
    ensures ArrayUnique(ArrayUnique(current + added) + more) == ArrayUnique(current + added + more)
  {
    var u := ArrayUnique(current + added);
    forall x | x in added ensures x in u {
      var i :| 0 <= i < |added| && added[i] == x;
      assert (current + added)[|current| + i] == x;
    }
    ArrayUniqueAbsorbs(u, added);
    ArrayUniqueOfUnique(current + added, more);
  }
}
