# A verified model of the Lumen framework's own bookkeeping

Lumen is a micro-framework for PHP. Most of its work is done by other
libraries: FastRoute matches requests, the Illuminate container builds
services, and Symfony builds responses. What Lumen writes itself is a layer
of route tables, group attributes, string and path handling, and small decision
tables. This project models that layer in Dafny and proves what it promises.

- **Routing** (`router.dfy`, module `Routing`). The router keeps a stack of
  group attributes. It pushes and pops that stack around a group callback,
  merges nested groups, and writes routes into a `verb + uri` table and a
  name → uri table.
- **Application** (`application.dfy`, module `LumenApplication`). This covers:
  - the application's own route table;
  - global and route middleware;
  - parsing middleware short-hands;
  - provider registration and config loading, each of which runs once;
  - lazily run service binders, including a declared binder whose method
    does not exist;
  - the dispatch decision: static table first, then the FastRoute verdict,
    and the binders that resolving `request` and the exception handler runs
    on the way;
  - the application's own `sendExceptionToHandler` and
    `handleUncaughtException`;
  - base and storage paths.
- **Exception handling** (`exception_handlers.dfy`, module `ExceptionHandlers`).
  This covers `abort`, `isFatalError`, the error-handler closure, and the
  handler choices in `handleShutdown`, `sendExceptionToHandler` and
  `resolveExceptionHandler`.
- **URL generation** (`url_generator.dfy`, module `Urls`). This covers:
  - `to` and `asset`;
  - `route` with `{name}` / `{name:pattern}` placeholders and a trailing
    optional `[...]` segment;
  - removing `index.php`;
  - the cached and forced scheme and root.
- **Test request helpers** (`http_requests.dfy`, module `TestRequests`).
  Header names become `$_SERVER` keys, the request uri is prepared, and the
  default headers of a JSON request are merged in.
- **Controller middleware** (`controller.dfy`, module `Controllers`) and the
  **response-factory registry** (`response_factory.dfy`, module
  `ResponseFactories`).

Shared modules:

- `wrappers.dfy`: `Option` and `Result`
- `php_strings.dfy`: the PHP string functions used, such as `trim`, `explode`,
  `implode`, `str_replace` and `strtoupper`
- `php_arrays.dfy`: PHP arrays as ordered maps `seq<(K, V)>`, with `$a[$k] = $v`,
  `unset`, `array_merge` and `array_unique`
- `route_actions.dfy`: the route action arrays shared by the router and the
  application

The model follows the PHP code. Where the code as written does not do what
it evidently means to, the code is still modelled as written and the
intended version sits beside it. See "## Findings".

PHP arrays are ordered. Assigning to an existing key keeps that key's position.
A new key goes at the end. `array_merge` lets later string keys win, and
`array_unique` keeps the first occurrence of each value. The `OMap`
functions in `php_arrays.dfy` follow these rules. Values that PHP tests for
truth (`?:`, `if ($x)`) are strings that are truthy when neither `""` nor `"0"`.

## Model

| member | source | states |
|---|---|---|
| Routing.NormalizeGroup | src/Routing/Router.php:56-58 | A group's `middleware` string is replaced by its `|`-split list and no other attribute changes. |
| RouteActions.SplitMiddleware | src/Routing/Router.php:216-218 | The split is a list whose pieces contain no `|` and join back with `|` into the original string. A list is left as it is. |
| Routing.Router.Group | src/Routing/Router.php:54-65 | The group stack afterwards is exactly the stack before the call. The tables are those the callback's registrations produce under the pushed group. |
| Routing.Router.UpdateGroupStack | src/Routing/Router.php:73-80 | The first group is pushed unchanged. A nested group is pushed merged with the top of the stack. |
| Routing.PushGroup | src/Routing/Router.php:73-80 | The stack grows by one and the old stack is a prefix of the new one. The top is the normalised group, merged with the former top when the stack was not empty. |
| Routing.MergeWithEmptyGroup | src/Routing/Router.php:116-119 | Merging an empty attribute set onto the top group gives back that group. |
| Routing.MergeRecursive | src/Routing/Router.php:107 | Middleware present on both sides is concatenated, the enclosing group's first. A side without middleware contributes nothing. |
| Routing.NestedGroupAttributes | src/Routing/Router.php:89-108 | Nested names are joined by `.` and enclosing middleware comes first. Suffix and domain are inherited unless the inner group has its own. |
| Routing.NestedPrefix | src/Routing/Router.php:146-155 | Nested prefixes `p` and `q` give `p/q`. A group without a prefix keeps the enclosing one. |
| Routing.NestedNamespace | src/Routing/Router.php:128-137 | A group without a namespace inherits the enclosing one unchanged. A namespace starting with `\` replaces the enclosing one, trimmed of `\`. Any other namespace is appended after `\`. With no enclosing namespace, the group's own is used trimmed. |
| Routing.ParseAction | src/Routing/Router.php:208-221 | A string becomes `uses`, a closure becomes the closure entry, and an array is kept with its middleware split into a list. |
| Routing.PrependGroupNamespace | src/Routing/Router.php:277-281 | A class starting with `\` or having no namespace is unchanged. Otherwise it becomes `namespace\class`. |
| Routing.MergeGroupAttributes | src/Routing/Router.php:240-252 | Merging group attributes never changes the action's closure. |
| Routing.GroupAttributesOnAction | src/Routing/Router.php:240-321 | Group middleware precedes the action's own. A truthy group name is put before the action's name with `.`. A `uses` class starting with `\` is never given the namespace, and any other is put under it. |
| Routing.RouteUri | src/Routing/Router.php:175-187 | The stored uri starts with `/`. It has no trailing `/` and no second leading `/`, except for the root `/`. |
| Routing.PrefixedRouteUri | src/Routing/Router.php:176-178 | Under prefix `p`, uri `u` is stored as `/trim(p)/trim(u)`, or as `/trim(p)` when `u` trims to nothing. |
| Routing.PrefixedSegmentUri | src/Routing/Router.php:165-200 | Inside a single group with prefix `p`, route `u` is stored under `/p/u`. |
| Routing.PrefixedSlashSegmentUri | src/Routing/Router.php:165-200 | Inside a single group with prefix `p`, route `/u` is also stored under `/p/u`. |
| Routing.PrefixedRootUri | src/Routing/Router.php:165-200 | Inside a single group with prefix `p`, route `/` is stored under `/p`. |
| Routing.UserGroupStack | tests/FullApplicationTest.php:97-104 | The stack of a `prefix => user` group has that prefix as its current attributes. |
| Routing.GroupPrefixIndexExample | tests/FullApplicationTest.php:97-126 | Route `/` inside the `user` group is stored as `/user`. |
| Routing.GroupPrefixProfileExample | tests/FullApplicationTest.php:97-126 | Route `profile` inside the `user` group is stored as `/user/profile`. |
| Routing.GroupPrefixShowExample | tests/FullApplicationTest.php:97-126 | Route `/show` inside the `user` group is stored as `/user/show`. |
| Routing.AbsoluteUsesKept | src/Routing/Router.php:277-281 | A `uses` class starting with `\` is stored as written whatever the enclosing groups. |
| Routing.PutVerbsEntry | src/Routing/Router.php:193-199 | Every verb of the list has its own entry under `verb + uri` holding that verb, the uri and the action. |
| Routing.PutVerbsOther | src/Routing/Router.php:193-199 | A key that is not `verb + uri` for any listed verb keeps its entry. |
| Routing.PutVerbsUnique | src/Routing/Router.php:193-199 | Writing the verbs keeps the route table free of duplicate keys. |
| Routing.AddRouteEffect | src/Routing/Router.php:165-200 | After `addRoute`, each verb maps `verb + uri` to the new route and no other key changes. A named action maps its name to the uri and leaves other names unchanged. Both tables keep unique keys. |
| Routing.RunScriptValid | src/Routing/Router.php:54-65 | Any sequence of registrations keeps both tables' keys unique. |
| Routing.Router.constructor | src/Routing/Router.php:21-45 | A new router has an empty group stack and empty tables. |
| Routing.Router.Run | src/Routing/Router.php:62 | Running the callback's registrations leaves the group stack as it was. The tables become those the registrations produce. |
| Routing.Router.HasGroupStack | src/Routing/Router.php:228-231 | True exactly when the group stack is not empty. |
| Routing.Router.AddRoute | src/Routing/Router.php:165-200 | The new tables are `AddRouteTo` of the old ones under the current group stack. The group stack is unchanged. |
| Routing.Router.StoreRoute | src/Routing/Router.php:189-199 | The name is recorded when the action has one, and then one entry is written per verb. |
| Routing.Router.GetRoutes | src/Routing/Router.php:426-429 | Returns the route table. |
| LumenApplication.AppParseAction | src/Application.php:752-761 | A string becomes `uses`, a closure becomes the closure entry, and an array is returned unchanged. |
| LumenApplication.AppRouteUri | src/Application.php:737 | The stored uri is `/` followed by the uri trimmed of `/`. |
| LumenApplication.AppAddRouteEffect | src/Application.php:733-744 | After `addRoute`, `verb/trim(uri)` holds the new route and every other key is unchanged. A named action maps its name to the uri. Keys stay unique. |
| LumenApplication.AppAddRouteTwice | src/Application.php:733-744 | Adding the same route twice gives the same tables as adding it once. |
| LumenApplication.Application.constructor | src/Application.php:156-163 | A new application has an empty route table and empty middleware, no providers, configurations or binders, no custom storage or config path, and the default lazy bindings. |
| LumenApplication.Application.AddRoute | src/Application.php:733-744 | The tables become `AppAddRouteTo` of the old ones. |
| LumenApplication.Application.Middleware | src/Application.php:769-774 | The global middleware becomes the duplicate-free union of the old list and the new one, keeping first occurrences in order. |
| LumenApplication.MiddlewareIdempotent | src/Application.php:769-774 | Adding the same middleware again changes nothing, and de-duplicating between additions makes no difference. |
| LumenApplication.Application.RouteMiddleware | src/Application.php:782-787 | Route aliases are merged so that later aliases replace earlier ones. |
| LumenApplication.GatherOneCases | src/Application.php:978-982 | An entry without `:` resolves to its alias target or to itself. For `name:params`, the name is resolved and a truthy `:params` is kept. |
| LumenApplication.GatherMiddlewareClassNames | src/Application.php:974-983 | The result has one resolved entry per short-hand entry, in order. |
| LumenApplication.GatherPlainName | src/Application.php:974-983 | A plain name without alias, `:` or `|` passes through unchanged. |
| LumenApplication.ThroughPipeline | src/Application.php:992-1005 | The request passes through all middleware unless the list is non-empty and middleware is disabled. |
| LumenApplication.HandleFoundRoute | src/Application.php:924-942 | The found action and parameters are kept. Route middleware is gathered only when the action has some and middleware is enabled. |
| LumenApplication.HandleDispatcherResponse | src/Application.php:904-916 | Not-found becomes a 404 error, and method-not-allowed becomes a 405 error listing the allowed methods. Found calls the action with its parameters. |
| LumenApplication.DispatchOrder | src/Application.php:843-871 | A static-table hit ignores the dispatcher and is called with no parameters. On a miss, not-found gives 404 and a wrong method gives 405. |
| LumenApplication.Application.Dispatch | src/Application.php:843-871 | The outcome is the dispatch decision for the request's method and path, or the server's. The request binder is recorded when a request is given or a pipeline or the handler resolves `request`. The error binder is recorded exactly when an HTTP error reaches the handler. The binders that run are those `FirstTimes` gives for the keys resolved, in order. |
| LumenApplication.Application.Decide | src/Application.php:857-866 | The global pipeline around the static-table lookup and the FastRoute fallback gives the dispatch decision. |
| LumenApplication.Application.RecordDispatch | src/Application.php:845-870 | A given request records the request binder. The keys resolved afterwards record the request binder when `request` is among them and the error binder when the handler contract is. |
| LumenApplication.Application.MarkRequestBinderRun | src/Application.php:845-847 | A given request marks the request binder as run without running it. |
| LumenApplication.DispatchMakes | src/Application.php:843-1005 | `dispatch` resolves only `request` and the handler contract. `request` is resolved exactly when the global or the route pipeline runs or an HTTP error reaches the handler, and the handler contract exactly on an HTTP error. |
| LumenApplication.DispatchBinders | src/Application.php:1177-1191 | `request` is behind the request binder and the handler contract behind the error binder. |
| LumenApplication.DispatchRecord | src/Application.php:843-871 | The request binder recorded up front and the binders of the later keys add up to the record `dispatch` leaves. |
| LumenApplication.AppSendExceptionToHandler | src/Application.php:374-385 | The handler contract is resolved without checking that it is bound. The wrapped throwable is reported and a response is rendered. |
| LumenApplication.AppHandleUncaughtException | src/Application.php:393-408 | As above, but in the console the throwable is echoed as a string, and outside it the response is sent. |
| LumenApplication.AppHandlersAgainstTrait | src/Application.php:374-408 | The application's handlers agree with the trait's exactly when the contract is bound and, for an uncaught exception, outside the console. |
| LumenApplication.GetMethod | src/Application.php:1029-1036 | A `_method` form field overrides the request method, upper-cased. |
| LumenApplication.GetPathInfo | src/Application.php:1043-1048 | The path info starts with `/` and has no trailing or doubled leading `/`. |
| LumenApplication.GetPathInfoStripsQuery | src/Application.php:1043-1048 | For `path?query` with no `?` in the path, the path info is `/` followed by the path trimmed of `/`. |
| LumenApplication.Application.Register | src/Application.php:263-277 | A provider runs exactly when it was not loaded before. It is recorded as loaded, and a second call changes nothing. |
| LumenApplication.BinderToRun | src/Application.php:436-446 | `make` runs the binder registered for the key exactly when that binder has not run. |
| LumenApplication.BindersAskedFor | src/Application.php:436-446 | Every binder asked for is one of the registered binders. |
| LumenApplication.FirstTimes | src/Application.php:436-446 | The binders that run are distinct, not run before, each one asked for. Every binder asked for either ran before or runs. |
| LumenApplication.FirstTimesStep | src/Application.php:436-446 | One more call extends the record by its key exactly when the key is new. |
| LumenApplication.MakeCallsRunOnce | src/Application.php:436-446 | A sequence of `make` calls runs each binder at most once, for the first key that needs it. |
| LumenApplication.SharedBinderRunsOnce | src/Application.php:1187-1188 | Resolving `log` runs the log binder. Resolving the logger contract afterwards runs nothing. |
| LumenApplication.CacheBinderUndefined | src/Application.php:1178-1180 | Each of the three cache keys names a binder method that does not exist, so resolving it fails while the cache binder is unrecorded. |
| LumenApplication.OtherBindersDefined | src/Application.php:1181-1191 | Every other declared binding names a binder method the application defines. |
| LumenApplication.IntendedCacheBinderRuns | src/Application.php:1178-1180 | Intended version: no `make` fails, `cache` runs the cache binder, and the two cache contracts then run nothing. |
| LumenApplication.ConfigBinderDefined | src/Application.php:1181 | `config` runs the config binder unless it has run. |
| LumenApplication.MakeEffect | src/Application.php:436-446 | No step when the binder has run or there is none. The binder runs when its method exists. It fails unrecorded when the method does not exist. |
| LumenApplication.FirstTimesCover | src/Application.php:436-446 | What ran before plus what a run of calls does the first time is all that ran before or was asked for. |
| LumenApplication.BindersAskedForSet | src/Application.php:436-446 | The binders asked for are exactly those registered for the keys. |
| LumenApplication.BinderSetSnoc | src/Application.php:436-446 | One more key adds its binder, if it has one. |
| LumenApplication.MakeStepRecord | src/Application.php:436-446 | One `make` of a key with a defined binder extends the record as `FirstTimes` does. |
| LumenApplication.Application.Make | src/Application.php:436-446 | The step is `MakeEffect` for the defined binder methods. A binder that runs is recorded. Nothing is recorded otherwise, including when the method does not exist. |
| LumenApplication.Application.MakeAll | src/Application.php:436-446 | `make` on each key in turn records the binders of all the keys, and runs them in the order `FirstTimes` gives. |
| LumenApplication.Application.MakeConfig | src/Application.php:580 | `make('config')` records the config binder and runs it when it has not run. |
| LumenApplication.Application.Configure | src/Application.php:569-582 | A configuration loads only the first time and only when `getConfigurationPath` finds a file. Loading records the config binder and runs it when it has not run. Every call marks the name loaded. The base path is fixed exactly when the name is new and there is no custom config path. |
| LumenApplication.Application.GetConfigurationPath | src/Application.php:592-610 | The file is looked up in the custom config path or in `base/config`. The base path is fixed only in the second case. |
| LumenApplication.AppConfigDir | src/Application.php:603 | A truthy custom config path is used, and `base/config` otherwise. |
| LumenApplication.ConfigurationPathFound | src/Application.php:592-610 | A path found is an existing `name.php` in the application's directory or the framework's, the application's winning. Nothing is found only when neither has it. |
| LumenApplication.Application.UseConfigPath | src/Application.php:1115-1120 | The custom config path is set. |
| LumenApplication.Application.UseStoragePath | src/Application.php:1102-1107 | The custom storage path is set. |
| LumenApplication.PathSuffix | src/Application.php:1069 | A truthy path is joined with `/`, and an absent path adds nothing. |
| LumenApplication.ResolvedBasePath | src/Application.php:1066-1079 | A base path that is already set wins. Otherwise the working directory is used in the console, and the parent directory elsewhere. |
| LumenApplication.BasePathStable | src/Application.php:1066-1079 | Once fixed, the base path no longer depends on console mode or directories. |
| LumenApplication.Application.BasePath | src/Application.php:1066-1079 | Fixes the base path on first use and returns it joined with the path. |
| LumenApplication.StoragePathOf | src/Application.php:1087-1094 | A truthy custom storage path is used. Otherwise the storage path is `base/storage`, in both cases joined with the path. |
| LumenApplication.Application.StoragePath | src/Application.php:1087-1094 | Returns `StoragePathOf` and fixes the base path only when it is needed. |
| ExceptionHandlers.Abort | src/Concerns/RegistersExceptionHandlers.php:25-32 | 404 raises not-found carrying the message. Any other code raises an HTTP error carrying code, message and headers. The status code is always the one asked for. |
| ExceptionHandlers.IsFatalError | src/Concerns/RegistersExceptionHandlers.php:78-87 | True exactly for E_ERROR, E_CORE_ERROR, E_COMPILE_ERROR and E_PARSE, and for FATAL_ERROR when that constant is defined. |
| ExceptionHandlers.WarningsNotFatal | src/Concerns/RegistersExceptionHandlers.php:78-87 | Warnings and notices are not fatal unless FATAL_ERROR names them. Errors and parse errors always are. |
| ExceptionHandlers.ErrorHandler | src/Concerns/RegistersExceptionHandlers.php:43-47 | An error exception is raised exactly when the reporting mask has the level's bit, and it carries message, level, file and line. |
| ExceptionHandlers.ErrorHandlerReporting | src/Concerns/RegistersExceptionHandlers.php:41-47 | With every level reported, every error raises. With reporting off, none does. |
| ExceptionHandlers.HandleShutdown | src/Concerns/RegistersExceptionHandlers.php:63-70 | The handler is called exactly when a last error exists and is fatal, with a fatal-error exception carrying that error's data. |
| ExceptionHandlers.ResolveExceptionHandler | src/Concerns/RegistersExceptionHandlers.php:136-143 | The bound contract is used when it is bound, Lumen's own handler otherwise. |
| ExceptionHandlers.Reported | src/Concerns/RegistersExceptionHandlers.php:99-101 | An engine `Error` is wrapped as a fatal throwable and anything else is reported as it is. What is reported is never an `Error`. |
| ExceptionHandlers.ReportedIdempotent | src/Concerns/RegistersExceptionHandlers.php:99-101 | Wrapping happens once. |
| ExceptionHandlers.SendExceptionToHandler | src/Concerns/RegistersExceptionHandlers.php:95-106 | The resolved handler reports the wrapped throwable and renders a response. |
| ExceptionHandlers.HandleUncaughtException | src/Concerns/RegistersExceptionHandlers.php:114-129 | As above, but the output goes to the console in console mode and is sent otherwise. |
| ExceptionHandlers.ShutdownReportsFatal | src/Concerns/RegistersExceptionHandlers.php:63-70 | A fatal last error at shutdown reaches the resolved handler as a fatal-error exception. |
| Urls.StartsWithAny | src/Routing/UrlGenerator.php:263-265 | True exactly when the string starts with one of the prefixes. |
| Urls.ValidUrlPrefixesListed | src/Routing/UrlGenerator.php:263-265 | The URL prefixes are exactly `#`, `//`, `mailto:`, `tel:`, `sms:`, `http://` and `https://`. |
| Urls.IsValidUrl | src/Routing/UrlGenerator.php:261-268 | A path with a URL prefix is valid. Otherwise the URL filter decides. |
| Urls.TrimUrl | src/Routing/UrlGenerator.php:365-368 | The result never starts or ends with `/`. |
| Urls.TrimUrlJoin | src/Routing/UrlGenerator.php:365-368 | A trimmed root and a non-empty trimmed path are joined with exactly one `/`. An empty path leaves the root alone. |
| Urls.RemoveIndex | src/Routing/UrlGenerator.php:168-173 | A root without `index.php` is unchanged. |
| Urls.RemoveIndexAtEnd | src/Routing/UrlGenerator.php:168-173 | `base/index.php` becomes `base`. |
| Urls.FormatValues | src/Routing/UrlGenerator.php:297-303 | Each value is replaced by its route key when routable, and keys are kept in order. |
| Urls.FormatParameters | src/Routing/UrlGenerator.php:295-306 | No parameters gives an empty array. A single value becomes key `0`. A list keeps its keys, each value formatted. |
| Urls.EncodedValues | src/Routing/UrlGenerator.php:97-108 | One encoded value per parameter, in order. |
| Urls.TailSegments | src/Routing/UrlGenerator.php:97-108 | When the encoding writes no `/`, splitting the tail at `/` gives back the encoded parameters one by one. |
| Urls.SwapScheme | src/Routing/UrlGenerator.php:339-341 | An `http://` or `https://` root has its scheme replaced by the given one. |
| Urls.FirstOf | src/Routing/UrlGenerator.php:317 | The first position holding either character, if there is one. |
| Urls.MatchPlaceholder | src/Routing/UrlGenerator.php:317 | A match starts with `{` and ends with `}`. The name follows the `{` and contains no `:` or `}`. |
| Urls.MatchPlaceholderText | src/Routing/UrlGenerator.php:317 | `{name}` and `{name:pattern}` are each matched whole, with the name recovered. |
| Urls.Substitute | src/Routing/UrlGenerator.php:315-320 | Substitution never adds parameters. |
| Urls.SubstitutePrefix | src/Routing/UrlGenerator.php:315-320 | Text without `{` is copied and consumes nothing. |
| Urls.SubstituteSet | src/Routing/UrlGenerator.php:318 | A matched placeholder whose parameter is set is replaced by its value and the parameter is removed. |
| Urls.SubstituteUnset | src/Routing/UrlGenerator.php:318 | A matched placeholder with no parameter is kept as written. |
| Urls.SubstituteNamed | src/Routing/UrlGenerator.php:315-320 | In `pre{name}post` or `pre{name:pattern}post`, a set parameter's value takes the placeholder's place and the parameter is consumed. |
| Urls.SubstituteKept | src/Routing/UrlGenerator.php:315-320 | A placeholder whose parameter is not set stays as written. |
| Urls.SubstituteLeftover | src/Routing/UrlGenerator.php:315-320 | Leftover parameters have unique keys and their original values. |
| Urls.SubstituteScanStep | src/Routing/UrlGenerator.php:315-320 | The substitution of a non-empty string is one scan step followed by the substitution of the rest. The step copies a character, keeps an unset placeholder or puts a set parameter in its place. |
| Urls.ReplaceRouteParameters | src/Routing/UrlGenerator.php:315-320 | The scanning loop computes exactly `Substitute`: the rewritten uri and the parameters not consumed. |
| Urls.OpenBracket | src/Routing/UrlGenerator.php:238 | The `[` found is the first one followed by no `]`. |
| Urls.OptionalSegment | src/Routing/UrlGenerator.php:238-242 | A trailing `[content]` is dropped when substitution leaves it unchanged. Otherwise it is replaced by the substituted content without brackets. |
| Urls.NoOptionalSegment | src/Routing/UrlGenerator.php:238-242 | A uri not ending in `]` is left as is. |
| Urls.ExpandOptionalSegment | src/Routing/UrlGenerator.php:238-242 | The optional-segment step of `route` computes exactly `ExpandOptional`. |
| Urls.ExpandOptionalLeftover | src/Routing/UrlGenerator.php:238-242 | The parameters left after the optional segment are unique and carry their original values. |
| Urls.RoutePathLeftover | src/Routing/UrlGenerator.php:236-244 | The parameters left for the query string are unique and carry their original values. |
| Urls.GeneratingUrlsExample | tests/FullApplicationTest.php:191-233 | `/foo-bar/{baz}/{boom}`, with or without `:[0-9]+` patterns and with `baz=1` and `boom=2`, gives `/foo-bar/1/2` and leaves no parameters. |
| Urls.UrlGenerator.constructor | src/Routing/UrlGenerator.php:24-56 | Nothing is forced or cached. |
| Urls.UrlGenerator.SchemeFor | src/Routing/UrlGenerator.php:205-216 | An explicit `secure` decides the scheme. Otherwise the cached schema is used when present. |
| Urls.UrlGenerator.RootFor | src/Routing/UrlGenerator.php:329-342 | A given root is used. Otherwise the cached root is used when present. |
| Urls.UrlGenerator.ForceScheme | src/Routing/UrlGenerator.php:192-197 | The cache is cleared and the next schemeless lookup gives `schema://`. |
| Urls.ForcedSchemeWins | src/Routing/UrlGenerator.php:205-216 | A forced scheme is used for schemeless lookups. `true` and `false` still give `https://` and `http://`. |
| Urls.UrlGenerator.FormatScheme | src/Routing/UrlGenerator.php:205-216 | `true` and `false` give `https://` and `http://` and leave the cache alone. `null` caches and returns the forced or request scheme. |
| Urls.UrlGenerator.GetSchemeForUrl | src/Routing/UrlGenerator.php:276-287 | The same lookup and cache effect as `formatScheme`. |
| Urls.UrlGenerator.GetRootUrl | src/Routing/UrlGenerator.php:329-342 | The root, from the argument or the cache or the forced or request root, gets the given scheme. A schemeless lookup fills the cache. |
| Urls.SwapSchemeExample | src/Routing/UrlGenerator.php:339-341 | `http://host` with `https://` gives `https://host`, and the other way round. |
| Urls.UrlGenerator.ForceRootUrl | src/Routing/UrlGenerator.php:350-355 | The forced root has no trailing `/`, the cached root is cleared, and a truthy forced root is what the next lookup gives. |
| Urls.UrlGenerator.To | src/Routing/UrlGenerator.php:86-109 | A path with a URL prefix is returned unchanged. Otherwise the result is root, path and encoded tail, trimmed and joined. Only the scheme and root caches change. |
| Urls.UrlGenerator.Asset | src/Routing/UrlGenerator.php:130-142 | The result is `AssetUrl` of the state before the call. A URL is returned as is and leaves the caches alone. Otherwise the result is the root with the current scheme and no `index.php`, then `/` and the trimmed path, and the scheme and root caches are left as a scheme and root lookup for `secure` leaves them. |
| Urls.UrlGenerator.Route | src/Routing/UrlGenerator.php:228-253 | An undefined name fails with `Route [name] not defined.` and leaves the caches alone. Otherwise the result is the substituted uri made absolute, with leftovers as a query string. The scheme and root caches change exactly as `to` changes them for the substituted path. |
| TestRequests.Normalize | src/Testing/Concerns/MakesHttpRequests.php:396 | The name keeps its length and has no lower-case letter and no `-`. |
| TestRequests.NormalizeFixed | src/Testing/Concerns/MakesHttpRequests.php:396 | A name that is already normalised is unchanged. |
| TestRequests.ServerKey | src/Testing/Concerns/MakesHttpRequests.php:396-400 | The key is the normalised name, with `HTTP_` in front unless it already starts with `HTTP_` or is `CONTENT_TYPE`. |
| TestRequests.ServerKeyIdempotent | src/Testing/Concerns/MakesHttpRequests.php:396-400 | A server key is its own server key. |
| TestRequests.TransformHeadersToServerVars | src/Testing/Concerns/MakesHttpRequests.php:390-406 | The loop writes each header under its server key, in order: the result is `ServerVars(headers)`. |
| TestRequests.ServerVarsKeys | src/Testing/Concerns/MakesHttpRequests.php:390-406 | The result has unique keys, each normalised and each coming from some header. |
| TestRequests.ServerVarsLast | src/Testing/Concerns/MakesHttpRequests.php:395-405 | The value under a key is that of the last header with that key, passed through unchanged. |
| TestRequests.ServerVarsMissing | src/Testing/Concerns/MakesHttpRequests.php:395-405 | A key no header maps to is absent. |
| TestRequests.ServerVarsOfNormalised | src/Testing/Concerns/MakesHttpRequests.php:390-406 | Normalised, duplicate-free keys are written back exactly as they are. |
| TestRequests.ServerVarsIdempotent | src/Testing/Concerns/MakesHttpRequests.php:390-406 | Transforming the transformed headers changes nothing. |
| TestRequests.PreparedUrl | src/Testing/Concerns/MakesHttpRequests.php:371-382 | The prepared uri has no leading or trailing `/`. |
| TestRequests.PrepareUrlForRequest | src/Testing/Concerns/MakesHttpRequests.php:371-382 | The step-by-step method computes `PreparedUrl`. |
| TestRequests.PreparedUrlShape | src/Testing/Concerns/MakesHttpRequests.php:371-382 | After one leading `/` is dropped, an `http` uri is only trimmed. A path is joined to a trimmed base url by exactly one `/`. |
| TestRequests.JsonHeadersOverride | src/Testing/Concerns/MakesHttpRequests.php:42-46 | A caller's header keeps its value. `CONTENT_TYPE` and `Accept` default to `application/json`. |
| Controllers.Declared | src/Routing/Controller.php:25-28 | The entry `middleware()` creates holds the name and the options. It has no top-level `only` or `except`. |
| Controllers.Controller.constructor | src/Routing/Controller.php:14 | A new controller declares no middleware. |
| Controllers.Controller.Middleware | src/Routing/Controller.php:23-29 | Exactly one entry is appended and earlier entries are untouched. |
| Controllers.Controller.GetMiddlewareForMethod | src/Routing/Controller.php:37-54 | The loop with its two `continue` guards computes `MiddlewareForMethod`. |
| Controllers.MiddlewareForMethodExact | src/Routing/Controller.php:37-54 | The result lists, in increasing order, exactly the keys whose top-level `only` holds the method (or is absent) and whose `except` does not. |
| Controllers.DeclaredAlwaysApply | src/Routing/Controller.php:23-54 | For entries made by `middleware()`, every key `0..n-1` is returned. |
| Controllers.OnlyOptionIgnored | src/Routing/Controller.php:23-54 | Middleware limited to `index` is still returned, as key 0, for `store`. |
| Controllers.IntendedMiddlewareExact | src/Routing/Controller.php:37-54 | Intended version: a name is returned exactly when a declaration of it has options that let the method through. |
| Controllers.IntendedHonoursOptions | src/Routing/Controller.php:37-54 | Intended version: `only => [index]` excludes `store` and includes `index`, and `except` excludes its method. |
| ResponseFactories.TypeKey | src/Http/AbstractResponseFactory.php:41 | `null` is looked up as `default`. |
| ResponseFactories.AbstractResponseFactory.constructor | src/Http/AbstractResponseFactory.php:17-20 | The registry holds exactly the framework factory under `default`. |
| ResponseFactories.AbstractResponseFactory.AddFactory | src/Http/AbstractResponseFactory.php:27-30 | Entry `t` is set or overwritten, no other entry changes, and `default` stays registered. |
| ResponseFactories.MakeAsWritten | src/Http/AbstractResponseFactory.php:39-48 | An unregistered type fails with `cant find ResponseFactory: type`. Any registered type yields the `default` entry. |
| ResponseFactories.AbstractResponseFactory.Make | src/Http/AbstractResponseFactory.php:39-48 | `make` computes `MakeAsWritten` on the registry. |
| ResponseFactories.AddedFactoryNotReturned | src/Http/AbstractResponseFactory.php:47 | After `addFactory('json', f)`, `make('json')` returns the default factory instead of `f`. |
| ResponseFactories.MakeIntended | src/Http/AbstractResponseFactory.php:39-48 | Intended version: the result is the factory registered for the type, and an unregistered type is the same error. |
| ResponseFactories.MakeIntendedAfterAdd | src/Http/AbstractResponseFactory.php:27-48 | Intended version: `make(t)` returns what `addFactory(t, f)` registered, and other types are unaffected. |

## Left out

- Router verb shorthands (`get`, `post`, …, src/Routing/Router.php:330-424) are one-line calls of `addRoute`. They are left out because `addRoute` takes the verb as a parameter.
- Group keys other than `prefix`, `namespace`, `as`, `suffix`, `domain` and `middleware` are not modelled. `array_merge_recursive` on those keys is not modelled either.
- The group callback is modelled as a sequence of registrations. A closure can do arbitrary work, and only the route registrations it makes are modelled.
- FastRoute's dispatcher is a function parameter that returns a three-way verdict. Route compilation and matching belong to FastRoute and are not part of this model.
- Container internals are not modelled: `parent::make`, `singleton`, `instance`, and the building of services by binder methods. `make` is modelled as bookkeeping of which binder runs.
- Middleware execution (`Pipeline`), response preparation and the calling of route actions are closures and foreign calls. The model keeps only which middleware the request passes through and which action is called.
- Closures used as middleware or actions are identified by a name or number.
- `register` runs Illuminate providers. The model records which providers ran, in order. Provider instantiation, `boot` and the registration options are not modelled.
- `getConfigurationPath` looks files up with `file_exists`, which is a function parameter. The framework's own config directory (`__DIR__.'/../config'`) is a string parameter. `require` of the file and `config->set` are not modelled.
- `realpath`, `getcwd` and `runningInConsole` are parameters of `basePath`. A failing `realpath` is modelled as an empty string.
- The error handler is modelled with a 64-bit reporting mask. Installing the global handlers and calling `error_get_last` are process state.
- The report and render calls are side effects, and the model records only which handler, which throwable and which output is chosen.
- Application.php carries its own `sendExceptionToHandler` and `handleUncaughtException` (lines 374-408), and these are the ones `dispatch` calls. The class does not use the trait. Its versions resolve the handler contract without a bound check or Lumen's fallback, and in the console they echo the throwable instead of rendering it. They are modelled apart, as `AppSendExceptionToHandler` and `AppHandleUncaughtException`.
- LumenApplication.Application.Dispatch: the record covers the keys `dispatch` itself resolves. Keys resolved inside middleware, by the route action or by the handler's `report` and `render` are not modelled. An exception thrown by the route action is not modelled either.
- Binder method names are the datatype `Binder`, one constructor per name the declared bindings use. `ranServiceBinders` holds those names.
- `availableBindings` is a public property that user code could reassign. The model keeps the declared bindings as a constant field.
- The binder methods' own work is not modelled. This covers the singletons they register and the storage path the log binder reads.
- The application's own `abort` and `isFatalError` (lines 357-366 and 420-427) are the same as the trait's and are modelled once, as `ExceptionHandlers.Abort` and `ExceptionHandlers.IsFatalError`.
- URL generation takes the request's scheme and root as constants given at construction, instead of resolving `make('request')`.
- `filter_var`, `rawurlencode` and `http_build_query` are function parameters.
- Urls.MatchPlaceholder: the `{digits}` quantifier group of the placeholder regex is not modelled, and names containing a newline are not excluded. The name runs to the first `:` or `}`, so a placeholder with a `{2,3}` quantifier inside is matched differently.
- Urls.ExpandOptional: only an optional segment that ends the uri is modelled, as the `$` anchor of the pattern says. `$` also matching before a final newline is not modelled.
- `Arr::get` dot-notation lookups are modelled as plain key lookups, and `isset` on null values as presence of the key.
- `assetFrom`, `secure` and `secureAsset` forward to `to` and `asset` and are not modelled.
- `UrlGenerator::full` and `UrlGenerator::current` read the live request and are not modelled.
- Controllers.MiddlewareForMethod: keys of the controller's `$middleware` are positions, because `middleware()` only appends. String keys that a subclass writes into the array directly are not modelled.
- The `json` body encoding is not modelled: its byte length is the `contentLength` parameter. `call`, `handle` and the response assertions of `MakesHttpRequests` are not part of this model.
- The name-to-uri table given to `UrlGenerator.Route` is a parameter: the router's named routes.
- Integer array keys of headers, as in `$headers[0]`, are not modelled. Header names are strings.

## Findings

| source | as written | input that shows it | evidently intended | confidence | as-written member | corrected member |
|---|---|---|---|---|---|---|
| src/Http/AbstractResponseFactory.php:47 | `make` returns `$this->factories['default']` for every registered type | `addFactory('json', $f)` then `make('json')` returns the default factory, not `$f` | return `$this->factories[$type]` | not executed | ResponseFactories.AddedFactoryNotReturned | ResponseFactories.MakeIntendedAfterAdd |
| src/Application.php:1178-1180 | the three cache keys map to `registerCacheBindings`, which the class does not define | `make('cache')` calls a method that does not exist and throws before recording the binder | a defined cache binder that runs once for the three keys | not executed | LumenApplication.CacheBinderUndefined | LumenApplication.IntendedCacheBinderRuns |
| src/Routing/Controller.php:23-54 | `middleware()` stores `only`/`except` under `options`, but `getMiddlewareForMethod` reads them at the top level of each entry and returns the entry's key | `middleware('auth', ['only' => ['index']])` then `getMiddlewareForMethod('store')` returns `[0]` | filter entries by their `options` and return the middleware names | not executed | Controllers.OnlyOptionIgnored | Controllers.IntendedHonoursOptions |

The class methods `AbstractResponseFactory.Make`,
`Controller.GetMiddlewareForMethod` and `Application.Make` model the code as
written. The intended
behaviour is defined beside them and proved as functions.
