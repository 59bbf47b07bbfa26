/** Route actions and middleware attributes, shared by the router and by the
    application's own route table. */
module RouteActions {
  import opened Wrappers
  import opened PhpStrings

  /** A `middleware` attribute: a `|`-separated string, or a list of names. */
  datatype MiddlewareSpec = Piped(text: string) | Listed(names: seq<string>)

  /** The attribute as a list: `(array)` for a string wraps it, a list stays. */
  function AsList(m: MiddlewareSpec): seq<string>
  {
    match m
    case Piped(s) => [s]
    case Listed(names) => names
  }

  /** `explode('|', ...)` applied to a string attribute; a list is left alone.
      The pieces hold no `|` and join back to the string. */
  function SplitMiddleware(m: MiddlewareSpec): (r: MiddlewareSpec)
    ensures r.Listed?
    ensures m.Listed? ==> r == m
    ensures m.Piped? ==> Implode(r.names, "|") == m.text
    ensures m.Piped? ==> |r.names| >= 1 && forall i :: 0 <= i < |r.names| ==> '|' !in r.names[i]
  {
    match m
    case Piped(s) => Listed(Explode(s, '|'))
    case Listed(_) => m
  }

  /** The keys of a route action array that the framework reads: the controller
      target (`uses`), the route name (`as`), the route middleware, and the closure
      to call (the first `Closure` element of the array). Closures are opaque and
      identified by a number. */
  datatype Action = Action(uses: Option<string>, name: Option<string>,
                           middleware: Option<MiddlewareSpec>, closure: Option<nat>)

  /** A route action as the caller writes it: a `Class@method` string, a bare
      closure, or an action array. */
  datatype ActionInput = UsesString(target: string) | Callable(id: nat) | ActionArray(fields: Action)

  const EmptyAction := Action(None, None, None, None)
}
