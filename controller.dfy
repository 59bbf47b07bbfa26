/** The base controller: middleware declared on a controller, and the
    middleware that applies to one of its methods. */
module Controllers {
  import opened Wrappers

  /** The options of a middleware declaration: the methods it is limited to,
      and the methods it is excluded from (a single string is a one-element list). */
  datatype Options = Options(only: Option<seq<string>>, except: Option<seq<string>>)

  const NoOptions := Options(None, None)

  /** An element of the controller's `$middleware` array, by the keys that are
      read: `middleware` and `options` are what `middleware()` writes; `only`
      and `except` at the top level are what `getMiddlewareForMethod` reads. */
  datatype Entry = Entry(middleware: Option<string>, options: Option<Options>,
                         only: Option<seq<string>>, except: Option<seq<string>>)

  /** The entry `middleware($middleware, $options)` appends. */
  function Declared(middleware: string, options: Options): (e: Entry)
    ensures e.middleware == Some(middleware) && e.options == Some(options)
    ensures e.only.None? && e.except.None?
  {
    Entry(Some(middleware), Some(options), None, None)
  }

  /** The two `continue` guards: an entry is skipped when its `only` list does
      not hold the method, or its `except` list does. */
  predicate Applies(only: Option<seq<string>>, except: Option<seq<string>>, action: string)
  {
    !(only.Some? && action !in only.value) && !(except.Some? && action in except.value)
  }

  /** `getMiddlewareForMethod` as a value: the keys, in order, of the entries
      whose top-level `only`/`except` let the method through. */
  function MiddlewareForMethod(entries: seq<Entry>, action: string): seq<nat>
  {
    if entries == [] then []
    else
      var n := |entries| - 1;
      MiddlewareForMethod(entries[..n], action)
      + (if Applies(entries[n].only, entries[n].except, action) then [n] else [])
  }

  /** The result lists exactly the keys of the entries that apply, in
      increasing order: it is a subsequence of the keys. */
  lemma {:induction false} MiddlewareForMethodExact(entries: seq<Entry>, action: string)
    ensures var r := MiddlewareForMethod(entries, action);
      && (forall i, j :: 0 <= i < j < |r| ==> r[i] < r[j])
      && (forall i :: 0 <= i < |r| ==> r[i] < |entries|)
      && (forall k: nat :: k in r <==> k < |entries| && Applies(entries[k].only, entries[k].except, action))
  {
    if entries != [] {
      var n := |entries| - 1;
      var init := entries[..n];
      MiddlewareForMethodExact(init, action);
      assert forall k :: 0 <= k < n ==> init[k] == entries[k];
      var p := MiddlewareForMethod(init, action);
      var r := MiddlewareForMethod(entries, action);
      assert r == p + (if Applies(entries[n].only, entries[n].except, action) then [n] else []);
      assert n !in p;
    }
  }

  /** Every entry `middleware()` creates has no top-level `only`/`except`, so
      all of them are returned whatever their options say. */
  lemma {:induction false} DeclaredAlwaysApply(entries: seq<Entry>, action: string)
    requires forall i :: 0 <= i < |entries| ==> entries[i].only.None? && entries[i].except.None?
    ensures MiddlewareForMethod(entries, action) == seq(|entries|, i => i)
  {
    if entries != [] {
      var n := |entries| - 1;
      DeclaredAlwaysApply(entries[..n], action);
      assert seq(n, i => i) + [n] == seq(|entries|, i => i);
    }
  }

  /** A controller whose only middleware is limited to `index` still gets that
      middleware for `store`. */
  lemma OnlyOptionIgnored()
    ensures MiddlewareForMethod([Declared("auth", Options(Some(["index"]), None))], "store") == [0]
  {
    var e := Declared("auth", Options(Some(["index"]), None));
    assert [e][..0] == [];
  }

  /** The evident intent: the names of the declared middleware whose options
      let the method through. */
  function IntendedMiddlewareForMethod(entries: seq<Entry>, action: string): seq<string>
  {
    if entries == [] then []
    else
      var n := |entries| - 1;
      var e := entries[n];
      var o := e.options.GetOr(NoOptions);
      IntendedMiddlewareForMethod(entries[..n], action)
      + (if e.middleware.Some? && Applies(o.only, o.except, action) then [e.middleware.value] else [])
  }

  /** With the intent, a name is returned exactly when some declaration of it
      has options that let the method through. */
  lemma {:induction false} IntendedMiddlewareExact(entries: seq<Entry>, action: string, name: string)
    ensures name in IntendedMiddlewareForMethod(entries, action) <==>
      exists k :: 0 <= k < |entries| && entries[k].middleware == Some(name)
        && Applies(entries[k].options.GetOr(NoOptions).only, entries[k].options.GetOr(NoOptions).except, action)
  {
    if entries != [] {
      var n := |entries| - 1;
      var init := entries[..n];
      IntendedMiddlewareExact(init, action, name);
      var e := entries[n];
      var o := e.options.GetOr(NoOptions);
      var tail := if e.middleware.Some? && Applies(o.only, o.except, action) then [e.middleware.value] else [];
      assert IntendedMiddlewareForMethod(entries, action) == IntendedMiddlewareForMethod(init, action) + tail;
      assert name in tail <==> e.middleware == Some(name) && Applies(o.only, o.except, action);
      assert forall k :: 0 <= k < n ==> init[k] == entries[k];
    }
  }

  /** With the intent, the `only` and `except` options are honoured. */
  lemma IntendedHonoursOptions(action: string)
    ensures IntendedMiddlewareForMethod([Declared("auth", Options(Some(["index"]), None))], "store") == []
    ensures IntendedMiddlewareForMethod([Declared("auth", Options(Some(["index"]), None))], "index") == ["auth"]
    ensures IntendedMiddlewareForMethod([Declared("auth", Options(None, Some([action])))], action) == []
  {
    assert [Declared("auth", Options(Some(["index"]), None))][..0] == [];
    assert [Declared("auth", Options(None, Some([action])))][..0] == [];
  }

  /** A controller and the middleware declared on it. */
  class Controller {
    var middleware: seq<Entry>

    constructor()
      ensures middleware == []
    {
      middleware := [];
    }

    /** `middleware($middleware, $options)`: one entry appended, the others kept. */
    method Middleware(name: string, options: Options)
      modifies this
      ensures middleware == old(middleware) + [Declared(name, options)]
    {
      middleware := middleware + [Declared(name, options)];
    }

    /** `getMiddlewareForMethod`: the `foreach` with its two `continue` guards. */
    method GetMiddlewareForMethod(action: string) returns (r: seq<nat>)
      ensures r == MiddlewareForMethod(middleware, action)
    {
      r := [];
      var i := 0;
      while i < |middleware|
        invariant 0 <= i <= |middleware|
        invariant r == MiddlewareForMethod(middleware[..i], action)
      {
        var e := middleware[i];
        assert middleware[..i + 1][..i] == middleware[..i];
        if e.only.Some? && action !in e.only.value {
          i := i + 1;
          continue;
        }
        if e.except.Some? && action in e.except.value {
          i := i + 1;
          continue;
        }
        r := r + [i];
        i := i + 1;
      }
      assert middleware[..i] == middleware;
    }
  }
}
