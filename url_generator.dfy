/** URL generation: absolute URLs to paths, assets and named routes, with the
    request's scheme and root cached until they are forced. */
module Urls {
  import opened Wrappers
  import opened PhpStrings
  import opened PhpArrays

  /** `Str::startsWith($s, $prefixes)`: `s` starts with one of `ps`. */
  function StartsWithAny(s: string, ps: seq<string>): (r: bool)
    ensures r <==> exists i :: 0 <= i < |ps| && StartsWith(s, ps[i])
  {
    if ps == [] then false
    else StartsWith(s, ps[0]) || (assert forall i :: 0 <= i < |ps| - 1 ==> ps[1..][i] == ps[i + 1]; StartsWithAny(s, ps[1..]))
  }

  /** The prefixes that mark a path as a URL already. */
  const ValidUrlPrefixes: seq<string> := ["#", "//", "mailto:", "tel:", "sms:", "http://", "https://"]

  /** A path is taken as a URL exactly when it has one of the seven prefixes. */
  lemma ValidUrlPrefixesListed(path: string)
    ensures StartsWithAny(path, ValidUrlPrefixes) <==>
      StartsWith(path, "#") || StartsWith(path, "//") || StartsWith(path, "mailto:")
      || StartsWith(path, "tel:") || StartsWith(path, "sms:") || StartsWith(path, "http://")
      || StartsWith(path, "https://")
  {
    if StartsWith(path, "https://") {
      assert StartsWith(path, ValidUrlPrefixes[6]);
    }
    if StartsWith(path, "http://") {
      assert StartsWith(path, ValidUrlPrefixes[5]);
    }
    if StartsWith(path, "sms:") {
      assert StartsWith(path, ValidUrlPrefixes[4]);
    }
    if StartsWith(path, "tel:") {
      assert StartsWith(path, ValidUrlPrefixes[3]);
    }
    if StartsWith(path, "mailto:") {
      assert StartsWith(path, ValidUrlPrefixes[2]);
    }
    if StartsWith(path, "//") {
      assert StartsWith(path, ValidUrlPrefixes[1]);
    }
    if StartsWith(path, "#") {
      assert StartsWith(path, ValidUrlPrefixes[0]);
    }
  }

  /** `isValidUrl`: one of the prefixes, or accepted by `filter_var(..., FILTER_VALIDATE_URL)`,
      which is the parameter `filterVar`. */
  function IsValidUrl(path: string, filterVar: string -> bool): (r: bool)
    ensures StartsWithAny(path, ValidUrlPrefixes) ==> r
    ensures !StartsWithAny(path, ValidUrlPrefixes) ==> (r <==> filterVar(path))
  {
    StartsWithAny(path, ValidUrlPrefixes) || filterVar(path)
  }

  /** `trimUrl`: root, path and tail joined by `/`, with every `/` at either end removed. */
  function TrimUrl(root: string, path: string, tail: string): (r: string)
    ensures NoEdge(r, '/')
  {
    Trim(root + "/" + Trim(path + "/" + tail, '/'), '/')
  }

  /** A root with no `/` at its ends is joined to the trimmed path by exactly one `/`,
      and an empty path leaves the root alone. */
  lemma TrimUrlJoin(root: string, path: string, tail: string)
    requires root != [] && NoEdge(root, '/')
    ensures var m := Trim(path + "/" + tail, '/');
      && (m != [] ==> TrimUrl(root, path, tail) == root + "/" + m)
      && (m == [] ==> TrimUrl(root, path, tail) == root)
  {
    TrimJoin(root, Trim(path + "/" + tail, '/'), '/');
  }

  /** `removeIndex`: every `/index.php` is deleted when the root mentions `index.php`. */
  function RemoveIndex(root: string): (r: string)
    ensures !Contains(root, "index.php") ==> r == root
  {
    if Contains(root, "index.php") then StrReplace(root, "/index.php", "") else root
  }

  /** A root ending in its only `/index.php` loses exactly that part. */
  lemma RemoveIndexAtEnd(base: string)
    requires NoMatchBefore(base, "/index.php")
    ensures RemoveIndex(base + "/index.php") == base
  {
    assert base + "/index.php" == (base + "/") + "index.php";
    ContainsSuffix(base + "/", "index.php");
    StrReplaceAtEnd(base, "/index.php", "");
    assert base + "" == base;
  }

  /** A URL parameter: a plain value, or a model whose route key is used. */
  datatype UrlParam = Plain(value: string) | Routable(routeKey: string)

  /** The parameters argument: `null`, one value, or an array of them. */
  datatype ParamsInput = NoParams | Single(param: UrlParam) | Many(params: OMap<string, UrlParam>)

  /** No parameters, as `to` is called from `route`. */
  const NoExtra: ParamsInput := Many([])

  function ParamValue(p: UrlParam): string
  {
    match p
    case Plain(v) => v
    case Routable(k) => k
  }

  function FormatValues(m: OMap<string, UrlParam>): (r: OMap<string, string>)
    ensures |r| == |m|
    ensures forall i :: 0 <= i < |m| ==> r[i] == (m[i].0, ParamValue(m[i].1))
  {
    if m == [] then [] else [(m[0].0, ParamValue(m[0].1))] + FormatValues(m[1..])
  }

  /** `formatParameters`: `Arr::wrap` (nothing for `null`, key `0` for a single value),
      then every routable model replaced by its route key; keys and order are kept. */
  function FormatParameters(p: ParamsInput): (r: OMap<string, string>)
    ensures p.NoParams? ==> r == []
    ensures p.Single? ==> r == [("0", ParamValue(p.param))]
    ensures p.Many? ==> Keys(r) == Keys(p.params)
    ensures p.Many? ==> forall i :: 0 <= i < |r| ==> r[i].1 == ParamValue(p.params[i].1)
  {
    match p
    case NoParams => []
    case Single(x) => [("0", ParamValue(x))]
    case Many(m) => FormatValues(m)
  }

  /** The values of an array, each passed through `encode`. */
  function EncodedValues(encode: string -> string, m: OMap<string, string>): (r: seq<string>)
    ensures |r| == |m|
    ensures forall i :: 0 <= i < |m| ==> r[i] == encode(m[i].1)
  {
    if m == [] then [] else [encode(m[0].1)] + EncodedValues(encode, m[1..])
  }

  /** The tail `to` appends: `implode('/', array_map('rawurlencode', $extra))`. */
  function Tail(encode: string -> string, extra: ParamsInput): string
  {
    Implode(EncodedValues(encode, FormatParameters(extra)), "/")
  }

  /** The tail splits at `/` back into the encoded parameters, one segment each,
      as long as the encoding leaves no `/` (`rawurlencode` writes `%2F`). */
  lemma TailSegments(encode: string -> string, extra: ParamsInput)
    requires forall s :: '/' !in encode(s)
    requires |FormatParameters(extra)| >= 1
    ensures var f := FormatParameters(extra);
      && |Explode(Tail(encode, extra), '/')| == |f|
      && forall i :: 0 <= i < |f| ==> Explode(Tail(encode, extra), '/')[i] == encode(f[i].1)
  {
    ExplodeImplode(EncodedValues(encode, FormatParameters(extra)), '/');
  }

  /** `https://` for a secure request, `http://` otherwise. */
  function SchemeOf(secure: bool): string
  {
    if secure then "https://" else "http://"
  }

  /** `preg_replace('~'.$start.'~', $scheme, $root, 1)`, with `$start` being
      `http://` when the root starts with it and `https://` otherwise. */
  function SwapScheme(root: string, scheme: string): (r: string)
    ensures StartsWith(root, "http://") ==> r == scheme + root[7..]
    ensures StartsWith(root, "https://") ==> r == scheme + root[8..]
  {
    assert StartsWith(root, "https://") ==> root[4] == 's' && !StartsWith(root, "http://");
    var start := if StartsWith(root, "http://") then "http://" else "https://";
    ReplaceFirst(root, start, scheme)
  }

  /** Index of the first `a` or `b` in `s`. */
  function FirstOf(s: string, a: char, b: char): (r: Option<nat>)
    ensures r.Some? ==> r.value < |s| && (s[r.value] == a || s[r.value] == b)
    ensures r.Some? ==> forall m :: 0 <= m < r.value ==> s[m] != a && s[m] != b
    ensures r.None? ==> forall m :: 0 <= m < |s| ==> s[m] != a && s[m] != b
  {
    if s == [] then None
    else if s[0] == a || s[0] == b then Some(0)
    else match FirstOf(s[1..], a, b)
      case None => None
      case Some(j) => Some(j + 1)
  }

  lemma FirstOfAt(p: string, c: char, q: string, a: char, b: char)
    requires a !in p && b !in p && (c == a || c == b)
    ensures FirstOf(p + [c] + q, a, b) == Some(|p|)
  {
    var s := p + [c] + q;
    assert s[|p|] == c;
    assert forall m :: 0 <= m < |p| ==> s[m] == p[m];
  }

  /** A `{name}` or `{name:pattern}` placeholder at the start of a string: its
      name and the length of the whole placeholder. */
  datatype Placeholder = Placeholder(name: string, length: nat)

  /** The route-parameter pattern `\{(.*?)(:.*?)?(\{[0-9,]+\})?\}` at the start of
      `s`: the name runs to the first `:` or `}`; after a `:` the placeholder ends
      at the next `}`. */
  function MatchPlaceholder(s: string): (r: Option<Placeholder>)
    ensures r.Some? ==> 2 + |r.value.name| <= r.value.length <= |s|
    ensures r.Some? ==> s[0] == '{' && s[1..1 + |r.value.name|] == r.value.name && s[r.value.length - 1] == '}'
    ensures r.Some? ==> ':' !in r.value.name && '}' !in r.value.name
  {
    if s == [] || s[0] != '{' then None
    else match FirstOf(s[1..], ':', '}')
      case None => None
      case Some(j) =>
        assert forall m :: 0 <= m < j ==> s[1..1 + j][m] == s[1..][m];
        if s[1 + j] == '}' then Some(Placeholder(s[1..1 + j], j + 2))
        else match FirstOf(s[2 + j..], '}', '}')
          case None => None
          case Some(k) => Some(Placeholder(s[1..1 + j], j + 3 + k))
  }

  /** The placeholder `{name}`, or `{name:pattern}` when a pattern is given. */
  function PlaceholderText(name: string, pattern: Option<string>): string
  {
    if pattern.Some? then "{" + name + ":" + pattern.value + "}" else "{" + name + "}"
  }

  /** A placeholder written out is matched whole, with its name. */
  lemma MatchPlaceholderText(name: string, pattern: Option<string>, post: string)
    requires ':' !in name && '}' !in name
    requires pattern.Some? ==> '}' !in pattern.value
    ensures MatchPlaceholder(PlaceholderText(name, pattern) + post)
      == Some(Placeholder(name, |PlaceholderText(name, pattern)|))
  {
    if pattern.Some? {
      var ph := "{" + name + ":" + pattern.value + "}";
      assert PlaceholderText(name, pattern) == ph && |ph| == |name| + |pattern.value| + 3;
      MatchWithPattern(name, pattern.value, post);
    } else {
      var ph := "{" + name + "}";
      assert PlaceholderText(name, pattern) == ph && |ph| == |name| + 2;
      MatchPlain(name, post);
    }
  }

  lemma MatchPlain(name: string, post: string)
    requires ':' !in name && '}' !in name
    ensures MatchPlaceholder("{" + name + "}" + post) == Some(Placeholder(name, |name| + 2))
  {
    var s := "{" + name + "}" + post;
    assert s[1..] == name + ['}'] + post;
    FirstOfAt(name, '}', post, ':', '}');
    assert s[1..1 + |name|] == name;
  }

  lemma MatchWithPattern(name: string, pattern: string, post: string)
    requires ':' !in name && '}' !in name && '}' !in pattern
    ensures MatchPlaceholder("{" + name + ":" + pattern + "}" + post)
      == Some(Placeholder(name, |name| + |pattern| + 3))
  {
    var s := "{" + name + ":" + pattern + "}" + post;
    var j := |name|;
    assert s[1..] == name + [':'] + (pattern + "}" + post);
    FirstOfAt(name, ':', pattern + "}" + post, ':', '}');
    assert s[2 + j..] == pattern + ['}'] + post;
    FirstOfAt(pattern, '}', post, '}', '}');
    assert s[0] == '{' && s[1 + j] == ':';
    assert s[1..1 + j] == name;
    MatchAfterColon(s, j, |pattern|);
  }

  /** The pattern's two steps: the name ends at a `:`, the placeholder at the next `}`. */
  lemma MatchAfterColon(s: string, j: nat, k: nat)
    requires s != [] && s[0] == '{' && FirstOf(s[1..], ':', '}') == Some(j) && s[1 + j] == ':'
    requires FirstOf(s[2 + j..], '}', '}') == Some(k)
    ensures MatchPlaceholder(s) == Some(Placeholder(s[1..1 + j], j + 3 + k))
  {
  }

  /** `replaceRouteParameters` as a value: the route with every placeholder whose
      parameter is set replaced by that parameter (which is then pulled from the
      array), every other placeholder kept as written, and the parameters left. */
  function Substitute(s: string, params: OMap<string, string>): (r: (string, OMap<string, string>))
    ensures |r.1| <= |params|
    decreases |s|
  {
    if s == [] then ([], params)
    else match MatchPlaceholder(s)
      case Some(p) =>
        var v := Get(params, p.name);
        if v.Some? then
          var t := Substitute(s[p.length..], Remove(params, p.name));
          (v.value + t.0, t.1)
        else
          var t := Substitute(s[p.length..], params);
          (s[..p.length] + t.0, t.1)
      case None =>
        var t := Substitute(s[1..], params);
        ([s[0]] + t.0, t.1)
  }

  /** Text without `{` passes through and consumes nothing. */
  lemma {:induction false} SubstitutePrefix(pre: string, rest: string, params: OMap<string, string>)
    requires '{' !in pre
    ensures Substitute(pre + rest, params)
      == (pre + Substitute(rest, params).0, Substitute(rest, params).1)
  {
    if pre != [] {
      var s := pre + rest;
      assert s[0] == pre[0] && s[1..] == pre[1..] + rest;
      assert MatchPlaceholder(s).None?;
      SubstitutePrefix(pre[1..], rest, params);
      assert [pre[0]] + (pre[1..] + Substitute(rest, params).0) == pre + Substitute(rest, params).0;
    } else {
      assert pre + rest == rest && pre + Substitute(rest, params).0 == Substitute(rest, params).0;
    }
  }

  /** A placeholder of length `len` at the front of `s`, with parameter set:
      replaced and consumed. */
  lemma SubstituteSet(s: string, name: string, len: nat, params: OMap<string, string>)
    requires MatchPlaceholder(s) == Some(Placeholder(name, len))
    requires Get(params, name).Some?
    ensures Substitute(s, params)
      == (Get(params, name).value + Substitute(s[len..], Remove(params, name)).0,
          Substitute(s[len..], Remove(params, name)).1)
  {
  }

  /** A character that starts no placeholder is copied. */
  lemma SubstituteNoMatch(s: string, params: OMap<string, string>)
    requires s != [] && MatchPlaceholder(s).None?
    ensures Substitute(s, params) == ([s[0]] + Substitute(s[1..], params).0, Substitute(s[1..], params).1)
  {
  }

  /** A placeholder whose parameter is not set is kept as written. */
  lemma SubstituteUnset(s: string, name: string, len: nat, params: OMap<string, string>)
    requires MatchPlaceholder(s) == Some(Placeholder(name, len))
    requires Get(params, name).None?
    ensures Substitute(s, params) == (s[..len] + Substitute(s[len..], params).0, Substitute(s[len..], params).1)
  {
  }

  /** `{name}` and `{name:pattern}` after literal text: the parameter's value is
      put in place of the placeholder, and the parameter is consumed. */
  lemma SubstituteNamed(pre: string, name: string, pattern: Option<string>, post: string,
                        params: OMap<string, string>)
    requires '{' !in pre && ':' !in name && '}' !in name
    requires pattern.Some? ==> '}' !in pattern.value
    requires Get(params, name).Some?
    ensures var t := Substitute(post, Remove(params, name));
      Substitute(pre + PlaceholderText(name, pattern) + post, params)
        == (pre + Get(params, name).value + t.0, t.1)
  {
    var ph := PlaceholderText(name, pattern);
    var s := ph + post;
    MatchPlaceholderText(name, pattern, post);
    assert s[|ph|..] == post;
    SubstituteSet(s, name, |ph|, params);
    ConcatAssoc(pre, ph, post);
    SubstitutePrefix(pre, s, params);
    ConcatAssoc(pre, Get(params, name).value, Substitute(post, Remove(params, name)).0);
  }

  /** A placeholder whose parameter is not set stays as written. */
  lemma SubstituteKept(pre: string, name: string, pattern: Option<string>, post: string,
                       params: OMap<string, string>)
    requires '{' !in pre && ':' !in name && '}' !in name
    requires pattern.Some? ==> '}' !in pattern.value
    requires Get(params, name).None?
    ensures var t := Substitute(post, params);
      Substitute(pre + PlaceholderText(name, pattern) + post, params)
        == (pre + PlaceholderText(name, pattern) + t.0, t.1)
  {
    var ph := PlaceholderText(name, pattern);
    var s := ph + post;
    MatchPlaceholderText(name, pattern, post);
    assert s[..|ph|] == ph && s[|ph|..] == post;
    SubstituteUnset(s, name, |ph|, params);
    ConcatAssoc(pre, ph, post);
    SubstitutePrefix(pre, s, params);
    ConcatAssoc(pre, ph, Substitute(post, params).0);
  }

  /** The parameters left over are among those given, with their values, and
      still a proper array. */
  lemma {:induction false} SubstituteLeftover(s: string, params: OMap<string, string>, k: string)
    requires UniqueKeys(params)
    ensures UniqueKeys(Substitute(s, params).1)
    ensures k in Keys(Substitute(s, params).1) ==> Get(Substitute(s, params).1, k) == Get(params, k)
    decreases |s|
  {
    if s != [] {
      match MatchPlaceholder(s) {
        case Some(p) =>
          if Get(params, p.name).Some? {
            RemoveUnique(params, p.name);
            SubstituteLeftover(s[p.length..], Remove(params, p.name), k);
            RemoveGet(params, p.name, k);
          } else {
            SubstituteLeftover(s[p.length..], params, k);
          }
        case None =>
          SubstituteLeftover(s[1..], params, k);
      }
    }
  }

  /** One step of the scan over a route: the text put out for the front of `s`,
      the rest still to scan, and the parameters left. */
  function ScanStep(s: string, params: OMap<string, string>): (r: (string, string, OMap<string, string>))
    requires s != []
    ensures |r.1| < |s|
  {
    match MatchPlaceholder(s)
    case Some(p) =>
      if Get(params, p.name).Some? then (Get(params, p.name).value, s[p.length..], Remove(params, p.name))
      else (s[..p.length], s[p.length..], params)
    case None => ([s[0]], s[1..], params)
  }

  /** Substituting is one scan step followed by substituting the rest. */
  lemma SubstituteScanStep(s: string, params: OMap<string, string>)
    requires s != []
    ensures var st := ScanStep(s, params);
      Substitute(s, params) == (st.0 + Substitute(st.1, st.2).0, Substitute(st.1, st.2).1)
  {
    match MatchPlaceholder(s)
    case Some(p) =>
      if Get(params, p.name).Some? {
        SubstituteSet(s, p.name, p.length, params);
      } else {
        SubstituteUnset(s, p.name, p.length, params);
      }
    case None =>
      SubstituteNoMatch(s, params);
  }

  /** `replaceRouteParameters`: the scan over the route, pulling each used
      parameter out of `parameters` as the by-reference array of the source does. */
  method ReplaceRouteParameters(route: string, parameters: OMap<string, string>)
    returns (uri: string, left: OMap<string, string>)
    ensures (uri, left) == Substitute(route, parameters)
  {
    uri, left := "", parameters;
    var rest := route;
    assert uri + Substitute(rest, left).0 == Substitute(rest, left).0;
    while rest != []
      invariant Substitute(route, parameters) == (uri + Substitute(rest, left).0, Substitute(rest, left).1)
      decreases |rest|
    {
      var step := ScanStep(rest, left);
      SubstituteScanStep(rest, left);
      ConcatAssoc(uri, step.0, Substitute(step.1, step.2).0);
      uri, rest, left := uri + step.0, step.1, step.2;
    }
    assert uri + [] == uri;
  }

  /** The leftmost `[` from `i` on that is followed by no `]`. */
  function OpenBracket(body: string, i: nat): (r: Option<nat>)
    requires i <= |body|
    ensures r.Some? ==> i <= r.value < |body| && body[r.value] == '[' && ']' !in body[r.value + 1..]
    ensures forall m :: i <= m < (if r.Some? then r.value else |body|) ==> !(body[m] == '[' && ']' !in body[m + 1..])
    decreases |body| - i
  {
    if i == |body| then None
    else if body[i] == '[' && ']' !in body[i + 1..] then Some(i)
    else OpenBracket(body, i + 1)
  }

  /** The optional trailing segment (`\[([^\]]*)\]$`): its content is substituted,
      and the whole segment is dropped when that changed nothing. */
  function ExpandOptional(uri: string, params: OMap<string, string>): (r: (string, OMap<string, string>))
  {
    if uri != [] && uri[|uri| - 1] == ']' then
      var body := uri[..|uri| - 1];
      match OpenBracket(body, 0)
      case None => (uri, params)
      case Some(i) =>
        var content := body[i + 1..];
        var t := Substitute(content, params);
        (body[..i] + (if t.0 == content then "" else t.0), t.1)
    else (uri, params)
  }

  /** A trailing `[content]` is dropped when nothing in it was substituted, and
      replaced by its substituted content, brackets removed, otherwise. */
  lemma OptionalSegment(pre: string, content: string, params: OMap<string, string>)
    requires '[' !in pre && ']' !in content
    ensures var t := Substitute(content, params);
      && (t.0 == content ==> ExpandOptional(pre + "[" + content + "]", params) == (pre, t.1))
      && (t.0 != content ==> ExpandOptional(pre + "[" + content + "]", params) == (pre + t.0, t.1))
  {
    var uri := pre + "[" + content + "]";
    var body := pre + "[" + content;
    assert uri == body + "]";
    ExpandOptionalSplit(body, params);
    OpenBracketAt(pre, content);
    assert body[|pre| + 1..] == content;
    assert body[..|pre|] == pre && pre + "" == pre;
  }

  lemma ExpandOptionalSplit(body: string, params: OMap<string, string>)
    ensures match OpenBracket(body, 0)
      case None => ExpandOptional(body + "]", params) == (body + "]", params)
      case Some(i) =>
        var t := Substitute(body[i + 1..], params);
        ExpandOptional(body + "]", params) == (body[..i] + (if t.0 == body[i + 1..] then "" else t.0), t.1)
  {
    var uri := body + "]";
    assert uri[..|uri| - 1] == body;
  }

  lemma OpenBracketAt(pre: string, content: string)
    requires '[' !in pre && ']' !in content
    ensures OpenBracket(pre + "[" + content, 0) == Some(|pre|)
  {
    var body := pre + "[" + content;
    assert body[|pre|] == '[' && body[|pre| + 1..] == content;
    assert body[..|pre|] == pre;
    assert forall m :: 0 <= m < |pre| ==> body[m] != '[' by {
      forall m | 0 <= m < |pre| ensures body[m] != '[' {
        assert body[m] == body[..|pre|][m];
      }
    }
  }

  /** The optional-segment step of `route`: a trailing `[...]` is replaced by
      its substituted content, or dropped when nothing in it was substituted. */
  method ExpandOptionalSegment(uri: string, params: OMap<string, string>)
    returns (path: string, left: OMap<string, string>)
    ensures (path, left) == ExpandOptional(uri, params)
  {
    path, left := uri, params;
    if uri != [] && uri[|uri| - 1] == ']' {
      var body := uri[..|uri| - 1];
      var i := OpenBracket(body, 0);
      if i.Some? {
        var content := body[i.value + 1..];
        var replaced, rest := ReplaceRouteParameters(content, params);
        path := body[..i.value] + (if content == replaced then "" else replaced);
        left := rest;
      }
    }
  }

  /** A route with no trailing `]` has no optional segment. */
  lemma NoOptionalSegment(uri: string, params: OMap<string, string>)
    requires uri == [] || uri[|uri| - 1] != ']'
    ensures ExpandOptional(uri, params) == (uri, params)
  {
  }

  /** What `route` does to the named route's uri: the optional segment first,
      then the remaining placeholders; the parameters left over come with it. */
  function RoutePath(uri: string, params: OMap<string, string>): (string, OMap<string, string>)
  {
    var o := ExpandOptional(uri, params);
    Substitute(o.0, o.1)
  }

  /** The parameters left after `route` are among those given. */
  lemma RoutePathLeftover(uri: string, params: OMap<string, string>, k: string)
    requires UniqueKeys(params)
    ensures UniqueKeys(RoutePath(uri, params).1)
    ensures k in Keys(RoutePath(uri, params).1) ==> Get(RoutePath(uri, params).1, k) == Get(params, k)
  {
    var o := ExpandOptional(uri, params);
    ExpandOptionalLeftover(uri, params, k);
    SubstituteLeftover(o.0, o.1, k);
  }

  /** The parameters left after the optional segment are among those given. */
  lemma ExpandOptionalLeftover(uri: string, params: OMap<string, string>, k: string)
    requires UniqueKeys(params)
    ensures UniqueKeys(ExpandOptional(uri, params).1)
    ensures k in Keys(ExpandOptional(uri, params).1) ==> Get(ExpandOptional(uri, params).1, k) == Get(params, k)
  {
    if uri != [] && uri[|uri| - 1] == ']' {
      var body := uri[..|uri| - 1];
      match OpenBracket(body, 0) {
        case None =>
        case Some(i) =>
          SubstituteLeftover(body[i + 1..], params, k);
      }
    }
  }

  /** The routes of the url-generation tests: `/foo-bar/{baz}/{boom}`, with or
      without a pattern on each placeholder, given `baz = 1` and `boom = 2`,
      becomes `/foo-bar/1/2` with no parameters left. */
  lemma GeneratingUrlsExample(baz: Option<string>, boom: Option<string>)
    requires baz == None || baz == Some("[0-9]+")
    requires boom == None || boom == Some("[0-9]+")
    ensures RoutePath("/foo-bar/" + PlaceholderText("baz", baz) + "/" + PlaceholderText("boom", boom),
                      [("baz", "1"), ("boom", "2")]) == ("/foo-bar/1/2", [])
  {
    var ph1 := PlaceholderText("baz", baz);
    var ph2 := PlaceholderText("boom", boom);
    var params := [("baz", "1"), ("boom", "2")];
    var uri := "/foo-bar/" + ph1 + "/" + ph2;
    assert uri[|uri| - 1] == ph2[|ph2| - 1] == '}';
    NoOptionalSegment(uri, params);
    ExampleSubstitution(baz, boom);
  }

  lemma ExampleSubstitution(baz: Option<string>, boom: Option<string>)
    requires baz == None || baz == Some("[0-9]+")
    requires boom == None || boom == Some("[0-9]+")
    ensures Substitute("/foo-bar/" + PlaceholderText("baz", baz) + "/" + PlaceholderText("boom", boom),
                       [("baz", "1"), ("boom", "2")]) == ("/foo-bar/1/2", [])
  {
    var ph1 := PlaceholderText("baz", baz);
    var ph2 := PlaceholderText("boom", boom);
    ConcatAssoc("/foo-bar/" + ph1, "/", ph2);
    ExampleFirstPlaceholder(baz, "/" + ph2);
    ExampleSecondPlaceholder(boom);
    ExampleUrlLiteral();
  }

  lemma ExampleUrlLiteral()
    ensures "/foo-bar/" + "1" + "/2" == "/foo-bar/1/2"
  {
  }

  lemma ExampleFirstPlaceholder(baz: Option<string>, post: string)
    requires baz == None || baz == Some("[0-9]+")
    ensures var t := Substitute(post, [("boom", "2")]);
      Substitute("/foo-bar/" + PlaceholderText("baz", baz) + post, [("baz", "1"), ("boom", "2")])
        == ("/foo-bar/" + "1" + t.0, t.1)
  {
    var params := [("baz", "1"), ("boom", "2")];
    assert Remove(params, "baz") == [("boom", "2")];
    assert Get(params, "baz") == Some("1");
    SubstituteNamed("/foo-bar/", "baz", baz, post, params);
  }

  lemma ExampleSecondPlaceholder(boom: Option<string>)
    requires boom == None || boom == Some("[0-9]+")
    ensures Substitute("/" + PlaceholderText("boom", boom), [("boom", "2")]) == ("/2", [])
  {
    var rest := [("boom", "2")];
    var ph2 := PlaceholderText("boom", boom);
    assert "/" + ph2 == "/" + ph2 + "";
    assert Get(rest, "boom") == Some("2");
    SubstituteNamed("/", "boom", boom, "", rest);
    assert Remove(rest, "boom") == [];
    assert "/" + "2" + "" == "/2";
  }

  /** The URL generator. The request's scheme and root, `rawurlencode`,
      `filter_var` and `http_build_query` are fixed when it is made. */
  class UrlGenerator {
    var forcedRoot: Option<string>
    var forcedScheme: Option<string>
    var cachedRoot: Option<string>
    var cachedSchema: Option<string>
    const requestScheme: string
    const requestRoot: string
    const encode: string -> string
    const filterVar: string -> bool
    const buildQuery: OMap<string, string> -> string

    constructor(requestScheme: string, requestRoot: string, encode: string -> string,
                filterVar: string -> bool, buildQuery: OMap<string, string> -> string)
      ensures forcedRoot == None && forcedScheme == None && cachedRoot == None && cachedSchema == None
      ensures this.requestScheme == requestScheme && this.requestRoot == requestRoot
      ensures this.encode == encode && this.filterVar == filterVar && this.buildQuery == buildQuery
    {
      this.requestScheme := requestScheme;
      this.requestRoot := requestRoot;
      this.encode := encode;
      this.filterVar := filterVar;
      this.buildQuery := buildQuery;
      forcedRoot := None;
      forcedScheme := None;
      cachedRoot := None;
      cachedSchema := None;
    }

    /** The scheme filled into an empty cache: the forced one, else the request's. */
    function DefaultScheme(): string
      reads this`forcedScheme
    {
      if forcedScheme.Some? && Truthy(forcedScheme.value) then forcedScheme.value else requestScheme + "://"
    }

    /** The scheme `formatScheme($secure)` returns in the current state. */
    function SchemeFor(secure: Option<bool>): (r: string)
      reads this`forcedScheme, this`cachedSchema
      ensures secure.Some? ==> r == SchemeOf(secure.value)
      ensures secure.None? && cachedSchema.Some? ==> r == cachedSchema.value
    {
      if secure.Some? then SchemeOf(secure.value)
      else if cachedSchema.Some? then cachedSchema.value
      else DefaultScheme()
    }

    /** The cached scheme after `formatScheme($secure)`. */
    function SchemaCacheAfter(secure: Option<bool>): Option<string>
      reads this`forcedScheme, this`cachedSchema
    {
      if secure.None? && cachedSchema.None? then Some(DefaultScheme()) else cachedSchema
    }

    /** The root filled into an empty cache: the forced one, else the request's. */
    function DefaultRoot(): string
      reads this`forcedRoot
    {
      if forcedRoot.Some? && Truthy(forcedRoot.value) then forcedRoot.value else requestRoot
    }

    /** The root `getRootUrl` starts from: the given one, else the cached one. */
    function RootFor(root: Option<string>): (r: string)
      reads this`forcedRoot, this`cachedRoot
      ensures root.Some? ==> r == root.value
      ensures root.None? && cachedRoot.Some? ==> r == cachedRoot.value
    {
      if root.Some? then root.value
      else if cachedRoot.Some? then cachedRoot.value
      else DefaultRoot()
    }

    /** The cached root after `getRootUrl($scheme, $root)`. */
    function RootCacheAfter(root: Option<string>): Option<string>
      reads this`forcedRoot, this`cachedRoot
    {
      if root.None? && cachedRoot.None? then Some(DefaultRoot()) else cachedRoot
    }

    /** The URL `to($path, $extra, $secure)` returns in the current state. */
    function ToUrl(path: string, extra: ParamsInput, secure: Option<bool>): string
      reads this`forcedScheme, this`cachedSchema, this`forcedRoot, this`cachedRoot
    {
      if IsValidUrl(path, filterVar) then path
      else TrimUrl(SwapScheme(RootFor(None), SchemeFor(secure)), path, Tail(encode, extra))
    }

    /** The URL `asset($path, $secure)` returns in the current state: a URL as
        it is, else the root with the scheme for `$secure`, without `/index.php`,
        then `/` and the path trimmed of `/`. */
    function AssetUrl(path: string, secure: Option<bool>): string
      reads this`forcedScheme, this`cachedSchema, this`forcedRoot, this`cachedRoot
    {
      if IsValidUrl(path, filterVar) then path
      else RemoveIndex(SwapScheme(RootFor(None), SchemeFor(secure))) + "/" + Trim(path, '/')
    }

    /** The leftover parameters appended to a URL as a query string, if any. */
    function WithQuery(url: string, left: OMap<string, string>): string
    {
      if left == [] then url else url + "?" + buildQuery(left)
    }

    /** The URL `route` gives for the named uri in the current state. */
    function RouteUrl(uri: string, parameters: ParamsInput, secure: Option<bool>): string
      reads this`forcedScheme, this`cachedSchema, this`forcedRoot, this`cachedRoot
    {
      var p := RoutePath(uri, FormatParameters(parameters));
      WithQuery(ToUrl(p.0, NoExtra, secure), p.1)
    }

    /** `forceScheme`: the next scheme lookup without `$secure` gives `schema://`. */
    method ForceScheme(schema: string)
      modifies this`cachedSchema, this`forcedScheme
      ensures cachedSchema == None && forcedScheme == Some(schema + "://")
      ensures SchemeFor(None) == schema + "://"
    {
      cachedSchema := None;
      forcedScheme := Some(schema + "://");
    }

    /** `formatScheme`: `https://` or `http://` for a given `$secure`, leaving the
        cache alone; otherwise the cached scheme, filled first when empty. */
    method FormatScheme(secure: Option<bool>) returns (r: string)
      modifies this`cachedSchema
      ensures r == old(SchemeFor(secure))
      ensures cachedSchema == old(SchemaCacheAfter(secure))
      ensures secure.Some? ==> r == SchemeOf(secure.value) && cachedSchema == old(cachedSchema)
      ensures secure.None? ==> cachedSchema == Some(r)
    {
      if secure.Some? {
        return SchemeOf(secure.value);
      }
      if cachedSchema.None? {
        cachedSchema := Some(if forcedScheme.Some? && Truthy(forcedScheme.value) then forcedScheme.value
                             else requestScheme + "://");
      }
      r := cachedSchema.value;
    }

    /** `getSchemeForUrl`: the same scheme and cache as `formatScheme`. */
    method GetSchemeForUrl(secure: Option<bool>) returns (r: string)
      modifies this`cachedSchema
      ensures r == old(SchemeFor(secure))
      ensures cachedSchema == old(SchemaCacheAfter(secure))
    {
      if secure.None? {
        if cachedSchema.None? {
          var s := FormatScheme(secure);
          cachedSchema := Some(s);
        }
        return cachedSchema.value;
      }
      r := SchemeOf(secure.value);
    }

    /** `getRootUrl`: the given root, else the cached one (filled first when empty),
        with its scheme swapped for `scheme`. */
    method GetRootUrl(scheme: string, root: Option<string>) returns (r: string)
      modifies this`cachedRoot
      ensures r == SwapScheme(old(RootFor(root)), scheme)
      ensures cachedRoot == old(RootCacheAfter(root))
    {
      var base: string;
      if root.None? {
        if cachedRoot.None? {
          cachedRoot := Some(if forcedRoot.Some? && Truthy(forcedRoot.value) then forcedRoot.value else requestRoot);
        }
        base := cachedRoot.value;
      } else {
        base := root.value;
      }
      r := SwapScheme(base, scheme);
    }

    /** `forceRootUrl`: the root without trailing `/` is forced and the cache cleared. */
    method ForceRootUrl(root: string)
      modifies this`forcedRoot, this`cachedRoot
      ensures forcedRoot == Some(TrimRight(root, '/')) && cachedRoot == None
      ensures TrimRight(root, '/') == [] || TrimRight(root, '/')[|TrimRight(root, '/')| - 1] != '/'
      ensures Truthy(TrimRight(root, '/')) ==> RootFor(None) == TrimRight(root, '/')
    {
      forcedRoot := Some(TrimRight(root, '/'));
      cachedRoot := None;
    }

    /** `to`: a URL is returned as is; otherwise the root with the current scheme,
        the path and the encoded extra segments, trimmed and joined by `/`. */
    method To(path: string, extra: ParamsInput, secure: Option<bool>) returns (r: string)
      modifies this`cachedSchema, this`cachedRoot
      ensures r == old(ToUrl(path, extra, secure))
      ensures StartsWithAny(path, ValidUrlPrefixes) ==> r == path
      ensures IsValidUrl(path, filterVar) ==> cachedSchema == old(cachedSchema) && cachedRoot == old(cachedRoot)
      ensures !IsValidUrl(path, filterVar) ==>
        cachedSchema == old(SchemaCacheAfter(secure)) && cachedRoot == old(RootCacheAfter(None))
    {
      if IsValidUrl(path, filterVar) {
        return path;
      }
      ghost var base := RootFor(None);
      var scheme := GetSchemeForUrl(secure);
      assert RootFor(None) == base;
      var tail := Implode(EncodedValues(encode, FormatParameters(extra)), "/");
      var root := GetRootUrl(scheme, None);
      r := TrimUrl(root, path, tail);
    }

    /** `asset`: a URL is returned as is; otherwise the root with the current
        scheme, without `/index.php`, then `/` and the path trimmed of `/`. */
    method Asset(path: string, secure: Option<bool>) returns (r: string)
      modifies this`cachedSchema, this`cachedRoot
      ensures r == old(AssetUrl(path, secure))
      ensures IsValidUrl(path, filterVar) ==> r == path
      ensures IsValidUrl(path, filterVar) ==> cachedSchema == old(cachedSchema) && cachedRoot == old(cachedRoot)
      ensures !IsValidUrl(path, filterVar) ==>
        cachedSchema == old(SchemaCacheAfter(secure)) && cachedRoot == old(RootCacheAfter(None))
    {
      if IsValidUrl(path, filterVar) {
        return path;
      }
      ghost var base := RootFor(None);
      ghost var swapped := SwapScheme(base, SchemeFor(secure));
      assert AssetUrl(path, secure) == RemoveIndex(swapped) + "/" + Trim(path, '/');
      var scheme := FormatScheme(secure);
      assert RootFor(None) == base;
      var root := GetRootUrl(scheme, None);
      assert root == swapped;
      r := RemoveIndex(root) + "/" + Trim(path, '/');
    }

    /** `route`: an undefined name is an invalid-argument error; otherwise the
        named uri with its parameters substituted, made absolute by `to`, and
        the parameters left over appended as a query string. */
    method Route(name: string, parameters: ParamsInput, secure: Option<bool>,
                 namedRoutes: OMap<string, string>) returns (r: Result<string, string>)
      modifies this`cachedSchema, this`cachedRoot
      ensures Get(namedRoutes, name).None? ==>
        r == Failure("Route [" + name + "] not defined.")
        && cachedSchema == old(cachedSchema) && cachedRoot == old(cachedRoot)
      ensures Get(namedRoutes, name).Some? ==>
        r == Success(old(RouteUrl(Get(namedRoutes, name).value, parameters, secure)))
      ensures Get(namedRoutes, name).Some? ==>
        var p := RoutePath(Get(namedRoutes, name).value, FormatParameters(parameters)).0;
        && (IsValidUrl(p, filterVar) ==> cachedSchema == old(cachedSchema) && cachedRoot == old(cachedRoot))
        && (!IsValidUrl(p, filterVar) ==>
              cachedSchema == old(SchemaCacheAfter(secure)) && cachedRoot == old(RootCacheAfter(None)))
    {
      var uri := Get(namedRoutes, name);
      if uri.None? {
        return Failure("Route [" + name + "] not defined.");
      }
      ghost var expanded := RoutePath(uri.value, FormatParameters(parameters));
      ghost var absolute := ToUrl(expanded.0, NoExtra, secure);
      ghost var schemaAfter, rootAfter := SchemaCacheAfter(secure), RootCacheAfter(None);
      assert RouteUrl(uri.value, parameters, secure) == WithQuery(absolute, expanded.1);
      var path, params := ExpandOptionalSegment(uri.value, FormatParameters(parameters));
      path, params := ReplaceRouteParameters(path, params);
      assert (path, params) == expanded;
      assert ToUrl(path, NoExtra, secure) == absolute;
      var url := To(path, NoExtra, secure);
      assert !IsValidUrl(expanded.0, filterVar) ==> cachedSchema == schemaAfter && cachedRoot == rootAfter;
      if params != [] {
        url := url + "?" + buildQuery(params);
      }
      r := Success(url);
    }
  }

  /** Once a scheme is forced and the cache is empty, schemeless lookups give
      the forced scheme; `true` and `false` give `https://` and `http://` whatever
      is cached. */
  lemma ForcedSchemeWins(g: UrlGenerator, schema: string)
    requires g.cachedSchema == None && g.forcedScheme == Some(schema + "://")
    ensures g.SchemeFor(None) == schema + "://"
    ensures g.SchemeFor(Some(true)) == "https://" && g.SchemeFor(Some(false)) == "http://"
  {
  }

  /** The scheme of an `http://` or `https://` root is replaced by the one asked for. */
  lemma SwapSchemeExample(host: string)
    ensures SwapScheme("http://" + host, "https://") == "https://" + host
    ensures SwapScheme("https://" + host, "http://") == "http://" + host
  {
    assert StartsWith("http://" + host, "http://") && ("http://" + host)[7..] == host;
    assert StartsWith("https://" + host, "https://") && ("https://" + host)[8..] == host;
  }
}
