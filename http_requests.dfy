/** The string transforms of the testing helpers that build requests: header
    names turned into `$_SERVER` keys, the uri made absolute, and the default
    headers of a JSON request. */
module TestRequests {
  import opened Wrappers
  import opened PhpStrings
  import opened PhpArrays

  /** `strtr(strtoupper($name), '-', '_')`. */
  function Normalize(name: string): (r: string)
    ensures |r| == |name|
    ensures forall i :: 0 <= i < |r| ==> !('a' <= r[i] <= 'z') && r[i] != '-'
  {
    ReplaceChar(ToUpper(name), '-', '_')
  }

  /** A name with no lower-case letter and no `-` is already normalised. */
  lemma NormalizeFixed(s: string)
    requires forall i :: 0 <= i < |s| ==> !('a' <= s[i] <= 'z') && s[i] != '-'
    ensures Normalize(s) == s
  {
    assert forall i :: 0 <= i < |s| ==> ToUpper(s)[i] == s[i];
    assert ToUpper(s) == s;
  }

  /** The `$_SERVER` key of a header: normalised, and prefixed with `HTTP_`
      unless it already starts with it or is `CONTENT_TYPE`. */
  function ServerKey(name: string): (r: string)
    ensures StartsWith(r, "HTTP_") || r == "CONTENT_TYPE"
    ensures r == Normalize(name) || r == "HTTP_" + Normalize(name)
    ensures StartsWith(Normalize(name), "HTTP_") || Normalize(name) == "CONTENT_TYPE" ==> r == Normalize(name)
    ensures forall i :: 0 <= i < |r| ==> !('a' <= r[i] <= 'z') && r[i] != '-'
  {
    var n := Normalize(name);
    if !StartsWith(n, "HTTP_") && n != "CONTENT_TYPE" then
      var r := "HTTP_" + n;
      assert StartsWith(r, "HTTP_") by { assert r[..5] == "HTTP_"; }
      assert forall i :: 5 <= i < |r| ==> r[i] == n[i - 5];
      r
    else n
  }

  /** A server key is its own server key. */
  lemma ServerKeyIdempotent(name: string)
    ensures ServerKey(ServerKey(name)) == ServerKey(name)
  {
    NormalizeFixed(ServerKey(name));
  }

  /** `transformHeadersToServerVars` as a value: each header written, in order,
      under its server key. */
  function ServerVars<V>(headers: OMap<string, V>): OMap<string, V>
  {
    if headers == [] then []
    else
      var last := headers[|headers| - 1];
      Put(ServerVars(headers[..|headers| - 1]), ServerKey(last.0), last.1)
  }

  /** `transformHeadersToServerVars`: the `foreach` over the headers. */
  method TransformHeadersToServerVars<V>(headers: OMap<string, V>) returns (server: OMap<string, V>)
    ensures server == ServerVars(headers)
  {
    server := [];
    var i := 0;
    while i < |headers|
      invariant 0 <= i <= |headers|
      invariant server == ServerVars(headers[..i])
    {
      var name := ServerKey(headers[i].0);
      server := Put(server, name, headers[i].1);
      assert headers[..i + 1][..i] == headers[..i];
      i := i + 1;
    }
    assert headers[..i] == headers;
  }

  /** The server array is an array: no key twice, and every key normalised. */
  lemma {:induction false} ServerVarsKeys<V>(headers: OMap<string, V>)
    ensures UniqueKeys(ServerVars(headers))
    ensures forall k :: k in Keys(ServerVars(headers)) ==> ServerKey(k) == k
    ensures forall k :: k in Keys(ServerVars(headers)) ==>
      exists i :: 0 <= i < |headers| && ServerKey(headers[i].0) == k
  {
    if headers != [] {
      var init := headers[..|headers| - 1];
      var last := headers[|headers| - 1];
      ServerVarsKeys(init);
      PutUnique(ServerVars(init), ServerKey(last.0), last.1);
      PutKeys(ServerVars(init), ServerKey(last.0), last.1);
      ServerKeyIdempotent(last.0);
      forall k | k in Keys(ServerVars(headers))
        ensures exists i :: 0 <= i < |headers| && ServerKey(headers[i].0) == k
      {
        if k != ServerKey(last.0) {
          var i :| 0 <= i < |init| && ServerKey(init[i].0) == k;
          assert headers[i] == init[i];
        } else {
          assert ServerKey(headers[|headers| - 1].0) == k;
        }
      }
    }
  }

  /** The value under a server key is that of the last header with that key. */
  lemma {:induction false} ServerVarsLast<V>(headers: OMap<string, V>, i: nat)
    requires i < |headers|
    requires forall j :: i < j < |headers| ==> ServerKey(headers[j].0) != ServerKey(headers[i].0)
    ensures Get(ServerVars(headers), ServerKey(headers[i].0)) == Some(headers[i].1)
  {
    var init := headers[..|headers| - 1];
    var last := headers[|headers| - 1];
    if i == |headers| - 1 {
      PutGet(ServerVars(init), ServerKey(last.0), last.1);
    } else {
      assert init[i] == headers[i];
      assert forall j :: i < j < |init| ==> init[j] == headers[j];
      ServerVarsLast(init, i);
      PutOther(ServerVars(init), ServerKey(last.0), last.1, ServerKey(headers[i].0));
    }
  }

  /** A key no header maps to is absent. */
  lemma {:induction false} ServerVarsMissing<V>(headers: OMap<string, V>, k: string)
    requires forall j :: 0 <= j < |headers| ==> ServerKey(headers[j].0) != k
    ensures Get(ServerVars(headers), k) == None
  {
    if headers != [] {
      var init := headers[..|headers| - 1];
      var last := headers[|headers| - 1];
      assert forall j :: 0 <= j < |init| ==> init[j] == headers[j];
      ServerVarsMissing(init, k);
      PutOther(ServerVars(init), ServerKey(last.0), last.1, k);
    }
  }

  /** Already-normalised, duplicate-free keys are written back as they are. */
  lemma {:induction false} ServerVarsOfNormalised<V>(m: OMap<string, V>)
    requires UniqueKeys(m)
    requires forall k :: k in Keys(m) ==> ServerKey(k) == k
    ensures ServerVars(m) == m
  {
    if m != [] {
      var init := m[..|m| - 1];
      var last := m[|m| - 1];
      NormalisedInit(m);
      ServerVarsOfNormalised(init);
      PutAppends(init, last.0, last.1);
      assert init + [last] == m;
    }
  }

  lemma NormalisedInit<V>(m: OMap<string, V>)
    requires m != [] && UniqueKeys(m)
    requires forall k :: k in Keys(m) ==> ServerKey(k) == k
    ensures var init := m[..|m| - 1];
      && UniqueKeys(init) && (forall k :: k in Keys(init) ==> ServerKey(k) == k)
      && m[|m| - 1].0 !in Keys(init) && ServerKey(m[|m| - 1].0) == m[|m| - 1].0
  {
    var init := m[..|m| - 1];
    assert forall j :: 0 <= j < |init| ==> init[j] == m[j];
    forall k | k in Keys(init) ensures ServerKey(k) == k {
      var j :| 0 <= j < |init| && Keys(init)[j] == k;
      assert Keys(m)[j] == k;
    }
    assert Keys(m)[|m| - 1] == m[|m| - 1].0;
  }

  /** Transforming the transformed headers changes nothing. */
  lemma ServerVarsIdempotent<V>(headers: OMap<string, V>)
    ensures ServerVars(ServerVars(headers)) == ServerVars(headers)
  {
    ServerVarsKeys(headers);
    ServerVarsOfNormalised(ServerVars(headers));
  }

  /** `prepareUrlForRequest` as a value. */
  function PreparedUrl(baseUrl: string, uri: string): (r: string)
    ensures NoEdge(r, '/')
  {
    var u := if StartsWith(uri, "/") then uri[1..] else uri;
    Trim(if StartsWith(u, "http") then u else baseUrl + "/" + u, '/')
  }

  /** `prepareUrlForRequest`: one leading `/` dropped, the base url put in front
      of anything not starting with `http`, and `/` trimmed off both ends. */
  method PrepareUrlForRequest(baseUrl: string, uri: string) returns (r: string)
    ensures r == PreparedUrl(baseUrl, uri)
  {
    var u := uri;
    if StartsWith(u, "/") {
      u := u[1..];
    }
    if !StartsWith(u, "http") {
      u := baseUrl + "/" + u;
    }
    r := Trim(u, '/');
  }

  /** A path is joined to a base url without `/` at its ends by exactly one `/`,
      and an absolute `http` url is only trimmed. */
  lemma PreparedUrlShape(baseUrl: string, uri: string)
    ensures var u := if StartsWith(uri, "/") then uri[1..] else uri;
      && (StartsWith(u, "http") ==> PreparedUrl(baseUrl, uri) == Trim(u, '/'))
      && (!StartsWith(u, "http") && baseUrl != [] && NoEdge(baseUrl, '/') && NoEdge(u, '/') ==>
            PreparedUrl(baseUrl, uri) == if u == [] then baseUrl else baseUrl + "/" + u)
  {
    var u := if StartsWith(uri, "/") then uri[1..] else uri;
    if !StartsWith(u, "http") && baseUrl != [] && NoEdge(baseUrl, '/') && NoEdge(u, '/') {
      TrimJoin(baseUrl, u, '/');
    }
  }

  /** The default headers of `json`, in their order. */
  function JsonDefaults(contentLength: string): OMap<string, string>
  {
    [("CONTENT_LENGTH", contentLength), ("CONTENT_TYPE", "application/json"), ("Accept", "application/json")]
  }

  /** The headers `json` sends: the defaults merged with the caller's, the
      caller's winning. `contentLength` is the byte length of the encoded body. */
  function JsonHeaders(contentLength: string, headers: OMap<string, string>): OMap<string, string>
  {
    Merge(JsonDefaults(contentLength), headers)
  }

  /** A header the caller gives keeps the caller's value; the two content
      headers default to `application/json` otherwise. */
  lemma JsonHeadersOverride(contentLength: string, headers: OMap<string, string>, k: string)
    requires UniqueKeys(headers)
    ensures k in Keys(headers) ==> Get(JsonHeaders(contentLength, headers), k) == Get(headers, k)
    ensures "CONTENT_TYPE" !in Keys(headers) ==> Get(JsonHeaders(contentLength, headers), "CONTENT_TYPE") == Some("application/json")
    ensures "Accept" !in Keys(headers) ==> Get(JsonHeaders(contentLength, headers), "Accept") == Some("application/json")
  {
    var d := JsonDefaults(contentLength);
    MergeGet(d, headers, k);
    MergeGet(d, headers, "CONTENT_TYPE");
    MergeGet(d, headers, "Accept");
    JsonDefaultsGet(contentLength);
  }

  lemma JsonDefaultsGet(contentLength: string)
    ensures Get(JsonDefaults(contentLength), "CONTENT_TYPE") == Some("application/json")
    ensures Get(JsonDefaults(contentLength), "Accept") == Some("application/json")
  {
  }
}
