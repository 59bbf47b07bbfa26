/** The PHP string built-ins that the framework's own code relies on, over `seq<char>`.
    Only the one-character forms the framework uses are modelled: `trim($s, '/')`,
    `explode('|', $s)`, `strtr($s, '-', '_')`, and so on. */
module PhpStrings {
  import opened Wrappers

  /** PHP's truthiness of a string (`if ($s)`, `$s ?: ...`): only "" and "0" are false. */
  predicate Truthy(s: string)
  {
    s != "" && s != "0"
  }

  /** `n` copies of `c`. */
  function Repeat(c: char, n: nat): (r: string)
    ensures |r| == n
    ensures forall i :: 0 <= i < n ==> r[i] == c
  {
    if n == 0 then [] else [c] + Repeat(c, n - 1)
  }

  /** `ltrim($s, $c)`: drops every leading `c`. */
  function TrimLeft(s: string, c: char): (r: string)
    ensures |r| <= |s| && r == s[|s| - |r|..]
    ensures forall i :: 0 <= i < |s| - |r| ==> s[i] == c
    ensures r == [] || r[0] != c
    decreases |s|
  {
    if s != [] && s[0] == c then TrimLeft(s[1..], c) else s
  }

  /** `rtrim($s, $c)`: drops every trailing `c`. */
  function TrimRight(s: string, c: char): (r: string)
    ensures |r| <= |s| && r == s[..|r|]
    ensures forall i :: |r| <= i < |s| ==> s[i] == c
    ensures r == [] || r[|r| - 1] != c
    decreases |s|
  {
    if s != [] && s[|s| - 1] == c then TrimRight(s[..|s| - 1], c) else s
  }

  /** Neither the first nor the last character of `s` is `c`. */
  predicate NoEdge(s: string, c: char)
  {
    s == [] || (s[0] != c && s[|s| - 1] != c)
  }

  /** A path that starts with `/` and has no other `/` at its ends: `/` alone,
      or `/` followed by something that neither starts nor ends with `/`. */
  predicate SlashPath(r: string)
  {
    |r| >= 1 && r[0] == '/' && (|r| == 1 || (r[1] != '/' && r[|r| - 1] != '/'))
  }

  /** One `/` in front of a string with no `/` at its ends is such a path. */
  lemma SlashBeforeTrimmed(t: string)
    requires NoEdge(t, '/')
    ensures SlashPath("/" + t)
  {
  }

  /** `trim($s, $c)`: drops every leading and every trailing `c`. */
  function Trim(s: string, c: char): (r: string)
    ensures NoEdge(r, c)
    ensures |r| <= |s|
  {
    var l := TrimLeft(s, c);
    var r := TrimRight(l, c);
    assert r != [] ==> r[0] == l[0];
    r
  }

  lemma TrimLeftNoEdge(s: string, c: char)
    requires s == [] || s[0] != c
    ensures TrimLeft(s, c) == s
  {
  }

  lemma TrimRightNoEdge(s: string, c: char)
    requires s == [] || s[|s| - 1] != c
    ensures TrimRight(s, c) == s
  {
  }

  /** A string with no `c` at either end is its own trim. */
  lemma TrimNoEdge(s: string, c: char)
    requires NoEdge(s, c)
    ensures Trim(s, c) == s
  {
    TrimLeftNoEdge(s, c);
    TrimRightNoEdge(s, c);
  }

  /** Trimming twice is trimming once. */
  lemma TrimIdempotent(s: string, c: char)
    ensures Trim(Trim(s, c), c) == Trim(s, c)
  {
    TrimNoEdge(Trim(s, c), c);
  }

  /** `Trim` removes exactly a run of `c` at each end: what is left is a
      contiguous middle part of the input, preceded and followed by `c` only. */
  lemma TrimRemovesEdgeRuns(s: string, c: char) returns (k: nat)
    ensures k + |Trim(s, c)| <= |s| && Trim(s, c) == s[k..k + |Trim(s, c)|]
    ensures forall i :: 0 <= i < k ==> s[i] == c
    ensures forall i :: k + |Trim(s, c)| <= i < |s| ==> s[i] == c
  {
    var l := TrimLeft(s, c);
    var r := Trim(s, c);
    k := |s| - |l|;
    assert r == TrimRight(l, c);
    assert l == s[k..] && r == l[..|r|];
    SliceOfSuffix(s, k, |r|);
    forall i | k + |r| <= i < |s|
      ensures s[i] == c
    {
      assert s[i] == l[i - k];
    }
  }

  lemma SliceOfSuffix(s: string, k: nat, n: nat)
    requires k + n <= |s|
    ensures s[k..][..n] == s[k..k + n]
  {
  }

  /** One leading `c` makes no difference to the trim. */
  lemma TrimDropsLeading(s: string, c: char)
    ensures Trim([c] + s, c) == Trim(s, c)
  {
    assert ([c] + s)[1..] == s;
  }

  lemma ConcatAssoc<T>(a: seq<T>, b: seq<T>, c: seq<T>)
    ensures a + (b + c) == (a + b) + c
  {
  }

  /** `str_starts_with` / `Str::startsWith` for one prefix. */
  predicate StartsWith(s: string, prefix: string)
  {
    |prefix| <= |s| && s[..|prefix|] == prefix
  }

  /** `Str::contains`: `p` occurs somewhere in `s`. */
  predicate Contains(s: string, p: string)
    decreases |s|
  {
    StartsWith(s, p) || (s != [] && Contains(s[1..], p))
  }

  /** `strtoupper` on one ASCII character. */
  function UpperChar(ch: char): (r: char)
    ensures 'a' <= ch <= 'z' ==> r as int == ch as int - 32
    ensures !('a' <= ch <= 'z') ==> r == ch
  {
    if 'a' <= ch <= 'z' then (ch as int - 32) as char else ch
  }

  /** `strtoupper`: ASCII letters only, as in PHP 8. */
  function ToUpper(s: string): (r: string)
    ensures |r| == |s|
    ensures forall i :: 0 <= i < |s| ==> r[i] == UpperChar(s[i])
  {
    if s == [] then [] else [UpperChar(s[0])] + ToUpper(s[1..])
  }

  /** `strtr($s, $from, $to)` with one-character arguments. */
  function ReplaceChar(s: string, from: char, to: char): (r: string)
    ensures |r| == |s|
    ensures forall i :: 0 <= i < |s| ==> r[i] == if s[i] == from then to else s[i]
  {
    if s == [] then [] else [if s[0] == from then to else s[0]] + ReplaceChar(s[1..], from, to)
  }

  /** `implode($sep, $parts)`. */
  function Implode(parts: seq<string>, sep: string): string
  {
    if |parts| == 0 then ""
    else if |parts| == 1 then parts[0]
    else parts[0] + sep + Implode(parts[1..], sep)
  }

  /** `explode($d, $s)` with a one-character delimiter: the pieces between the
      delimiters, at least one, none containing the delimiter, and joined back
      by the delimiter they give the input again. */
  function Explode(s: string, d: char): (r: seq<string>)
    ensures |r| >= 1
    ensures forall i :: 0 <= i < |r| ==> d !in r[i]
    ensures Implode(r, [d]) == s
  {
    if s == [] then [[]]
    else
      var rest := Explode(s[1..], d);
      if s[0] == d then
        assert Implode([[]] + rest, [d]) == [] + [d] + Implode(rest, [d]) by {
          assert ([[]] + rest)[1..] == rest;
        }
        [[]] + rest
      else
        var r := [[s[0]] + rest[0]] + rest[1..];
        assert Implode(r, [d]) == [s[0]] + Implode(rest, [d]) by {
          if |rest| > 1 {
            assert r[1..] == rest[1..];
          }
        }
        r
  }

  lemma {:induction false} ExplodeNoDelimiter(s: string, d: char)
    requires d !in s
    ensures Explode(s, d) == [s]
  {
    if s != [] {
      ExplodeNoDelimiter(s[1..], d);
    }
  }

  lemma {:induction false} ExplodeConcat(p: string, rest: string, d: char)
    requires d !in p
    ensures Explode(p + [d] + rest, d) == [p] + Explode(rest, d)
  {
    if p == [] {
      assert (p + [d] + rest)[1..] == rest;
    } else {
      var s := p + [d] + rest;
      assert s[0] == p[0] && s[0] != d;
      assert s[1..] == p[1..] + [d] + rest;
      ExplodeConcat(p[1..], rest, d);
      var r := Explode(s[1..], d);
      assert r == [p[1..]] + Explode(rest, d);
      assert Explode(s, d) == [[s[0]] + r[0]] + r[1..];
      assert [p[0]] + p[1..] == p;
    }
  }

  /** Splitting a join gives the parts back, when no part holds the delimiter. */
  lemma {:induction false} ExplodeImplode(parts: seq<string>, d: char)
    requires |parts| >= 1
    requires forall i :: 0 <= i < |parts| ==> d !in parts[i]
    ensures Explode(Implode(parts, [d]), d) == parts
  {
    if |parts| == 1 {
      ExplodeNoDelimiter(parts[0], d);
    } else {
      ExplodeImplode(parts[1..], d);
      ExplodeConcat(parts[0], Implode(parts[1..], [d]), d);
      assert [parts[0]] + parts[1..] == parts;
    }
  }

  /** Index of the first `d` in `s`. */
  function IndexOf(s: string, d: char): (i: nat)
    requires d in s
    ensures i < |s| && s[i] == d && d !in s[..i]
  {
    if s[0] == d then 0 else 1 + IndexOf(s[1..], d)
  }

  /** `array_pad(explode($d, $s, 2), 2, null)`: the text before the first `d`
      and, when there is one, the text after it. */
  function SplitFirst(s: string, d: char): (r: (string, Option<string>))
    ensures r.1.None? <==> d !in s
    ensures r.1.None? ==> r.0 == s
    ensures r.1.Some? ==> d !in r.0 && s == r.0 + [d] + r.1.value
  {
    if d in s then
      var i := IndexOf(s, d);
      assert s == s[..i] + [d] + s[i + 1..];
      (s[..i], Some(s[i + 1..]))
    else (s, None)
  }

  /** `preg_replace('~p~', $rep, $s, 1)` for a pattern without metacharacters:
      the first occurrence of `p` is replaced. */
  function ReplaceFirst(s: string, p: string, rep: string): (r: string)
    ensures StartsWith(s, p) ==> r == rep + s[|p|..]
    ensures !Contains(s, p) ==> r == s
    decreases |s|
  {
    if StartsWith(s, p) then rep + s[|p|..]
    else if s == [] then s
    else [s[0]] + ReplaceFirst(s[1..], p, rep)
  }

  /** `str_replace($p, $rep, $s)`: every occurrence, left to right, without rescanning. */
  function StrReplace(s: string, p: string, rep: string): (r: string)
    ensures !Contains(s, p) ==> r == s
    decreases |s|
  {
    if p == [] then s
    else if StartsWith(s, p) then rep + StrReplace(s[|p|..], p, rep)
    else if s == [] then s
    else [s[0]] + StrReplace(s[1..], p, rep)
  }

  /** No occurrence of `x` starts inside `p` in the string `p + x`. */
  predicate NoMatchBefore(p: string, x: string)
  {
    forall i :: 0 <= i < |p| ==> !StartsWith((p + x)[i..], x)
  }

  /** `str_replace` on a string that ends in its only occurrence of `x`
      replaces that occurrence. */
  lemma {:induction false} StrReplaceAtEnd(p: string, x: string, rep: string)
    requires x != [] && NoMatchBefore(p, x)
    ensures StrReplace(p + x, x, rep) == p + rep
    decreases |p|
  {
    var s := p + x;
    if p == [] {
      assert s == x;
      assert StartsWith(s, x);
      assert s[|x|..] == [];
      assert StrReplace([], x, rep) == [];
      assert rep + [] == rep;
    } else {
      NoMatchBeforeTail(p, x);
      StrReplaceStep(s, x, rep);
      assert s[1..] == p[1..] + x;
      StrReplaceAtEnd(p[1..], x, rep);
      assert StrReplace(s, x, rep) == [p[0]] + (p[1..] + rep);
      ConcatAssoc([p[0]], p[1..], rep);
      assert [p[0]] + p[1..] == p;
    }
  }

  lemma StrReplaceStep(s: string, x: string, rep: string)
    requires x != [] && s != [] && !StartsWith(s, x)
    ensures StrReplace(s, x, rep) == [s[0]] + StrReplace(s[1..], x, rep)
  {
  }

  lemma NoMatchBeforeTail(p: string, x: string)
    requires p != [] && NoMatchBefore(p, x)
    ensures NoMatchBefore(p[1..], x) && !StartsWith(p + x, x)
  {
    assert (p + x)[0..] == p + x;
    forall i | 0 <= i < |p| - 1 ensures !StartsWith((p[1..] + x)[i..], x) {
      assert (p[1..] + x)[i..] == (p + x)[i + 1..];
    }
  }

  /** A string contains any of its suffixes. */
  lemma {:induction false} ContainsSuffix(p: string, x: string)
    ensures Contains(p + x, x)
  {
    if p == [] {
      assert p + x == x && x[..|x|] == x;
    } else {
      assert (p + x)[1..] == p[1..] + x;
      ContainsSuffix(p[1..], x);
    }
  }

  /** A root with no `c` at its ends, joined by one `c` to a part with no `c`
      at its ends, is its own trim; an empty part leaves the root alone. */
  lemma TrimJoin(root: string, m: string, c: char)
    requires root != [] && NoEdge(root, c) && NoEdge(m, c)
    ensures m != [] ==> Trim(root + [c] + m, c) == root + [c] + m
    ensures m == [] ==> Trim(root + [c] + m, c) == root
  {
    var s := root + [c] + m;
    if m != [] {
      assert s[0] == root[0] && s[|s| - 1] == m[|m| - 1];
      TrimNoEdge(s, c);
    } else {
      assert s == root + [c];
      TrimLeftNoEdge(s, c);
      assert s[..|s| - 1] == root;
      TrimRightNoEdge(root, c);
    }
  }
}
