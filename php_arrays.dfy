/** PHP arrays with string keys, kept in insertion order: a sequence of key/value
    pairs in which no key appears twice. Writing an existing key replaces its value
    in place; writing a new key appends it, as `$a[$k] = $v` does. */
module PhpArrays {
  import opened Wrappers

  type OMap<K, V> = seq<(K, V)>

  function Keys<K, V>(m: OMap<K, V>): (ks: seq<K>)
    ensures |ks| == |m|
    ensures forall i :: 0 <= i < |m| ==> ks[i] == m[i].0
  {
    if m == [] then [] else [m[0].0] + Keys(m[1..])
  }

  /** The invariant every PHP array keeps: no key twice. */
  predicate UniqueKeys<K(==), V>(m: OMap<K, V>)
  {
    forall i, j :: 0 <= i < j < |m| ==> m[i].0 != m[j].0
  }

  /** `$m[$k] ?? null`. */
  function Get<K(==), V>(m: OMap<K, V>, k: K): (r: Option<V>)
    ensures r.None? <==> k !in Keys(m)
    ensures r.Some? ==> (k, r.value) in m
  {
    if m == [] then None
    else if m[0].0 == k then Some(m[0].1)
    else Get(m[1..], k)
  }

  /** `$m[$k] = $v`. */
  function Put<K(==), V>(m: OMap<K, V>, k: K, v: V): OMap<K, V>
  {
    if m == [] then [(k, v)]
    else if m[0].0 == k then [(k, v)] + m[1..]
    else [m[0]] + Put(m[1..], k, v)
  }

  /** After `$m[$k] = $v`, key `k` holds `v`. */
  lemma {:induction false} PutGet<K, V>(m: OMap<K, V>, k: K, v: V)
    ensures Get(Put(m, k, v), k) == Some(v)
  {
    if m != [] && m[0].0 != k {
      PutGet(m[1..], k, v);
    }
  }

  /** `$m[$k] = $v` leaves every other key as it was. */
  lemma {:induction false} PutOther<K, V>(m: OMap<K, V>, k: K, v: V, k': K)
    requires k' != k
    ensures Get(Put(m, k, v), k') == Get(m, k')
  {
    if m != [] && m[0].0 != k {
      PutOther(m[1..], k, v, k');
    }
  }

  /** `$m[$k] = $v` keeps the key order; a new key goes last. */
  lemma {:induction false} PutKeys<K, V>(m: OMap<K, V>, k: K, v: V)
    ensures k in Keys(m) ==> Keys(Put(m, k, v)) == Keys(m)
    ensures k !in Keys(m) ==> Keys(Put(m, k, v)) == Keys(m) + [k]
  {
    if m != [] {
      assert Keys(m) == [m[0].0] + Keys(m[1..]);
      if m[0].0 != k {
        PutKeys(m[1..], k, v);
        assert Keys([m[0]] + Put(m[1..], k, v)) == [m[0].0] + Keys(Put(m[1..], k, v));
      } else {
        assert Keys([(k, v)] + m[1..]) == [k] + Keys(m[1..]);
      }
    }
  }

  /** `$m[$k] = $v` keeps the keys unique. */
  lemma PutUnique<K, V>(m: OMap<K, V>, k: K, v: V)
    requires UniqueKeys(m)
    ensures UniqueKeys(Put(m, k, v))
  {
    PutKeys(m, k, v);
    var r := Put(m, k, v);
    var ks := Keys(m);
    forall i, j | 0 <= i < j < |r|
      ensures r[i].0 != r[j].0
    {
      assert r[i].0 == Keys(r)[i] && r[j].0 == Keys(r)[j];
      if j < |m| {
        assert Keys(r)[i] == ks[i] == m[i].0 && Keys(r)[j] == ks[j] == m[j].0;
      } else {
        assert k !in ks && Keys(r)[j] == k && Keys(r)[i] == ks[i];
      }
    }
  }

  /** A second write to the same key replaces the first. */
  lemma {:induction false} PutPut<K, V>(m: OMap<K, V>, k: K, v: V, w: V)
    ensures Put(Put(m, k, v), k, w) == Put(m, k, w)
  {
    if m != [] && m[0].0 != k {
      PutPut(m[1..], k, v, w);
      assert Put(m, k, v) == [m[0]] + Put(m[1..], k, v);
      assert Put(m, k, v)[1..] == Put(m[1..], k, v);
    }
  }

  /** `unset($m[$k])`: the pair for `k` is removed, the others stay in order. */
  function Remove<K(==), V>(m: OMap<K, V>, k: K): (r: OMap<K, V>)
    ensures |r| <= |m|
    ensures forall i :: 0 <= i < |r| ==> r[i] in m && r[i].0 != k
  {
    if m == [] then []
    else if m[0].0 == k then Remove(m[1..], k)
    else [m[0]] + Remove(m[1..], k)
  }

  /** After `unset($m[$k])` the key is gone and every other key keeps its value. */
  lemma {:induction false} RemoveGet<K, V>(m: OMap<K, V>, k: K, k': K)
    ensures Get(Remove(m, k), k) == None
    ensures k' != k ==> Get(Remove(m, k), k') == Get(m, k')
  {
    if m != [] {
      RemoveGet(m[1..], k, k');
    }
  }

  lemma {:induction false} RemoveUnique<K, V>(m: OMap<K, V>, k: K)
    requires UniqueKeys(m)
    ensures UniqueKeys(Remove(m, k))
  {
    if m != [] {
      RemoveUnique(m[1..], k);
      var r := Remove(m[1..], k);
      assert forall i :: 0 <= i < |r| ==> r[i] in m[1..];
      assert forall i :: 0 <= i < |r| ==> r[i].0 != m[0].0;
    }
  }

  /** `array_merge($a, $b)` for string keys: later values win, new keys are appended. */
  function Merge<K(==), V>(a: OMap<K, V>, b: OMap<K, V>): OMap<K, V>
    decreases |b|
  {
    if b == [] then a else Merge(Put(a, b[0].0, b[0].1), b[1..])
  }

  /** `array_merge` keeps the keys unique. */
  lemma {:induction false} MergeUnique<K, V>(a: OMap<K, V>, b: OMap<K, V>)
    requires UniqueKeys(a)
    ensures UniqueKeys(Merge(a, b))
    decreases |b|
  {
    if b != [] {
      PutUnique(a, b[0].0, b[0].1);
      MergeUnique(Put(a, b[0].0, b[0].1), b[1..]);
    }
  }

  /** A key of the merge has the value `b` gives it, and otherwise the value `a` gives it. */
  lemma {:induction false} MergeGet<K, V>(a: OMap<K, V>, b: OMap<K, V>, k: K)
    requires UniqueKeys(b)
    ensures Get(Merge(a, b), k) == if k in Keys(b) then Get(b, k) else Get(a, k)
    decreases |b|
  {
    if b != [] {
      MergeGet(Put(a, b[0].0, b[0].1), b[1..], k);
      assert Keys(b) == [b[0].0] + Keys(b[1..]);
      if k == b[0].0 {
        assert k !in Keys(b[1..]);
        PutGet(a, k, b[0].1);
      } else {
        PutOther(a, b[0].0, b[0].1, k);
      }
    }
  }

  /** Writing every pair of `m`, in order, into an empty array rebuilds `m`. */
  lemma {:induction false} MergeIntoEmpty<K, V>(pre: OMap<K, V>, m: OMap<K, V>)
    requires UniqueKeys(pre + m)
    ensures Merge(pre, m) == pre + m
    decreases |m|
  {
    if m != [] {
      assert forall i :: 0 <= i < |pre| ==> pre[i].0 != m[0].0 by {
        forall i | 0 <= i < |pre| ensures pre[i].0 != m[0].0 {
          assert (pre + m)[i] == pre[i] && (pre + m)[|pre|] == m[0];
        }
      }
      PutAppends(pre, m[0].0, m[0].1);
      assert pre + [m[0]] + m[1..] == pre + m;
      MergeIntoEmpty(pre + [m[0]], m[1..]);
    }
  }

  /** Writing a new key appends the pair at the end. */
  lemma {:induction false} PutAppends<K, V>(m: OMap<K, V>, k: K, v: V)
    requires k !in Keys(m)
    ensures Put(m, k, v) == m + [(k, v)]
  {
    if m != [] {
      assert Keys(m) == [m[0].0] + Keys(m[1..]);
      PutAppends(m[1..], k, v);
      assert [m[0]] + (m[1..] + [(k, v)]) == m + [(k, v)];
    }
  }

  /** No element occurs twice. */
  predicate Distinct<T(==)>(s: seq<T>)
  {
    forall i, j :: 0 <= i < j < |s| ==> s[i] != s[j]
  }

  /** The position of the first occurrence of `x`. */
  function FirstIndex<T(==)>(s: seq<T>, x: T): (i: nat)
    requires x in s
    ensures i < |s| && s[i] == x && x !in s[..i]
  {
    if s[0] == x then 0
    else
      var j := FirstIndex(s[1..], x);
      assert s[..j + 1] == [s[0]] + s[1..][..j];
      1 + j
  }

  /** The first occurrence is the one position holding `x` with no `x` before it. */
  lemma FirstIndexUnique<T>(s: seq<T>, x: T, i: nat)
    requires i < |s| && s[i] == x && x !in s[..i]
    ensures FirstIndex(s, x) == i
  {
  }

  /** `array_values(array_unique($s))` on a list of strings: every value once, at
      its first occurrence. */
  function ArrayUnique<T(==)>(s: seq<T>): (r: seq<T>)
    ensures Distinct(r)
    ensures forall i :: 0 <= i < |r| ==> r[i] in s
    ensures forall i :: 0 <= i < |s| ==> s[i] in r
    ensures |r| <= |s|
    decreases |s|
  {
    if s == [] then []
    else
      var p := ArrayUnique(s[..|s| - 1]);
      var x := s[|s| - 1];
      assert forall i :: 0 <= i < |s| - 1 ==> s[i] == s[..|s| - 1][i];
      if x in p then p else p + [x]
  }

  /** A value occurring before the last position has its first occurrence there too. */
  lemma FirstIndexInit<T>(s: seq<T>, y: T)
    requires s != [] && y in s[..|s| - 1]
    ensures FirstIndex(s, y) == FirstIndex(s[..|s| - 1], y) < |s| - 1
  {
    var k := FirstIndex(s[..|s| - 1], y);
    assert s[..k] == s[..|s| - 1][..k];
    FirstIndexUnique(s, y, k);
  }

  /** `r` lists values of `s` in the order in which they first occur in `s`. */
  predicate InFirstOccurrenceOrder<T(==)>(s: seq<T>, r: seq<T>)
  {
    && (forall a :: 0 <= a < |r| ==> r[a] in s)
    && (forall a, b :: 0 <= a < b < |r| ==> FirstIndex(s, r[a]) < FirstIndex(s, r[b]))
  }

  /** The values come out in the order of their first occurrence in the input. */
  lemma {:induction false} ArrayUniqueOrder<T>(s: seq<T>)
    ensures InFirstOccurrenceOrder(s, ArrayUnique(s))
    decreases |s|
  {
    if s != [] {
      var r := ArrayUnique(s);
      ArrayUniqueOrder(s[..|s| - 1]);
      forall i, j | 0 <= i < j < |r| ensures FirstIndex(s, r[i]) < FirstIndex(s, r[j]) {
        ArrayUniqueOrderStep(s, i, j);
      }
    }
  }

  lemma ArrayUniqueOrderStep<T>(s: seq<T>, i: nat, j: nat)
    requires s != [] && i < j < |ArrayUnique(s)|
    requires InFirstOccurrenceOrder(s[..|s| - 1], ArrayUnique(s[..|s| - 1]))
    ensures FirstIndex(s, ArrayUnique(s)[i]) < FirstIndex(s, ArrayUnique(s)[j])
  {
    var n := |s|;
    var s' := s[..n - 1];
    var p := ArrayUnique(s');
    var x := s[n - 1];
    var r := ArrayUnique(s);
    assert r == if x in p then p else p + [x];
    assert r[i] == p[i];
    FirstIndexInit(s, p[i]);
    if x in p || j < |p| {
      assert r[j] == p[j];
      FirstIndexInit(s, p[j]);
    } else {
      assert x !in s';
      assert r[j] == x;
      FirstIndexUnique(s, x, n - 1);
    }
  }

  /** A list without repeats is left as it is. */
  lemma {:induction false} ArrayUniqueDistinct<T>(s: seq<T>)
    requires Distinct(s)
    ensures ArrayUnique(s) == s
    decreases |s|
  {
    if s != [] {
      var n := |s|;
      assert Distinct(s[..n - 1]);
      ArrayUniqueDistinct(s[..n - 1]);
      assert s[n - 1] !in s[..n - 1];
      assert s[..n - 1] + [s[n - 1]] == s;
    }
  }

  /** De-duplicating a prefix first makes no difference to the result. */
  lemma {:induction false} ArrayUniqueOfUnique<T>(s: seq<T>, t: seq<T>)
    ensures ArrayUnique(ArrayUnique(s) + t) == ArrayUnique(s + t)
    decreases |t|
  {
    if t == [] {
      ArrayUniqueTwice(s);
      AppendEmpty(ArrayUnique(s), s);
    } else {
      var init, x := t[..|t| - 1], t[|t| - 1];
      ArrayUniqueOfUnique(s, init);
      ArrayUniqueSnoc(ArrayUnique(s) + init, s + init, x);
      AppendSnoc(ArrayUnique(s), init, x, t);
      AppendSnoc(s, init, x, t);
    }
  }

  lemma AppendEmpty<T>(a: seq<T>, b: seq<T>)
    ensures a + [] == a && b + [] == b
  {
  }

  lemma AppendSnoc<T>(a: seq<T>, init: seq<T>, x: T, t: seq<T>)
    requires t != [] && init == t[..|t| - 1] && x == t[|t| - 1]
    ensures a + init + [x] == a + t
  {
    assert init + [x] == t;
  }

  lemma ArrayUniqueSnoc<T>(a: seq<T>, b: seq<T>, x: T)
    requires ArrayUnique(a) == ArrayUnique(b)
    ensures ArrayUnique(a + [x]) == ArrayUnique(b + [x])
  {
    assert (a + [x])[..|a|] == a;
    assert (b + [x])[..|b|] == b;
  }

  lemma ArrayUniqueTwice<T>(s: seq<T>)
    ensures ArrayUnique(ArrayUnique(s)) == ArrayUnique(s)
  {
    ArrayUniqueDistinct(ArrayUnique(s));
  }

  /** Adding values that are all there already changes nothing. */
  lemma {:induction false} ArrayUniqueAbsorbs<T>(s: seq<T>, t: seq<T>)
    requires Distinct(s)
    requires forall x :: x in t ==> x in s
    ensures ArrayUnique(s + t) == s
    decreases |t|
  {
    if t == [] {
      assert s + t == s;
      ArrayUniqueDistinct(s);
    } else {
      var n := |t|;
      ArrayUniqueAbsorbs(s, t[..n - 1]);
      assert (s + t)[..|s + t| - 1] == s + t[..n - 1];
      assert t[n - 1] in t;
    }
  }
}
