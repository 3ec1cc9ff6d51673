/** The collection helpers the library leans on, as values: PHP arrays used as
    ordered dictionaries (insertion order kept, assignment to an existing key
    keeps its place), Laravel's `groupBy`, `chunk`, `Arr::flatten`,
    `array_filter` and `implode`. */
module Collections {
  import opened Wrappers
  import opened Php

  /** An ordered dictionary: a PHP array with string-like keys. */
  type OMap<K, V> = seq<(K, V)>

  function Keys<K, V>(m: OMap<K, V>): (ks: seq<K>)
    ensures |ks| == |m|
    ensures forall i | 0 <= i < |m| :: ks[i] == m[i].0
  {
    if m == [] then [] else [m[0].0] + Keys(m[1..])
  }

  function Values<K, V>(m: OMap<K, V>): (vs: seq<V>)
    ensures |vs| == |m|
    ensures forall i | 0 <= i < |m| :: vs[i] == m[i].1
  {
    if m == [] then [] else [m[0].1] + Values(m[1..])
  }

  predicate DistinctKeys<K(==), V>(m: OMap<K, V>) {
    forall i, j | 0 <= i < j < |m| :: m[i].0 != m[j].0
  }

  /** `$m[$k] ?? null`: the value stored under `k`, if any. */
  function Get<K(==), V>(m: OMap<K, V>, k: K): (r: Option<V>)
  {
    if m == [] then None else if m[0].0 == k then Some(m[0].1) else Get(m[1..], k)
  }

  /** A key is found exactly when it is among the keys. */
  lemma {:induction false} GetNoneIffAbsent<K, V>(m: OMap<K, V>, k: K)
    ensures Get(m, k).None? <==> k !in Keys(m)
  {
    if m != [] {
      GetNoneIffAbsent(m[1..], k);
      assert Keys(m) == [m[0].0] + Keys(m[1..]);
    }
  }

  /** `$m[$k] = $v`: overwrite in place when the key exists, else append. */
  function Put<K(==, !new), V>(m: OMap<K, V>, k: K, v: V): (r: OMap<K, V>)
    ensures Get(r, k) == Some(v)
    ensures forall j | j != k :: Get(r, j) == Get(m, j)
  {
    if m == [] then [(k, v)]
    else if m[0].0 == k then
      assert ([(k, v)] + m[1..])[1..] == m[1..];
      [(k, v)] + m[1..]
    else
      var rest := Put(m[1..], k, v);
      assert ([m[0]] + rest)[1..] == rest;
      [m[0]] + rest
  }

  /** Assignment keeps the position of an existing key and appends a new one. */
  lemma {:induction false} PutKeys<K(!new), V>(m: OMap<K, V>, k: K, v: V)
    ensures Keys(Put(m, k, v)) == if k in Keys(m) then Keys(m) else Keys(m) + [k]
  {
    if m != [] && m[0].0 != k {
      PutKeys(m[1..], k, v);
      var rest := Put(m[1..], k, v);
      assert ([m[0]] + rest)[1..] == rest;
      assert Keys(m) == [m[0].0] + Keys(m[1..]);
    } else if m != [] {
      var r := [(k, v)] + m[1..];
      assert r[1..] == m[1..];
    }
  }

  lemma PutDistinct<K(!new), V>(m: OMap<K, V>, k: K, v: V)
    requires DistinctKeys(m)
    ensures DistinctKeys(Put(m, k, v))
  {
    PutKeys(m, k, v);
    var r := Put(m, k, v);
    var ks := Keys(r);
    assert forall i, j | 0 <= i < j < |r| :: r[i].0 == ks[i] && r[j].0 == ks[j];
  }

  /** Assigning a key that is absent appends it. */
  lemma {:induction false} PutAbsent<K(!new), V>(m: OMap<K, V>, k: K, v: V)
    requires Get(m, k).None?
    ensures Put(m, k, v) == m + [(k, v)]
  {
    if m != [] {
      PutAbsent(m[1..], k, v);
      assert [m[0]] + (m[1..] + [(k, v)]) == m + [(k, v)];
    }
  }

  /** Assigning a key twice leaves the second value in the first one's place. */
  lemma {:induction false} PutPut<K(!new), V>(m: OMap<K, V>, k: K, a: V, b: V)
    ensures Put(Put(m, k, a), k, b) == Put(m, k, b)
  {
    if m != [] && m[0].0 != k {
      PutPut(m[1..], k, a, b);
      var rest := Put(m[1..], k, a);
      assert ([m[0]] + rest)[1..] == rest;
    } else if m != [] {
      var r := [(k, a)] + m[1..];
      assert r[1..] == m[1..];
    }
  }

  /** `unset($m[$k])`. */
  function Remove<K(==, !new), V>(m: OMap<K, V>, k: K): (r: OMap<K, V>)
    ensures Get(r, k) == None
    ensures forall j | j != k :: Get(r, j) == Get(m, j)
  {
    if m == [] then []
    else if m[0].0 == k then Remove(m[1..], k)
    else
      var rest := Remove(m[1..], k);
      assert ([m[0]] + rest)[1..] == rest;
      [m[0]] + rest
  }

  /** Appending is associative; stated once so that proofs about long
      sequences of heavy elements need not rediscover it. */
  lemma AppendAssoc<T>(a: seq<T>, b: seq<T>, c: seq<T>)
    ensures (a + b) + c == a + (b + c)
  {
  }

  /** A sequence is its prefix followed by the rest. */
  lemma SplitJoin<T>(s: seq<T>, n: int)
    requires 0 <= n <= |s|
    ensures s[..n] + s[n..] == s
  {
  }

  /** A prefix one longer is the prefix with one more element. */
  lemma TakeOneMore<T>(s: seq<T>, i: int)
    requires 0 <= i < |s|
    ensures s[..i + 1] == s[..i] + [s[i]]
  {
  }

  /** Appending nothing changes nothing. */
  lemma AppendEmpty<T>(s: seq<T>)
    ensures s + [] == s
  {
  }

  /** Concatenation of a list of lists. */
  function Concat<T>(xss: seq<seq<T>>): seq<T> {
    if xss == [] then [] else xss[0] + Concat(xss[1..])
  }

  lemma {:induction false} ConcatAppend<T>(a: seq<seq<T>>, b: seq<seq<T>>)
    ensures Concat(a + b) == Concat(a) + Concat(b)
  {
    if a == [] {
      assert a + b == b;
    } else {
      assert (a + b)[1..] == a[1..] + b;
      ConcatAppend(a[1..], b);
    }
  }

  /** `implode($sep, $parts)`: the first part comes first. */
  function Join(sep: string, parts: seq<string>): (r: string)
    ensures parts == [] ==> r == ""
    ensures parts != [] ==> |parts[0]| <= |r| && r[..|parts[0]|] == parts[0]
  {
    if parts == [] then "" else if |parts| == 1 then parts[0] else parts[0] + sep + Join(sep, parts[1..])
  }

  /** Appends `x` to the group for `k`, opening the group at the end when
      it is new: one step of `$groups[$k][] = $x`. */
  function AddToGroup<T, K(==, !new)>(groups: OMap<K, seq<T>>, k: K, x: T): OMap<K, seq<T>> {
    match Get(groups, k)
    case None => groups + [(k, [x])]
    case Some(g) => Put(groups, k, g + [x])
  }

  /** Laravel's `groupBy`: groups in order of first appearance, each group
      in input order. */
  function GroupBy<T, K(==, !new)>(xs: seq<T>, key: T -> K): OMap<K, seq<T>> {
    if xs == [] then [] else AddToGroup(GroupBy(xs[..|xs| - 1], key), key(xs[|xs| - 1]), xs[|xs| - 1])
  }

  /** The elements of `xs` whose key is `k`, in input order. */
  function Select<T, K(==)>(xs: seq<T>, key: T -> K, k: K): (r: seq<T>)
    ensures forall i | 0 <= i < |r| :: key(r[i]) == k && r[i] in xs
  {
    if xs == [] then []
    else Select(xs[..|xs| - 1], key, k) + (if key(xs[|xs| - 1]) == k then [xs[|xs| - 1]] else [])
  }

  lemma {:induction false} GetAppendOther<K, V>(m: OMap<K, V>, p: (K, V), k: K)
    ensures Get(m + [p], k) == if k in Keys(m) then Get(m, k) else if p.0 == k then Some(p.1) else None
  {
    if m != [] {
      assert (m + [p])[1..] == m[1..] + [p];
      GetAppendOther(m[1..], p, k);
    }
  }

  /** One grouping step files `x` under `kx` and touches no other group. */
  lemma AddToGroupGet<T, K(!new)>(g: OMap<K, seq<T>>, kx: K, x: T, k: K)
    ensures Get(AddToGroup(g, kx, x), k) == if k == kx then Some(Get(g, k).GetOr([]) + [x]) else Get(g, k)
  {
    if Get(g, kx).None? {
      GetAppendOther(g, (kx, [x]), k);
      GetNoneIffAbsent(g, kx);
      GetNoneIffAbsent(g, k);
      if k == kx {
        assert Get(g, k).GetOr([]) + [x] == [x];
      }
    }
  }

  /** A group of `GroupBy` is exactly the subsequence of the input with that
      key: nothing lost, nothing reordered, nothing misfiled. */
  lemma {:induction false} GroupByGet<T, K(!new)>(xs: seq<T>, key: T -> K, k: K)
    ensures Get(GroupBy(xs, key), k) == if Select(xs, key, k) == [] then None else Some(Select(xs, key, k))
  {
    if xs != [] {
      var init := xs[..|xs| - 1];
      var x := xs[|xs| - 1];
      GroupByGet(init, key, k);
      var g := GroupBy(init, key);
      AddToGroupGet(g, key(x), x, k);
      assert GroupBy(xs, key) == AddToGroup(g, key(x), x);
      if key(x) == k {
        assert Select(xs, key, k) == Select(init, key, k) + [x];
        assert Get(g, k).GetOr([]) == Select(init, key, k);
      } else {
        assert Select(xs, key, k) == Select(init, key, k);
      }
    }
  }

  lemma {:induction false} KeysAppend<K, V>(m: OMap<K, V>, p: (K, V))
    ensures Keys(m + [p]) == Keys(m) + [p.0]
  {
    var r := Keys(m + [p]);
    assert forall i | 0 <= i < |r| :: r[i] == (Keys(m) + [p.0])[i];
  }

  lemma {:induction false} ValuesAppend<K, V>(m: OMap<K, V>, p: (K, V))
    ensures Values(m + [p]) == Values(m) + [p.1]
  {
    var r := Values(m + [p]);
    assert forall i | 0 <= i < |r| :: r[i] == (Values(m) + [p.1])[i];
  }

  lemma {:induction false} GroupByDistinct<T, K(!new)>(xs: seq<T>, key: T -> K)
    ensures DistinctKeys(GroupBy(xs, key))
  {
    if xs != [] {
      var g := GroupBy(xs[..|xs| - 1], key);
      GroupByDistinct(xs[..|xs| - 1], key);
      var x := xs[|xs| - 1];
      if Get(g, key(x)).None? {
        var r := g + [(key(x), [x])];
        GetNoneIffAbsent(g, key(x));
        assert forall i | 0 <= i < |g| :: g[i].0 == Keys(g)[i];
        assert forall i, j | 0 <= i < j < |r| :: r[i].0 != r[j].0 by {
          forall i, j | 0 <= i < j < |r| ensures r[i].0 != r[j].0 {
            if j == |g| {
              assert r[i].0 == Keys(g)[i];
            }
          }
        }
      } else {
        PutDistinct(g, key(x), Get(g, key(x)).value + [x]);
      }
    }
  }

  lemma ConcatValuesCons<K, T>(m: OMap<K, seq<T>>)
    requires m != []
    ensures Concat(Values(m)) == m[0].1 + Concat(Values(m[1..]))
  {
    assert Values(m)[1..] == Values(m[1..]);
  }

  lemma {:induction false} ConcatValuesPut<K(!new), T>(m: OMap<K, seq<T>>, k: K, v: seq<T>)
    requires Get(m, k).Some?
    ensures multiset(Concat(Values(Put(m, k, v)))) + multiset(Get(m, k).value)
         == multiset(Concat(Values(m))) + multiset(v)
  {
    var r := Put(m, k, v);
    ConcatValuesCons(m);
    ConcatValuesCons(r);
    if m[0].0 == k {
      assert r[0].1 == v && r[1..] == m[1..];
    } else {
      var rest := Put(m[1..], k, v);
      ConcatValuesPut(m[1..], k, v);
      assert r[0] == m[0] && r[1..] == rest;
      assert Get(m, k) == Get(m[1..], k);
      calc {
        multiset(Concat(Values(r))) + multiset(Get(m, k).value);
        multiset(m[0].1) + multiset(Concat(Values(rest))) + multiset(Get(m[1..], k).value);
        multiset(m[0].1) + (multiset(Concat(Values(rest))) + multiset(Get(m[1..], k).value));
        multiset(m[0].1) + (multiset(Concat(Values(m[1..]))) + multiset(v));
        multiset(m[0].1 + Concat(Values(m[1..]))) + multiset(v);
        multiset(Concat(Values(m))) + multiset(v);
      }
    }
  }

  lemma {:induction false} ConcatValuesAppend<K, T>(m: OMap<K, seq<T>>, p: (K, seq<T>))
    ensures Concat(Values(m + [p])) == Concat(Values(m)) + p.1
  {
    if m != [] {
      ConcatValuesCons(m);
      ConcatValuesCons(m + [p]);
      assert (m + [p])[1..] == m[1..] + [p];
      ConcatValuesAppend(m[1..], p);
    } else {
      ConcatValuesCons([p]);
    }
  }

  /** Filing one element adds exactly that element to the groups' contents. */
  lemma AddToGroupConcat<T, K(!new)>(g: OMap<K, seq<T>>, k: K, x: T)
    ensures multiset(Concat(Values(AddToGroup(g, k, x)))) == multiset(Concat(Values(g))) + multiset{x}
  {
    if Get(g, k).None? {
      ConcatValuesAppend(g, (k, [x]));
    } else {
      ExtendGroupConcat(g, k, x);
    }
  }

  lemma ExtendGroupConcat<T, K(!new)>(g: OMap<K, seq<T>>, k: K, x: T)
    requires Get(g, k).Some?
    ensures multiset(Concat(Values(Put(g, k, Get(g, k).value + [x])))) == multiset(Concat(Values(g))) + multiset{x}
  {
    var group := Get(g, k).value;
    var after := multiset(Concat(Values(Put(g, k, group + [x]))));
    var before := multiset(Concat(Values(g)));
    ConcatValuesPut(g, k, group + [x]);
    assert after + multiset(group) == before + multiset(group + [x]);
    assert multiset(group + [x]) == multiset(group) + multiset{x};
    assert after + multiset(group) == (before + multiset{x}) + multiset(group);
  }

  /** `GroupBy` partitions its input: the groups together hold every element
      exactly as often as the input does. */
  lemma {:induction false} GroupByPartition<T, K(!new)>(xs: seq<T>, key: T -> K)
    ensures multiset(Concat(Values(GroupBy(xs, key)))) == multiset(xs)
  {
    if xs != [] {
      var init := xs[..|xs| - 1];
      var x := xs[|xs| - 1];
      assert xs == init + [x];
      GroupByPartition(init, key);
      AddToGroupConcat(GroupBy(init, key), key(x), x);
    }
  }

  /** In a map without repeated keys, each entry is what its key finds. */
  lemma {:induction false} GetAt<K, V>(m: OMap<K, V>, i: int)
    requires DistinctKeys(m) && 0 <= i < |m|
    ensures Get(m, m[i].0) == Some(m[i].1)
  {
    if i > 0 {
      assert m[0].0 != m[i].0;
      assert DistinctKeys(m[1..]) by {
        forall a, b | 0 <= a < b < |m[1..]| ensures m[1..][a].0 != m[1..][b].0 {
          assert m[1..][a] == m[a + 1] && m[1..][b] == m[b + 1];
        }
      }
      GetAt(m[1..], i - 1);
    }
  }

  /** Every member of a group comes from the input and carries the group's key. */
  lemma GroupByHomogeneous<T, K(!new)>(xs: seq<T>, key: T -> K)
    ensures forall i, j | 0 <= i < |GroupBy(xs, key)| && 0 <= j < |GroupBy(xs, key)[i].1| ::
      key(GroupBy(xs, key)[i].1[j]) == GroupBy(xs, key)[i].0 && GroupBy(xs, key)[i].1[j] in xs
  {
    var g := GroupBy(xs, key);
    GroupByDistinct(xs, key);
    forall i, j | 0 <= i < |g| && 0 <= j < |g[i].1| ensures key(g[i].1[j]) == g[i].0 && g[i].1[j] in xs {
      GetAt(g, i);
      GroupByGet(xs, key, g[i].0);
    }
  }

  /** Laravel's `chunk`: consecutive pieces of `n` (the last one shorter);
      nothing at all when `n` is not positive. */
  function Chunks<T>(xs: seq<T>, n: int): (r: seq<seq<T>>)
    ensures n > 0 ==> Concat(r) == xs
    ensures n <= 0 ==> r == []
    ensures forall i | 0 <= i < |r| :: 0 < |r[i]| <= n
    ensures forall i | 0 <= i < |r| - 1 :: |r[i]| == n
    decreases |xs|
  {
    if n <= 0 || xs == [] then []
    else if |xs| <= n then
      assert Concat([xs]) == xs + Concat([]);
      [xs]
    else
      var rest := Chunks(xs[n..], n);
      assert ([xs[..n]] + rest)[1..] == rest;
      assert xs == xs[..n] + xs[n..];
      [xs[..n]] + rest
  }

  /** `Arr::flatten($a)` with unlimited depth: every nested array is spliced
      into place, scalars (null and false included) are kept in order. */
  function Flatten(vs: seq<Value>): (r: seq<Value>)
    ensures forall i | 0 <= i < |r| :: !r[i].Arr?
  {
    if vs == [] then []
    else (match vs[0] case Arr(items) => Flatten(items) case v => [v]) + Flatten(vs[1..])
  }

  /** Flattening works piece by piece: the leaves of `a + b` are those of
      `a` followed by those of `b`. */
  lemma {:induction false} FlattenAppend(a: seq<Value>, b: seq<Value>)
    ensures Flatten(a + b) == Flatten(a) + Flatten(b)
  {
    if a == [] {
      assert a + b == b;
    } else {
      assert (a + b)[0] == a[0] && (a + b)[1..] == a[1..] + b;
      FlattenAppend(a[1..], b);
    }
  }

  /** One entry: a scalar is kept as it is, an array gives its own leaves. */
  lemma FlattenOne(v: Value)
    ensures Flatten([v]) == if v.Arr? then Flatten(v.items) else [v]
  {
    assert [v][1..] == [];
  }

  /** `array_filter($a)` without a callback: drops falsy entries, keeps the
      order of the rest. */
  function FilterTruthy(vs: seq<Value>): (r: seq<Value>)
    ensures |r| <= |vs|
    ensures forall i | 0 <= i < |r| :: Truthy(r[i]) && r[i] in vs
    ensures forall i | 0 <= i < |vs| :: Truthy(vs[i]) ==> vs[i] in r
  {
    if vs == [] then []
    else (if Truthy(vs[0]) then [vs[0]] else []) + FilterTruthy(vs[1..])
  }

  /** Filtering works piece by piece: the kept entries of `a + b` are those
      of `a` followed by those of `b`, in order and with repeats. */
  lemma {:induction false} FilterTruthyAppend(a: seq<Value>, b: seq<Value>)
    ensures FilterTruthy(a + b) == FilterTruthy(a) + FilterTruthy(b)
  {
    if a == [] {
      assert a + b == b;
    } else {
      assert (a + b)[0] == a[0] && (a + b)[1..] == a[1..] + b;
      FilterTruthyAppend(a[1..], b);
    }
  }

  /** One entry is kept exactly when it is truthy. */
  lemma FilterTruthyOne(v: Value)
    ensures FilterTruthy([v]) == if Truthy(v) then [v] else []
  {
    assert [v][1..] == [];
  }
}
