/** JavaScript objects used as dictionaries (`Record<string, T>`) and
    `Map<string, T>`s.
    Both iterate their keys in the order the keys were first set
    (`Object.entries`, `Object.values`, `Map.prototype.values`; the month
    keys of the built-in datasets and the generated ids are never
    integer-like), so a dictionary is modelled as its list of
    key/value pairs in that order. */
module Dict {
  import opened Basics

  type Dict<V> = seq<(string, V)>

  function Keys<V>(d: Dict<V>): (ks: seq<string>)
    ensures |ks| == |d|
    ensures forall i :: 0 <= i < |d| ==> ks[i] == d[i].0
  {
    if d == [] then [] else [d[0].0] + Keys(d[1..])
  }

  function Values<V>(d: Dict<V>): (vs: seq<V>)
    ensures |vs| == |d|
    ensures forall i :: 0 <= i < |d| ==> vs[i] == d[i].1
  {
    if d == [] then [] else [d[0].1] + Values(d[1..])
  }

  /** A dictionary whose entries carry the keys `ks`, in order, has keys `ks`. */
  lemma KeysPointwise<V>(d: Dict<V>, ks: seq<string>)
    requires |d| == |ks|
    requires forall i :: 0 <= i < |d| ==> d[i].0 == ks[i]
    ensures Keys(d) == ks
  {
  }

  /** A dictionary whose entries carry the values `vs`, in order, has values `vs`. */
  lemma ValuesPointwise<V>(d: Dict<V>, vs: seq<V>)
    requires |d| == |vs|
    requires forall i :: 0 <= i < |d| ==> d[i].1 == vs[i]
    ensures Values(d) == vs
  {
  }

  lemma ValuesAppend<V>(d: Dict<V>, k: string, v: V)
    ensures Values(d + [(k, v)]) == Values(d) + [v]
  {
  }

  predicate Distinct<T(==)>(s: seq<T>) {
    forall i, j :: 0 <= i < j < |s| ==> s[i] != s[j]
  }

  /** The keys of a prefix are the prefix of the keys. */
  lemma KeysPrefix<V>(d: Dict<V>, n: nat)
    requires n <= |d|
    ensures Keys(d[..n]) == Keys(d)[..n]
  {
    KeysPointwise(d[..n], Keys(d)[..n]);
  }

  /** A sequence without repeats, less its last element, has none, and
      does not hold that element. */
  lemma DistinctLast<T>(s: seq<T>)
    requires Distinct(s) && s != []
    ensures Distinct(s[..|s| - 1])
    ensures s[|s| - 1] !in s[..|s| - 1]
  {
  }

  /** The key order after setting key `k`: unchanged when `k` is already
      present, `k` last otherwise. */
  function AddKey<T(==)>(ks: seq<T>, k: T): seq<T> {
    if k in ks then ks else ks + [k]
  }

  lemma AddKeyDistinct<T>(ks: seq<T>, k: T)
    requires Distinct(ks)
    ensures Distinct(AddKey(ks, k))
  {
  }

  /** `d[k]`, `undefined` being None. */
  function Get<V>(d: Dict<V>, k: string): (r: Option<V>)
    ensures r.Some? <==> k in Keys(d)
  {
    if d == [] then None else if d[0].0 == k then Some(d[0].1) else Get(d[1..], k)
  }

  /** In a dictionary with distinct keys, looking up the key of an entry
      finds that entry's value. */
  lemma {:induction false} GetAt<V>(d: Dict<V>, i: nat)
    requires Distinct(Keys(d))
    requires i < |d|
    ensures Get(d, d[i].0) == Some(d[i].1)
  {
    if i > 0 {
      assert Keys(d)[0] != Keys(d)[i];
      assert Keys(d[1..]) == Keys(d)[1..];
      GetAt(d[1..], i - 1);
    }
  }

  lemma KeysCons<V>(x: (string, V), d: Dict<V>)
    ensures Keys([x] + d) == [x.0] + Keys(d)
    ensures ([x] + d)[1..] == d
    ensures Get([x] + d, x.0) == Some(x.1)
  {
    assert ([x] + d)[1..] == d;
  }

  /** `d[k] = v`: overwrites the value of a present key in place, appends a
      new key at the end. */
  function Put<V>(d: Dict<V>, k: string, v: V): (r: Dict<V>)
    ensures Keys(r) == AddKey(Keys(d), k)
    ensures Get(r, k) == Some(v)
  {
    if d == [] then [(k, v)]
    else
      KeysCons(d[0], d[1..]);
      assert d == [d[0]] + d[1..];
      if d[0].0 == k then
        KeysCons((k, v), d[1..]);
        [(k, v)] + d[1..]
      else
        var rest := Put(d[1..], k, v);
        PutBehind(d[0], d[1..], k, rest);
        [d[0]] + rest
  }

  /** Setting a key other than the first one's happens behind the first. */
  lemma PutBehind<V>(x: (string, V), tail: Dict<V>, k: string, rest: Dict<V>)
    requires x.0 != k
    requires Keys(rest) == AddKey(Keys(tail), k)
    ensures Keys([x] + rest) == AddKey(Keys([x] + tail), k)
  {
    KeysCons(x, tail);
    KeysCons(x, rest);
    assert [x.0] + (Keys(tail) + [k]) == [x.0] + Keys(tail) + [k];
  }

  /** Setting one key leaves every other key's value alone. */
  lemma {:induction false} GetPut<V>(d: Dict<V>, k: string, v: V, k': string)
    ensures Get(Put(d, k, v), k') == if k' == k then Some(v) else Get(d, k')
  {
    if d != [] {
      KeysCons(d[0], d[1..]);
      assert d == [d[0]] + d[1..];
      if d[0].0 == k {
        KeysCons((k, v), d[1..]);
      } else {
        KeysCons(d[0], Put(d[1..], k, v));
        GetPut(d[1..], k, v, k');
      }
    }
  }

  /** Overwriting one value changes the sum of the values by the difference. */
  lemma {:induction false} SumPut(d: Dict<real>, k: string, v: real)
    ensures Sum(Values(Put(d, k, v))) == Sum(Values(d)) - Get(d, k).GetOr(0.0) + v
  {
    if d != [] && d[0].0 != k {
      var rest := Put(d[1..], k, v);
      assert ([d[0]] + rest)[1..] == rest;
      SumPut(d[1..], k, v);
    }
  }

  /** `d[k] = (d[k] || 0) + x`: adds `x` to the value of `k`, a missing
      key counting as 0 and being appended. */
  function AddTo(d: Dict<real>, k: string, x: real): (r: Dict<real>)
    ensures Keys(r) == AddKey(Keys(d), k)
  {
    if d == [] then [(k, x)]
    else
      KeysCons(d[0], d[1..]);
      assert d == [d[0]] + d[1..];
      if d[0].0 == k then
        KeysCons((k, d[0].1 + x), d[1..]);
        [(k, d[0].1 + x)] + d[1..]
      else
        var rest := AddTo(d[1..], k, x);
        KeysCons(d[0], rest);
        assert [d[0].0] + (Keys(d[1..]) + [k]) == [d[0].0] + Keys(d[1..]) + [k];
        [d[0]] + rest
  }
  lemma {:induction false} GetAddTo(d: Dict<real>, k: string, x: real, k': string)
    ensures Get(AddTo(d, k, x), k').GetOr(0.0) == Get(d, k').GetOr(0.0) + (if k' == k then x else 0.0)
  {
    if d != [] {
      KeysCons(d[0], d[1..]);
      assert d == [d[0]] + d[1..];
      if d[0].0 == k {
        KeysCons((k, d[0].1 + x), d[1..]);
      } else {
        KeysCons(d[0], AddTo(d[1..], k, x));
        GetAddTo(d[1..], k, x, k');
      }
    }
  }
  lemma {:induction false} SumAddTo(d: Dict<real>, k: string, x: real)
    ensures Sum(Values(AddTo(d, k, x))) == Sum(Values(d)) + x
  {
    if d != [] && d[0].0 != k {
      var rest := AddTo(d[1..], k, x);
      assert ([d[0]] + rest)[1..] == rest;
      SumAddTo(d[1..], k, x);
    }
  }

  /** The distinct elements of `s`, in the order of their first occurrence:
      the key order of a dictionary filled by setting the keys of `s` in turn. */
  function Dedup(s: seq<string>): (r: seq<string>)
    ensures Distinct(r)
    ensures forall x :: x in r <==> x in s
  {
    if s == [] then []
    else
      var p := s[..|s| - 1];
      assert s == p + [s[|s| - 1]];
      AddKeyDistinct(Dedup(p), s[|s| - 1]);
      AddKey(Dedup(p), s[|s| - 1])
  }

  lemma {:induction false} DedupOfDistinct(s: seq<string>)
    requires Distinct(s)
    ensures Dedup(s) == s
  {
    if s != [] {
      var p := s[..|s| - 1];
      DedupOfDistinct(p);
      assert s[|s| - 1] !in p;
      assert s == p + [s[|s| - 1]];
    }
  }

  /** The number of occurrences of `x` in `s`. */
  function Count<T(==)>(s: seq<T>, x: T): nat {
    if s == [] then 0
    else Count(s[..|s| - 1], x) + (if s[|s| - 1] == x then 1 else 0)
  }

  lemma {:induction false} CountPositive<T>(s: seq<T>, x: T)
    ensures Count(s, x) > 0 <==> x in s
  {
    if s != [] {
      var p := s[..|s| - 1];
      CountPositive(p, x);
      assert s == p + [s[|s| - 1]];
    }
  }
}
