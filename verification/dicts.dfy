/**
 * Python dictionaries remember insertion order: iteration, `items()` and
 * `values()` list the keys in the order they were first inserted, and
 * re-assigning an existing key keeps its position.  `Dict` models that
 * behaviour as a key sequence (insertion order) plus a finite map.
 */
module Dicts {

  import opened Common

  datatype Dict<K(==), V> = Dict(keys: seq<K>, vals: map<K, V>)

  /** No element occurs twice. */
  ghost predicate Distinct<K>(s: seq<K>)
  {
    forall i, j :: 0 <= i < j < |s| ==> s[i] != s[j]
  }

  /** The keys are pairwise distinct and are exactly the keys of the map. */
  ghost predicate Valid<K, V>(d: Dict<K, V>)
  {
    && Distinct(d.keys)
    && d.vals.Keys == set k | k in d.keys
  }

  function Empty<K(==), V>(): (d: Dict<K, V>)
    ensures Valid(d) && d.vals == map[]
  {
    Dict([], map[])
  }

  /** `d[k] = v`: a new key goes to the end, an existing key keeps its place. */
  function Put<K(==), V>(d: Dict<K, V>, k: K, v: V): (r: Dict<K, V>)
    requires Valid(d)
    ensures Valid(r)
    ensures r.vals == d.vals[k := v]
    ensures r.keys == if k in d.keys then d.keys else d.keys + [k]
  {
    if k in d.vals then Dict(d.keys, d.vals[k := v]) else Dict(d.keys + [k], d.vals[k := v])
  }

  /** The keys of `d.items()`, in order. */
  function Items<K(==), V>(d: Dict<K, V>): (r: seq<(K, V)>)
    requires Valid(d)
    ensures |r| == |d.keys|
    ensures forall i :: 0 <= i < |r| ==> r[i].0 == d.keys[i] && r[i].1 == d.vals[d.keys[i]]
  {
    seq(|d.keys|, i requires 0 <= i < |d.keys| => (d.keys[i], d.vals[d.keys[i]]))
  }

  /** `d.values()`, in key order. */
  function Values<K(==), V>(d: Dict<K, V>): (r: seq<V>)
    requires Valid(d)
    ensures |r| == |d.keys|
    ensures forall i :: 0 <= i < |r| ==> r[i] == d.vals[d.keys[i]]
  {
    seq(|d.keys|, i requires 0 <= i < |d.keys| => d.vals[d.keys[i]])
  }

  /** Builds a dictionary from a literal list of pairs, as `{k1: v1, k2: v2}` does. */
  function FromItems<K(==), V>(items: seq<(K, V)>): (r: Dict<K, V>)
    ensures Valid(r)
  {
    PutAll(Empty(), items)
  }

  /** Successive `d[k] = v` for each pair, left to right (the loop inside `d.update`). */
  function PutAll<K(==), V>(d: Dict<K, V>, items: seq<(K, V)>): (r: Dict<K, V>)
    requires Valid(d)
    ensures Valid(r)
    decreases |items|
  {
    if items == [] then d
    else
      var last := items[|items| - 1];
      Put(PutAll(d, items[..|items| - 1]), last.0, last.1)
  }

  /** `d.update(other)`. */
  function Update<K(==), V>(d: Dict<K, V>, other: Dict<K, V>): (r: Dict<K, V>)
    requires Valid(d) && Valid(other)
    ensures Valid(r)
  {
    PutAll(d, Items(other))
  }

  function FirstOf<A, B>(items: seq<(A, B)>): (r: seq<A>)
    ensures |r| == |items|
    ensures forall i :: 0 <= i < |r| ==> r[i] == items[i].0
  {
    seq(|items|, i requires 0 <= i < |items| => items[i].0)
  }

  /**
   * `acc` followed by the elements of `s` that are not yet present, each at its
   * first appearance: the key order that repeated insertion produces.
   */
  function AppendNew<K(==)>(acc: seq<K>, s: seq<K>): seq<K>
    decreases |s|
  {
    if s == [] then acc
    else
      var p := AppendNew(acc, s[..|s| - 1]);
      if s[|s| - 1] in p then p else p + [s[|s| - 1]]
  }

  lemma {:induction false} AppendNewConcat<K>(acc: seq<K>, s: seq<K>, t: seq<K>)
    ensures AppendNew(AppendNew(acc, s), t) == AppendNew(acc, s + t)
    decreases |t|
  {
    if t == [] {
      assert s + t == s;
    } else {
      AppendNewConcat(acc, s, t[..|t| - 1]);
      assert (s + t)[..|s + t| - 1] == s + t[..|t| - 1];
      assert (s + t)[|s + t| - 1] == t[|t| - 1];
    }
  }

  lemma {:induction false} AppendNewMembers<K>(acc: seq<K>, s: seq<K>, x: K)
    ensures x in AppendNew(acc, s) <==> x in acc || x in s
    decreases |s|
  {
    if s != [] {
      AppendNewMembers(acc, s[..|s| - 1], x);
      assert s == s[..|s| - 1] + [s[|s| - 1]];
    }
  }

  /** No key appears twice once the accumulator had none twice. */
  lemma {:induction false} AppendNewDistinct<K>(acc: seq<K>, s: seq<K>)
    requires Distinct(acc)
    ensures Distinct(AppendNew(acc, s))
    decreases |s|
  {
    if s != [] {
      var p := AppendNew(acc, s[..|s| - 1]);
      AppendNewDistinct(acc, s[..|s| - 1]);
      var x := s[|s| - 1];
      if x !in p {
        var r := p + [x];
        assert AppendNew(acc, s) == r;
        forall i, j | 0 <= i < j < |r| ensures r[i] != r[j] {
          if j == |p| {
            assert r[i] == p[i] && p[i] in p;
          } else {
            assert r[i] == p[i] && r[j] == p[j];
          }
        }
      }
    }
  }

  /** The keys after a run of insertions: the old keys, then each new key where it first occurs. */
  lemma {:induction false} PutAllKeys<K, V>(d: Dict<K, V>, items: seq<(K, V)>)
    requires Valid(d)
    ensures PutAll(d, items).keys == AppendNew(d.keys, FirstOf(items))
    decreases |items|
  {
    if items != [] {
      var init := items[..|items| - 1];
      PutAllKeys(d, init);
      assert FirstOf(items)[..|items| - 1] == FirstOf(init);
    }
  }

  /** The value `PutAll` leaves under `k`: the last pair for `k`, else the old value. */
  function LastFor<K(==), V>(d: map<K, V>, items: seq<(K, V)>, k: K): Option<V>
    decreases |items|
  {
    if items == [] then (if k in d then Some(d[k]) else None)
    else if items[|items| - 1].0 == k then Some(items[|items| - 1].1)
    else LastFor(d, items[..|items| - 1], k)
  }

  lemma {:induction false} PutAllValues<K, V>(d: Dict<K, V>, items: seq<(K, V)>, k: K)
    requires Valid(d)
    ensures k in PutAll(d, items).vals <==> LastFor(d.vals, items, k).Some?
    ensures k in PutAll(d, items).vals ==> PutAll(d, items).vals[k] == LastFor(d.vals, items, k).value
    decreases |items|
  {
    if items != [] {
      PutAllValues(d, items[..|items| - 1], k);
    }
  }
}
