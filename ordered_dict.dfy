/**
 * A dictionary with string keys that remembers the order in which its keys
 * were first inserted: iterating its values follows that order, assigning to
 * a key that is present keeps its place, and deleting a key closes the gap.
 */
module OrderedDict {
  import opened Wrappers

  datatype Dict<V> = Dict(order: seq<string>, entries: map<string, V>)

  predicate Distinct(s: seq<string>) {
    forall i, j :: 0 <= i < j < |s| ==> s[i] != s[j]
  }

  /** The order lists each key of the map exactly once. */
  ghost predicate Valid<V>(d: Dict<V>) {
    && Distinct(d.order)
    && forall k :: k in d.entries <==> k in d.order
  }

  function Empty<V>(): (d: Dict<V>)
    ensures Valid(d)
    ensures forall k :: Get(d, k) == None
  {
    Dict([], map[])
  }

  function Get<V>(d: Dict<V>, k: string): Option<V> {
    if k in d.entries then Some(d.entries[k]) else None
  }

  /** Assignment `d[k] = v`. */
  function Put<V>(d: Dict<V>, k: string, v: V): (r: Dict<V>)
    requires Valid(d)
    ensures Valid(r)
    ensures Get(r, k) == Some(v)
    ensures forall j :: j != k ==> Get(r, j) == Get(d, j)
    ensures k in d.entries ==> r.order == d.order
    ensures k !in d.entries ==> r.order == d.order + [k]
  {
    Dict(if k in d.entries then d.order else d.order + [k], d.entries[k := v])
  }

  /** The sequence `s` with the element `k` taken out, the others keeping their order. */
  function Without(s: seq<string>, k: string): (r: seq<string>)
    ensures forall j :: j in r <==> j in s && j != k
    ensures Distinct(s) ==> Distinct(r)
    ensures Distinct(s) && k in s ==> |r| == |s| - 1
    ensures k !in s ==> r == s
  {
    if s == [] then []
    else
      var rest := Without(s[1..], k);
      if s[0] == k then rest
      else
        assert Distinct(s) ==> s[0] !in s[1..];
        [s[0]] + rest
  }

  /** Deletion `del d[k]`, for a key the caller knows to be present or not. */
  function Remove<V>(d: Dict<V>, k: string): (r: Dict<V>)
    requires Valid(d)
    ensures Valid(r)
    ensures Get(r, k) == None
    ensures forall j :: j != k ==> Get(r, j) == Get(d, j)
    ensures r.order == Without(d.order, k)
  {
    Dict(Without(d.order, k), d.entries - {k})
  }

  /** The values in insertion order, as `d.values()` iterates them. */
  function Values<V>(d: Dict<V>): (vs: seq<V>)
    requires Valid(d)
    ensures |vs| == |d.order|
    ensures forall i :: 0 <= i < |d.order| ==> d.order[i] in d.entries && vs[i] == d.entries[d.order[i]]
  {
    seq(|d.order|, i requires 0 <= i < |d.order| => d.entries[d.order[i]])
  }

  /** A value occurs in the value sequence exactly when some key maps to it. */
  lemma ValuesMembership<V(!new)>(d: Dict<V>)
    requires Valid(d)
    ensures forall v :: v in Values(d) <==> exists k :: k in d.entries && d.entries[k] == v
  {
    var vs := Values(d);
    forall k | k in d.entries ensures vs[IndexOf(d.order, k)] == d.entries[k] {
    }
  }

  function IndexOf(s: seq<string>, k: string): (i: nat)
    requires k in s
    ensures i < |s| && s[i] == k
  {
    if s[0] == k then 0 else 1 + IndexOf(s[1..], k)
  }

  /** `len(d)`: the number of keys. */
  function Size<V>(d: Dict<V>): (n: nat)
    requires Valid(d)
    ensures n == |d.entries|
  {
    DistinctSize(d.order);
    assert d.entries.Keys == set k | k in d.order;
    |d.order|
  }

  lemma {:induction false} DistinctSize(s: seq<string>)
    requires Distinct(s)
    ensures |set k | k in s| == |s|
  {
    if s != [] {
      DistinctSize(s[1..]);
      assert (set k | k in s) == {s[0]} + (set k | k in s[1..]);
    }
  }
}
