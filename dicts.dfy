/** Python dictionaries with string keys: a map plus the insertion order of its keys. */
module Dicts {
  import opened Wrappers
  import opened Seqs

  datatype Dict<V> = Dict(keys: seq<string>, m: map<string, V>)

  /** Keys listed once each, and exactly the keys of the map. */
  predicate Valid<V>(d: Dict<V>) {
    && NoDup(d.keys)
    && (forall i :: 0 <= i < |d.keys| ==> d.keys[i] in d.m)
    && (forall k :: k in d.m ==> k in d.keys)
  }

  function Empty<V>(): (d: Dict<V>)
    ensures Valid(d) && |d.keys| == 0
  {
    Dict([], map[])
  }

  /** `d.get(k)`. */
  function Get<V>(d: Dict<V>, k: string): Option<V> {
    if k in d.m then Some(d.m[k]) else None
  }

  /** `d[k] = v`: an existing key keeps its position, a new key goes last. */
  function Put<V>(d: Dict<V>, k: string, v: V): (r: Dict<V>)
    requires Valid(d)
    ensures Valid(r)
    ensures r.m == d.m[k := v]
    ensures k in d.m ==> r.keys == d.keys
    ensures k !in d.m ==> r.keys == d.keys + [k]
    ensures |d.keys| <= |r.keys| && r.keys[..|d.keys|] == d.keys
  {
    if k in d.m then Dict(d.keys, d.m[k := v]) else Dict(d.keys + [k], d.m[k := v])
  }

  /** `k` is absent from both or maps to the same value in both. */
  predicate SameAt<V(==)>(before: Dict<V>, after: Dict<V>, k: string) {
    (k in after.m <==> k in before.m) && (k in after.m ==> after.m[k] == before.m[k])
  }

  /** Writing `k` leaves every other key as it was. */
  lemma PutKeeps<V>(d: Dict<V>, k: string, v: V)
    requires Valid(d)
    ensures forall j :: j != k ==> SameAt(d, Put(d, k, v), j)
  {
  }

  /** Two writes in a row; every other key stays. */
  function PutTwo<V(==)>(d: Dict<V>, k1: string, v1: V, k2: string, v2: V): (r: Dict<V>)
    requires Valid(d)
    ensures Valid(r)
    ensures r.m == d.m[k1 := v1][k2 := v2]
    ensures forall k :: k != k1 && k != k2 ==> SameAt(d, r, k)
  {
    PutTwoKeeps(d, k1, v1, k2, v2);
    Put(Put(d, k1, v1), k2, v2)
  }

  /** Two writes leave every other key as it was. */
  lemma PutTwoKeeps<V>(d: Dict<V>, k1: string, v1: V, k2: string, v2: V)
    requires Valid(d)
    ensures forall k :: k != k1 && k != k2 ==> SameAt(d, Put(Put(d, k1, v1), k2, v2), k)
  {
    var d1 := Put(d, k1, v1);
    forall k | k != k1 && k != k2
      ensures SameAt(d, Put(d1, k2, v2), k)
    {
      assert d1.m[k2 := v2] == d.m[k1 := v1][k2 := v2];
    }
  }

  /** Three writes in a row; every other key stays. */
  function PutThree<V(==)>(d: Dict<V>, k1: string, v1: V, k2: string, v2: V, k3: string, v3: V): (r: Dict<V>)
    requires Valid(d)
    ensures Valid(r)
    ensures r.m == d.m[k1 := v1][k2 := v2][k3 := v3]
    ensures forall k :: k != k1 && k != k2 && k != k3 ==> SameAt(d, r, k)
  {
    var d2 := PutTwo(d, k1, v1, k2, v2);
    PutKeeps(d2, k3, v3);
    PutThreeKeeps(d, d2, Put(d2, k3, v3), k1, k2, k3);
    Put(d2, k3, v3)
  }

  /** Keys kept by two steps in a row are kept by both together. */
  lemma PutThreeKeeps<V>(d: Dict<V>, d2: Dict<V>, r: Dict<V>, k1: string, k2: string, k3: string)
    requires forall k :: k != k1 && k != k2 ==> SameAt(d, d2, k)
    requires forall k :: k != k3 ==> SameAt(d2, r, k)
    ensures forall k :: k != k1 && k != k2 && k != k3 ==> SameAt(d, r, k)
  {
    forall k | k != k1 && k != k2 && k != k3
      ensures SameAt(d, r, k)
    {
      assert SameAt(d, d2, k) && SameAt(d2, r, k);
    }
  }

  /** Writing a key twice leaves the second value, in the first write's position. */
  lemma PutPut<V>(d: Dict<V>, k: string, v1: V, v2: V)
    requires Valid(d)
    ensures Put(Put(d, k, v1), k, v2) == Put(d, k, v2)
  {
    assert d.m[k := v1][k := v2] == d.m[k := v2];
  }

  /** The entries `ks` of `src`, as a map. */
  function Assigned<V>(ks: seq<string>, src: map<string, V>): (a: map<string, V>)
    requires forall i :: 0 <= i < |ks| ==> ks[i] in src
    ensures forall k :: k in a <==> k in ks
    ensures forall k :: k in a ==> a[k] == src[k]
  {
    map k | k in ks :: src[k]
  }

  /** Assigning `k` first and then `t` is assigning `[k] + t`. */
  lemma AssignedCons<V>(m: map<string, V>, k: string, t: seq<string>, src: map<string, V>)
    requires k in src && forall i :: 0 <= i < |t| ==> t[i] in src
    ensures m[k := src[k]] + Assigned(t, src) == m + Assigned([k] + t, src)
  {
  }

  /** Put the entries `ks` of `src` one after the other. */
  function PutAll<V>(d: Dict<V>, ks: seq<string>, src: map<string, V>): (r: Dict<V>)
    requires Valid(d)
    requires forall i :: 0 <= i < |ks| ==> ks[i] in src
    ensures Valid(r)
    ensures r.m == d.m + Assigned(ks, src)
    ensures |d.keys| <= |r.keys| && r.keys[..|d.keys|] == d.keys
    decreases |ks|
  {
    if |ks| == 0 then d
    else
      var d1 := Put(d, ks[0], src[ks[0]]);
      var r := PutAll(d1, ks[1..], src);
      AssignedCons(d.m, ks[0], ks[1..], src);
      ConsHeadTail(ks);
      PrefixTrans(d.keys, d1.keys, r.keys);
      r
  }

  /** `d.update(u)`: the entries of `u`, in `u`'s order, override or extend `d`. */
  function Update<V>(d: Dict<V>, u: Dict<V>): (r: Dict<V>)
    requires Valid(d) && Valid(u)
    ensures Valid(r)
    ensures forall k :: k in r.m <==> k in d.m || k in u.m
    ensures forall k :: k in u.m ==> r.m[k] == u.m[k]
    ensures forall k :: k in d.m && k !in u.m ==> r.m[k] == d.m[k]
    ensures |d.keys| <= |r.keys| && r.keys[..|d.keys|] == d.keys
  {
    PutAll(d, u.keys, u.m)
  }

  /** Keys as a list, in insertion order (`list(d.keys())`). */
  function KeyList<V>(d: Dict<V>): seq<string> {
    d.keys
  }
}
