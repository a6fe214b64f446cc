/** A Python `dict` with string keys: the keys in insertion order together
    with the key-to-value mapping. Overwriting a present key keeps its
    position; a new key goes to the end. */
module Dicts {
  import opened Base

  datatype Dict<V> = Dict(keys: seq<string>, entries: map<string, V>)

  /** The key list holds each key of the mapping exactly once. */
  ghost predicate Valid<V>(d: Dict<V>) {
    && Distinct(d.keys)
    && (forall k :: k in d.entries <==> k in d.keys)
  }

  function Empty<V>(): (d: Dict<V>)
    ensures Valid(d)
    ensures forall k :: Get(d, k) == None
    ensures d.keys == []
  {
    Dict([], map[])
  }

  function Get<V>(d: Dict<V>, k: string): Option<V> {
    if k in d.entries then Some(d.entries[k]) else None
  }

  /** `d[k] = v` */
  function Put<V>(d: Dict<V>, k: string, v: V): (r: Dict<V>)
    requires Valid(d)
    ensures Valid(r)
    ensures Get(r, k) == Some(v)
    ensures forall j :: j != k ==> Get(r, j) == Get(d, j)
    ensures k in d.entries ==> r.keys == d.keys
    ensures k !in d.entries ==> r.keys == d.keys + [k]
  {
    var keys := if k in d.entries then d.keys else d.keys + [k];
    var r := Dict(keys, d.entries[k := v]);
    assert forall i :: 0 <= i < |d.keys| ==> keys[i] == d.keys[i];
    r
  }

  /** `len(d)` */
  function Size<V>(d: Dict<V>): nat {
    |d.entries|
  }

  /** A sequence without repetitions has as many distinct elements as entries. */
  lemma {:induction false} DistinctCardinality(s: seq<string>)
    requires Distinct(s)
    ensures |set x | x in s| == |s|
  {
    if s != [] {
      var t := s[..|s| - 1];
      var last := s[|s| - 1];
      assert Distinct(t);
      DistinctCardinality(t);
      assert (set x | x in s) == (set x | x in t) + {last};
      assert last !in (set x | x in t);
    }
  }

  /** `len(d) == len(list(d.keys()))` */
  lemma SizeIsKeyCount<V>(d: Dict<V>)
    requires Valid(d)
    ensures Size(d) == |d.keys|
  {
    DistinctCardinality(d.keys);
    assert d.entries.Keys == set x | x in d.keys;
  }
}
