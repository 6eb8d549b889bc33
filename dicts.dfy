/**
 * A JavaScript plain object used as a dictionary: string keys, each with one
 * value, enumerated in the order in which each key was first assigned.
 */
module Dicts {

  datatype Dict<V> = Dict(order: seq<string>, entries: map<string, V>) {

    /** The enumeration order lists the keys and nothing else. */
    predicate Valid() {
      && (forall k :: k in entries ==> k in order)
      && (forall i :: 0 <= i < |order| ==> order[i] in entries)
    }
  }

  /** `{}` */
  function Empty<V>(): (d: Dict<V>)
    ensures d.Valid() && d.order == [] && d.entries == map[]
  {
    Dict([], map[])
  }

  /**
   * `d[k] = v`: a new key goes to the end of the enumeration order, an
   * existing key keeps its place and gets the new value.
   */
  function Put<V>(d: Dict<V>, k: string, v: V): (r: Dict<V>)
    ensures d.Valid() ==> r.Valid()
    ensures r.entries == d.entries[k := v]
    ensures r.order == if k in d.entries then d.order else d.order + [k]
  {
    Dict(if k in d.entries then d.order else d.order + [k], d.entries[k := v])
  }

  /** No key is listed twice. */
  predicate Distinct(order: seq<string>) {
    forall i, j :: 0 <= i < j < |order| ==> order[i] != order[j]
  }

  /** An assignment never lists a key twice: a new key is appended, an existing one stays put. */
  lemma PutKeepsDistinct<V>(d: Dict<V>, k: string, v: V)
    requires d.Valid() && Distinct(d.order)
    ensures Distinct(Put(d, k, v).order)
  {
    if k !in d.entries {
      var o := d.order + [k];
      forall i, j | 0 <= i < j < |o| ensures o[i] != o[j] {
        if j == |d.order| {
          assert o[i] == d.order[i] && d.order[i] in d.entries;
        }
      }
    }
  }
}
