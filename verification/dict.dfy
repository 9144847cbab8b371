/**
 * A PHP array with string keys and integer values, as the collector keeps
 * its per-request metrics: lookups by key, and the keys in the order in
 * which they were first assigned (which is the order `foreach` visits them).
 */
module Dicts {
  import opened Php

  datatype Dict = Dict(keys: seq<string>, values: map<string, int>)
  {
    /** The keys are listed once each, and exactly the keys that have a value are listed. */
    ghost predicate Valid() {
      NoDuplicates(keys) && forall k :: k in values <==> k in keys
    }

    /** `$a[$k] ?? 0`. */
    function Get(k: string): int {
      if k in values then values[k] else 0
    }

    /** `$a[$k] = $v`: a key already present keeps its position, a new key goes last. */
    function Put(k: string, v: int): (d: Dict)
      requires Valid()
      ensures d.Valid()
      ensures d.Get(k) == v && k in d.values
      ensures forall k' :: k' != k ==> d.Get(k') == Get(k') && (k' in d.values <==> k' in values)
      ensures k in values ==> d.keys == keys
      ensures k !in values ==> d.keys == keys + [k]
      ensures keys <= d.keys
    {
      Dict(if k in values then keys else keys + [k], values[k := v])
    }
  }

  /** Storing a default and then the real value is storing the real value. */
  lemma PutTwice(d: Dict, k: string, u: int, v: int)
    requires d.Valid()
    ensures d.Put(k, u).Put(k, v) == d.Put(k, v)
  {
    assert d.values[k := u][k := v] == d.values[k := v];
  }

  function Empty(): (d: Dict)
    ensures d.Valid() && d.keys == []
  {
    Dict([], map[])
  }
}
