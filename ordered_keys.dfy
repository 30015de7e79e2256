/** Key order of a Python dict: keys keep the position of their first
    insertion, and assigning to an existing key does not move it. */
module OrderedKeys {

  predicate Distinct(s: seq<string>) {
    forall i, j :: 0 <= i < j < |s| ==> s[i] != s[j]
  }

  /** The key order after `d[k] = v`. */
  function Put(order: seq<string>, k: string): (r: seq<string>)
    ensures Distinct(order) ==> Distinct(r)
    ensures forall x :: x in r <==> x in order || x == k
    ensures |order| <= |r| && r[..|order|] == order
  {
    if k in order then order else order + [k]
  }

  /** `order` lists the keys of `m`, each once. */
  ghost predicate Lists<V>(order: seq<string>, m: map<string, V>) {
    Distinct(order) && forall k :: k in order <==> k in m
  }

  lemma {:induction false} DistinctSize(s: seq<string>)
    requires Distinct(s)
    ensures |set x | x in s| == |s|
  {
    if s != [] {
      var init := s[..|s| - 1];
      DistinctSize(init);
      assert (set x | x in s) == (set x | x in init) + {s[|s| - 1]};
      assert s[|s| - 1] !in init;
    }
  }

  /** A key order of a map has as many entries as the map. */
  lemma ListsSize<V>(order: seq<string>, m: map<string, V>)
    requires Lists(order, m)
    ensures |order| == |m|
  {
    DistinctSize(order);
    assert (set x | x in order) == m.Keys;
  }
}
