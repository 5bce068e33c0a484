/**
The pattern both databases persist with: a map is written as a list, in whatever order the map
is walked, and read back by computing the key of every record.
*/
module Store {

  /** Every record sits under its own key. */
  ghost predicate Keyed<V(!new)>(m: map<string, V>, key: V -> string) {
    forall k :: k in m ==> key(m[k]) == k
  }

  /** The list holds exactly the records of the map, each once per key, in some order. */
  ghost predicate Lists<V(!new)>(list: seq<V>, m: map<string, V>, key: V -> string) {
    && |list| == |m|
    && (forall i :: 0 <= i < |list| ==> key(list[i]) in m && m[key(list[i])] == list[i])
    && (forall k :: k in m ==> m[k] in list)
  }

  /** Reading a list back: later records replace earlier ones under the same key. */
  function Load<V>(list: seq<V>, key: V -> string): map<string, V> {
    if list == [] then map[] else
      var last := list[|list| - 1];
      Load(list[..|list| - 1], key)[key(last) := last]
  }

  lemma {:induction false} LoadContents<V(!new)>(list: seq<V>, key: V -> string)
    requires forall i, j :: 0 <= i < |list| && 0 <= j < |list| && key(list[i]) == key(list[j]) ==> list[i] == list[j]
    ensures forall k :: k in Load(list, key) <==> exists i :: 0 <= i < |list| && key(list[i]) == k
    ensures forall i :: 0 <= i < |list| ==> key(list[i]) in Load(list, key) && Load(list, key)[key(list[i])] == list[i]
  {
    if list != [] {
      LoadContents(list[..|list| - 1], key);
    }
  }

  /** Saving and loading gives the map back, in whatever order it was saved. */
  lemma SaveLoadIdentity<V(!new)>(list: seq<V>, m: map<string, V>, key: V -> string)
    requires Keyed(m, key) && Lists(list, m, key)
    ensures Load(list, key) == m
  {
    LoadContents(list, key);
    forall k | k in m
      ensures k in Load(list, key)
    {
      var i :| 0 <= i < |list| && list[i] == m[k];
      assert key(list[i]) == k;
    }
  }

  /** The records of the map in the order of these keys. */
  ghost predicate InKeyOrder<V>(list: seq<V>, keys: seq<string>, m: map<string, V>) {
    && multiset(keys) == multiset(m.Keys) && |list| == |keys|
    && (forall i :: 0 <= i < |list| ==> keys[i] in m && list[i] == m[keys[i]])
  }

  lemma KeyOrderLists<V(!new)>(list: seq<V>, m: map<string, V>, key: V -> string)
    requires Keyed(m, key) && InSomeOrder(list, m)
    ensures Lists(list, m, key)
  {
    var keys :| InKeyOrder(list, keys, m);
    assert |keys| == |multiset(keys)| == |m.Keys| == |m|;
    forall k | k in m
      ensures m[k] in list
    {
      assert k in multiset(m.Keys);
      var i :| 0 <= i < |keys| && keys[i] == k;
      assert list[i] == m[k];
    }
  }

  /** Every record of the map once, in some order of its keys. */
  ghost predicate InSomeOrder<V>(list: seq<V>, m: map<string, V>) {
    exists keys :: InKeyOrder(list, keys, m)
  }

  /** `save`: walks the map in an arbitrary order. */
  method ListEntries<V>(m: map<string, V>) returns (list: seq<V>)
    ensures InSomeOrder(list, m)
  {
    list := [];
    ghost var keys: seq<string> := [];
    var rest := m.Keys;
    while rest != {}
      invariant rest <= m.Keys && |list| == |keys|
      invariant multiset(keys) + multiset(rest) == multiset(m.Keys)
      invariant forall i :: 0 <= i < |list| ==> keys[i] in m && list[i] == m[keys[i]]
    {
      var k :| k in rest;
      rest := rest - {k};
      list, keys := list + [m[k]], keys + [k];
    }
    assert InKeyOrder(list, keys, m);
  }

  /** `load` over an empty database. */
  method LoadEntries<V>(list: seq<V>, key: V -> string) returns (m: map<string, V>)
    ensures m == Load(list, key)
  {
    m := map[];
    for i := 0 to |list|
      invariant m == Load(list[..i], key)
    {
      assert list[..i + 1][..i] == list[..i];
      m := m[key(list[i]) := list[i]];
    }
    assert list[..|list|] == list;
  }
}
