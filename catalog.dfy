/**
 * Name-keyed catalogs, the model of the `HashMap`/`DashMap` tables that the
 * session caches, the server registry and the client's configuration table
 * fill by inserting items one at a time.
 */
module Catalog {

  /**
   * The map obtained by inserting `items` in order under `key(item)`: a later
   * item with the same key overwrites an earlier one.
   */
  function IndexBy<T>(items: seq<T>, key: T -> string): (m: map<string, T>)
    ensures m.Keys == set i | 0 <= i < |items| :: key(items[i])
    ensures forall k :: k in m ==> key(m[k]) == k
  {
    if items == [] then map[]
    else
      var last := items[|items| - 1];
      var m := IndexBy(items[..|items| - 1], key)[key(last) := last];
      assert forall i :: 0 <= i < |items| - 1 ==> items[..|items| - 1][i] == items[i];
      m
  }

  /** Each key maps to the last item that carries it. */
  lemma {:induction false} IndexByLastWins<T>(items: seq<T>, key: T -> string, i: nat)
    requires i < |items|
    requires forall j :: i < j < |items| ==> key(items[j]) != key(items[i])
    ensures key(items[i]) in IndexBy(items, key)
    ensures IndexBy(items, key)[key(items[i])] == items[i]
  {
    if i < |items| - 1 {
      var prefix := items[..|items| - 1];
      assert prefix[i] == items[i];
      forall j | i < j < |prefix| ensures key(prefix[j]) != key(prefix[i]) {
        assert prefix[j] == items[j];
      }
      IndexByLastWins(prefix, key, i);
    }
  }

  /** Every item stored under a key is one of the inserted items. */
  lemma {:induction false} IndexByFrom<T>(items: seq<T>, key: T -> string, k: string)
    requires k in IndexBy(items, key)
    ensures exists i :: 0 <= i < |items| && IndexBy(items, key)[k] == items[i]
  {
    var last := items[|items| - 1];
    if key(last) != k {
      var prefix := items[..|items| - 1];
      IndexByFrom(prefix, key, k);
      var i :| 0 <= i < |prefix| && IndexBy(prefix, key)[k] == prefix[i];
      assert items[i] == prefix[i];
    }
  }

  /** `xs` holds exactly the values of `m`, each once (in hash-map order). */
  ghost predicate Lists<T(!new)>(xs: seq<T>, m: map<string, T>) {
    |xs| == |m| && forall x :: x in xs <==> x in m.Values
  }

  /** Inserting `items` one by one into an empty table, as the refresh loops do. */
  method Index<T>(items: seq<T>, key: T -> string) returns (m: map<string, T>)
    ensures m == IndexBy(items, key)
  {
    m := map[];
    for i := 0 to |items|
      invariant m == IndexBy(items[..i], key)
    {
      assert items[..i + 1][..i] == items[..i];
      m := m[key(items[i]) := items[i]];
    }
    assert items[..|items|] == items;
  }

  /**
   * An enumeration of a finite set of names in some order (the iteration
   * order of a hash map, which nothing in the core relies on): every name
   * exactly once.
   */
  method Enumerate(names: set<string>) returns (ks: seq<string>)
    ensures forall k :: k in ks <==> k in names
    ensures forall i, j :: 0 <= i < j < |ks| ==> ks[i] != ks[j]
    ensures |ks| == |names|
  {
    var rest := names;
    ks := [];
    while rest != {}
      invariant rest <= names
      invariant forall k :: k in names ==> (k in ks <==> k !in rest)
      invariant forall k :: k in ks ==> k in names
      invariant forall i, j :: 0 <= i < j < |ks| ==> ks[i] != ks[j]
      invariant |ks| + |rest| == |names|
      decreases rest
    {
      var k :| k in rest;
      ks := ks + [k];
      rest := rest - {k};
    }
  }

  /** The values of a map, one per key, in key-enumeration order; `ks` is that enumeration. */
  method Values<T(!new)>(m: map<string, T>) returns (vs: seq<T>, ghost ks: seq<string>)
    ensures |vs| == |ks| == |m|
    ensures forall k :: k in ks <==> k in m
    ensures forall i, j :: 0 <= i < j < |ks| ==> ks[i] != ks[j]
    ensures forall i :: 0 <= i < |ks| ==> ks[i] in m && vs[i] == m[ks[i]]
    ensures Lists(vs, m)
  {
    var names := Enumerate(m.Keys);
    ks := names;
    vs := [];
    for i := 0 to |names|
      invariant |vs| == i
      invariant forall j :: 0 <= j < i ==> vs[j] == m[names[j]]
    {
      vs := vs + [m[names[i]]];
    }
    forall k | k in m ensures m[k] in vs {
      var i :| 0 <= i < |names| && names[i] == k;
      assert vs[i] == m[k];
    }
  }
}
