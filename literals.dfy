/**
 * JavaScript object literals as ordered lists of entries, and the maps
 * they denote. The page's lookup tables and the rows of its transform are
 * all written as object literals.
 */
module ObjectLiterals {

  predicate Distinct<T(==)>(s: seq<T>)
  {
    forall i, j :: 0 <= i < j < |s| ==> s[i] != s[j]
  }

  /** The keys of an object literal's entries, in order. */
  function Firsts<K, V>(entries: seq<(K, V)>): (ks: seq<K>)
    ensures |ks| == |entries|
    ensures forall i :: 0 <= i < |entries| ==> ks[i] == entries[i].0
  {
    seq(|entries|, i requires 0 <= i < |entries| => entries[i].0)
  }

  /** The object an object literal with these entries denotes; a later entry overrides an earlier one. */
  function MapOf<K, V>(entries: seq<(K, V)>): (m: map<K, V>)
    ensures m.Keys == set i | 0 <= i < |entries| :: entries[i].0
    decreases |entries|
  {
    if entries == [] then map[]
    else
      var last := entries[|entries| - 1];
      var prefix := entries[..|entries| - 1];
      assert forall i :: 0 <= i < |prefix| ==> prefix[i] == entries[i];
      MapOf(prefix)[last.0 := last.1]
  }

  /** With distinct keys, every entry is what its key looks up. */
  lemma {:induction false} MapOfAt<K, V>(entries: seq<(K, V)>, i: nat)
    requires Distinct(Firsts(entries)) && i < |entries|
    ensures entries[i].0 in MapOf(entries) && MapOf(entries)[entries[i].0] == entries[i].1
    decreases |entries|
  {
    var n := |entries|;
    if i < n - 1 {
      var prefix := entries[..n - 1];
      assert Firsts(prefix) == Firsts(entries)[..n - 1];
      MapOfAt(prefix, i);
      assert entries[i].0 != entries[n - 1].0;
    }
  }

  /** With distinct keys, the object has one property per entry. */
  lemma {:induction false} MapOfCardinality<K, V>(entries: seq<(K, V)>)
    requires Distinct(Firsts(entries))
    ensures |MapOf(entries)| == |entries|
    decreases |entries|
  {
    if entries != [] {
      var n := |entries|;
      var prefix := entries[..n - 1];
      var last := entries[n - 1];
      assert Firsts(prefix) == Firsts(entries)[..n - 1];
      MapOfCardinality(prefix);
      forall i | 0 <= i < |prefix|
        ensures prefix[i].0 != last.0
      {
        assert Firsts(entries)[i] == prefix[i].0 && Firsts(entries)[n - 1] == last.0;
      }
      assert last.0 !in MapOf(prefix);
    }
  }

  /**
   * Two object literals whose entries are each other's entries read backwards,
   * both with distinct keys, denote mutually inverse maps of the same size.
   */
  lemma {:induction false} InverseTables<K, V>(forward: seq<(K, V)>, backward: seq<(V, K)>)
    requires |forward| == |backward|
    requires Distinct(Firsts(forward)) && Distinct(Firsts(backward))
    requires forall i :: 0 <= i < |forward| ==> backward[i] == (forward[i].1, forward[i].0)
    ensures |MapOf(forward)| == |MapOf(backward)| == |forward|
    ensures forall k :: k in MapOf(forward) ==>
      MapOf(forward)[k] in MapOf(backward) && MapOf(backward)[MapOf(forward)[k]] == k
    ensures forall v :: v in MapOf(backward) ==>
      MapOf(backward)[v] in MapOf(forward) && MapOf(forward)[MapOf(backward)[v]] == v
  {
    var f, b := MapOf(forward), MapOf(backward);
    MapOfCardinality(forward);
    MapOfCardinality(backward);
    forall k | k in f
      ensures f[k] in b && b[f[k]] == k
    {
      var i :| 0 <= i < |forward| && forward[i].0 == k;
      MapOfAt(forward, i);
      MapOfAt(backward, i);
    }
    forall v | v in b
      ensures b[v] in f && f[b[v]] == v
    {
      var i :| 0 <= i < |backward| && backward[i].0 == v;
      MapOfAt(forward, i);
      MapOfAt(backward, i);
    }
  }

  /** Only the last entry of a key counts: an entry no later entry overrides is what its key looks up. */
  lemma {:induction false} MapOfLastWins<K, V>(entries: seq<(K, V)>, i: nat)
    requires i < |entries|
    requires forall j :: i < j < |entries| ==> entries[j].0 != entries[i].0
    ensures entries[i].0 in MapOf(entries) && MapOf(entries)[entries[i].0] == entries[i].1
    decreases |entries|
  {
    var n := |entries|;
    if i < n - 1 {
      var prefix := entries[..n - 1];
      MapOfLastWins(prefix, i);
    }
  }

  /** Every property of the object comes from one of its entries. */
  lemma {:induction false} MapOfValuesFromEntries<K, V>(entries: seq<(K, V)>, k: K)
    requires k in MapOf(entries)
    ensures exists j :: 0 <= j < |entries| && entries[j] == (k, MapOf(entries)[k])
    decreases |entries|
  {
    var n := |entries|;
    if entries[n - 1].0 != k {
      var prefix := entries[..n - 1];
      MapOfValuesFromEntries(prefix, k);
      var j :| 0 <= j < |prefix| && prefix[j] == (k, MapOf(prefix)[k]);
      assert entries[j] == prefix[j];
    }
  }
}
