/**
 * Insertion-ordered dictionaries as association lists, with Python `dict` semantics:
 * assigning to a present key overwrites its value in place, assigning to a new key
 * appends it.  Used for JSON objects, keyword-argument bags and reference containers.
 */
module Assoc {
  import opened Base

  predicate DistinctKeys<K(==), V>(es: seq<(K, V)>)
  {
    forall i, j :: 0 <= i < j < |es| ==> es[i].0 != es[j].0
  }

  predicate HasKey<K(==), V>(es: seq<(K, V)>, k: K)
  {
    exists i :: 0 <= i < |es| && es[i].0 == k
  }

  /** Position of `k`, if present (the first one when keys repeat). */
  function Find<K(==), V>(es: seq<(K, V)>, k: K): (r: Option<nat>)
    ensures r.Some? ==> r.value < |es| && es[r.value].0 == k
    ensures r.Some? ==> forall j :: 0 <= j < r.value ==> es[j].0 != k
    ensures r.None? <==> !HasKey(es, k)
  {
    if es == [] then None
    else if es[0].0 == k then Some(0)
    else match Find(es[1..], k)
      case None => None
      case Some(i) => Some(i + 1)
  }

  /** `d.get(k)`. */
  function Get<K(==), V>(es: seq<(K, V)>, k: K): (r: Option<V>)
    ensures r.Some? <==> HasKey(es, k)
  {
    match Find(es, k)
    case None => None
    case Some(i) => Some(es[i].1)
  }

  /** `d[k] = v`. */
  function Put<K(==), V>(es: seq<(K, V)>, k: K, v: V): (r: seq<(K, V)>)
    ensures !HasKey(es, k) ==> r == es + [(k, v)]
    ensures HasKey(es, k) ==> |r| == |es| && Find(es, k).Some? && r == es[Find(es, k).value := (k, v)]
    ensures DistinctKeys(es) ==> DistinctKeys(r)
    ensures HasKey(r, k) && Get(r, k) == Some(v)
  {
    match Find(es, k)
    case None =>
      assert (es + [(k, v)])[|es|].0 == k;
      es + [(k, v)]
    case Some(i) =>
      var r := es[i := (k, v)];
      assert Find(r, k) == Some(i) by { FindAfterSet(es, i, k, v); }
      r
  }

  lemma {:induction false} FindAfterSet<K, V>(es: seq<(K, V)>, i: nat, k: K, v: V)
    requires Find(es, k) == Some(i)
    ensures Find(es[i := (k, v)], k) == Some(i)
  {
    if i > 0 {
      assert es[i := (k, v)][1..] == es[1..][i - 1 := (k, v)];
      FindAfterSet(es[1..], i - 1, k, v);
    }
  }

  /** Two lists with the same key at every position find every key at the same place. */
  lemma {:induction false} FindSameKeys<K, V>(a: seq<(K, V)>, b: seq<(K, V)>, k: K)
    requires |a| == |b| && forall j :: 0 <= j < |a| ==> a[j].0 == b[j].0
    ensures Find(a, k) == Find(b, k)
  {
    if a != [] {
      FindSameKeys(a[1..], b[1..], k);
    }
  }

  /** Appending an entry under another key leaves a lookup where it was. */
  lemma {:induction false} FindAppendOther<K, V>(a: seq<(K, V)>, e: (K, V), k: K)
    requires e.0 != k
    ensures Find(a + [e], k) == Find(a, k)
  {
    if a != [] {
      assert (a + [e])[1..] == a[1..] + [e];
      FindAppendOther(a[1..], e, k);
    }
  }

  /** `d[k] = v` leaves the entry of every other key as it was. */
  lemma PutKeepsOthers<K, V>(es: seq<(K, V)>, k: K, v: V, k2: K)
    requires k2 != k
    ensures Get(Put(es, k, v), k2) == Get(es, k2)
    ensures Find(Put(es, k, v), k2) == Find(es, k2)
  {
    var r := Put(es, k, v);
    if HasKey(es, k) {
      FindSameKeys(es, r, k2);
    } else {
      FindAppendOther(es, (k, v), k2);
    }
  }

  /** With distinct keys, each entry is what a lookup of its own key gives. */
  lemma GetOfDistinct<K, V>(es: seq<(K, V)>, i: nat)
    requires DistinctKeys(es) && i < |es|
    ensures Get(es, es[i].0) == Some(es[i].1)
  {
    var j := Find(es, es[i].0).value;
    assert j == i;
  }

  /** `d.pop(k)` for a present key: the entry leaves, the others keep their order. */
  function Remove<K(==), V>(es: seq<(K, V)>, k: K): (r: seq<(K, V)>)
    ensures !HasKey(es, k) ==> r == es
    ensures HasKey(es, k) ==> r == es[..Find(es, k).value] + es[Find(es, k).value + 1..]
  {
    match Find(es, k)
    case None => es
    case Some(i) => es[..i] + es[i + 1..]
  }

  /** The dictionary `dict(pairs)` builds: later duplicates overwrite in place. */
  function FromPairs<K(==), V>(pairs: seq<(K, V)>): (r: seq<(K, V)>)
    ensures DistinctKeys(r)
  {
    if pairs == [] then []
    else Put(FromPairs(pairs[..|pairs| - 1]), pairs[|pairs| - 1].0, pairs[|pairs| - 1].1)
  }

  lemma {:induction false} FromPairsOfDistinct<K, V>(pairs: seq<(K, V)>)
    requires DistinctKeys(pairs)
    ensures FromPairs(pairs) == pairs
  {
    if pairs != [] {
      var init := pairs[..|pairs| - 1];
      FromPairsOfDistinct(init);
      var last := pairs[|pairs| - 1];
      assert !HasKey(init, last.0);
      assert init + [last] == pairs;
    }
  }
}
