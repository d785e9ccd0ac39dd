/**
 * Python dictionaries whose iteration order matters, as association
 * lists: keys appear in insertion order, and assigning to a key that is
 * already present keeps its position, as CPython does.
 */
module Dicts {
  import opened Builtins

  type Dict<K, V> = seq<(K, V)>


  predicate DistinctKeys<K(==,!new), V>(d: Dict<K, V>) {
    forall i, j :: 0 <= i < j < |d| ==> d[i].0 != d[j].0
  }

  /** The position of key `k`, or -1. */
  function IndexOf<K(==,!new), V>(d: Dict<K, V>, k: K): (i: int)
    ensures -1 <= i < |d|
    ensures i >= 0 ==> d[i].0 == k && forall j :: 0 <= j < i ==> d[j].0 != k
    ensures i == -1 ==> forall j :: 0 <= j < |d| ==> d[j].0 != k
  {
    if d == [] then -1
    else if d[0].0 == k then 0
    else
      var i := IndexOf(d[1..], k);
      if i == -1 then -1 else i + 1
  }

  /** `k in d`: the key occurs at some position. */
  predicate HasKey<K(==,!new), V>(d: Dict<K, V>, k: K) {
    IndexOf(d, k) >= 0
  }

  /** Being a key means occurring as the key of some entry. */
  lemma HasKeyIff<K(!new), V>(d: Dict<K, V>, k: K)
    ensures HasKey(d, k) <==> exists i :: 0 <= i < |d| && d[i].0 == k
  {
    if !HasKey(d, k) {
      assert forall i :: 0 <= i < |d| ==> d[i].0 != k;
    }
  }

  /** `d.get(k)` */
  function Get<K(==,!new), V>(d: Dict<K, V>, k: K): (r: Option<V>)
    ensures r.None? <==> !HasKey(d, k)
    ensures r.Some? ==> d[IndexOf(d, k)] == (k, r.value)
  {
    var i := IndexOf(d, k);
    if i < 0 then None else Some(d[i].1)
  }

  /** Two lists with the same keys at the same positions find a key at the same place. */
  lemma SameKeysIndexOf<K(!new), V>(d: Dict<K, V>, e: Dict<K, V>, k: K)
    requires |d| == |e| && forall j :: 0 <= j < |d| ==> d[j].0 == e[j].0
    ensures IndexOf(d, k) == IndexOf(e, k)
  {
    var a, b := IndexOf(d, k), IndexOf(e, k);
    if a >= 0 && b >= 0 {
      assert !(a < b) && !(b < a);
    }
  }

  lemma {:induction false} AppendIndexOf<K(!new), V>(d: Dict<K, V>, e: (K, V), k: K)
    ensures IndexOf(d + [e], k) ==
      if IndexOf(d, k) >= 0 then IndexOf(d, k) else if e.0 == k then |d| else -1
  {
    if d != [] {
      assert (d + [e])[1..] == d[1..] + [e];
      AppendIndexOf(d[1..], e, k);
    }
  }

  /** `d[k] = v` */
  function Put<K(==,!new), V>(d: Dict<K, V>, k: K, v: V): (r: Dict<K, V>)
    ensures Get(r, k) == Some(v)
    ensures forall k' :: k' != k ==> Get(r, k') == Get(d, k')
    ensures HasKey(d, k) ==> |r| == |d|
    ensures !HasKey(d, k) ==> r == d + [(k, v)]
  {
    var i := IndexOf(d, k);
    if i >= 0 then
      var r := d[i := (k, v)];
      SameKeysIndexOf(r, d, k);
      forall k' | k' != k
        ensures Get(r, k') == Get(d, k')
      {
        SameKeysIndexOf(r, d, k');
      }
      r
    else
      var r := d + [(k, v)];
      AppendIndexOf(d, (k, v), k);
      forall k' | k' != k
        ensures Get(r, k') == Get(d, k')
      {
        AppendIndexOf(d, (k, v), k');
      }
      r
  }

  /** Assigning to `k` leaves every entry with another key where it was. */
  lemma PutOthers<K(!new), V>(d: Dict<K, V>, k: K, v: V)
    ensures forall i :: 0 <= i < |d| && d[i].0 != k ==> Put(d, k, v)[i] == d[i]
  {
  }

  /** The keys, in iteration order. */
  function Keys<K(==,!new), V>(d: Dict<K, V>): (ks: seq<K>)
    ensures |ks| == |d| && forall i :: 0 <= i < |d| ==> ks[i] == d[i].0
  {
    if d == [] then [] else [d[0].0] + Keys(d[1..])
  }

  /** `d[k] = d.get(k, 0) + 1`, the counting idiom. */
  function Bump<K(==,!new)>(d: Dict<K, nat>, k: K): Dict<K, nat> {
    var prev := Get(d, k);
    Put(d, k, if prev.Some? then prev.value + 1 else 1)
  }

  /** `sum(d.values())` */
  function SumValues<K(==,!new)>(d: Dict<K, nat>): nat {
    if d == [] then 0 else d[0].1 + SumValues(d[1..])
  }

  /** Counting one more occurrence raises the sum of the counts by one. */
  lemma {:induction false} SumBump<K(!new)>(d: Dict<K, nat>, k: K)
    requires DistinctKeys(d)
    ensures SumValues(Bump(d, k)) == SumValues(d) + 1
  {
    if d == [] {
    } else if d[0].0 == k {
      assert Bump(d, k) == [(k, d[0].1 + 1)] + d[1..];
      assert ([(k, d[0].1 + 1)] + d[1..])[1..] == d[1..];
    } else {
      var tail := d[1..];
      SumBump(tail, k);
      assert Get(d, k) == Get(tail, k);
      var r := Bump(tail, k);
      assert Bump(d, k) == [d[0]] + r;
      assert ([d[0]] + r)[1..] == r;
    }
  }

  /** How often `k` occurs in `ks`. */
  function Count<K(==)>(ks: seq<K>, k: K): nat {
    if ks == [] then 0
    else Count(ks[..|ks| - 1], k) + (if ks[|ks| - 1] == k then 1 else 0)
  }

  /** The counter dictionary a tallying loop builds over `ks`, keys in first-seen order. */
  function Tally<K(==,!new)>(ks: seq<K>): Dict<K, nat> {
    if ks == [] then [] else Bump(Tally(ks[..|ks| - 1]), ks[|ks| - 1])
  }

  /** One more key counted by a tally is one more bump. */
  lemma TallySnoc<K(!new)>(ks: seq<K>, k: K)
    ensures Tally(ks + [k]) == Bump(Tally(ks), k)
  {
    assert (ks + [k])[..|ks|] == ks;
  }

  /** A tally has each key once. */
  lemma {:induction false} TallyDistinct<K(!new)>(ks: seq<K>)
    ensures DistinctKeys(Tally(ks))
  {
    if ks != [] {
      TallyDistinct(ks[..|ks| - 1]);
    }
  }

  /** The counts of a tally sum to the number of keys counted. */
  lemma {:induction false} TallySum<K(!new)>(ks: seq<K>)
    ensures SumValues(Tally(ks)) == |ks|
  {
    if ks != [] {
      var init := ks[..|ks| - 1];
      TallySum(init);
      TallyDistinct(init);
      SumBump(Tally(init), ks[|ks| - 1]);
    }
  }

  /** A bump raises the count of its own key by one and leaves the others. */
  lemma BumpGet<K(!new)>(d: Dict<K, nat>, k: K, other: K)
    ensures Get(Bump(d, k), other) ==
      if other != k then Get(d, other)
      else if Get(d, k).Some? then Some(Get(d, k).value + 1) else Some(1)
  {
    var prev := Get(d, k);
    var v: nat := if prev.Some? then prev.value + 1 else 1;
    assert Get(Put(d, k, v), k) == Some(v);
  }

  /** A tally holds exactly the keys seen, each with the number of times it was seen. */
  lemma {:induction false} TallyGet<K(!new)>(ks: seq<K>, k: K)
    ensures Get(Tally(ks), k) == if Count(ks, k) == 0 then None else Some(Count(ks, k))
  {
    if ks == [] {
      assert Get(Tally(ks), k) == None;
    } else {
      var init, last := ks[..|ks| - 1], ks[|ks| - 1];
      TallyGet(init, k);
      BumpGet(Tally(init), last, k);
      assert Tally(ks) == Bump(Tally(init), last);
      assert Count(ks, k) == Count(init, k) + (if last == k then 1 else 0);
    }
  }

  /** The position of the first key satisfying `p`, or -1. */
  function FirstKeyWhere<K, V>(d: Dict<K, V>, p: K -> bool, from: nat): (i: int)
    requires from <= |d|
    ensures i == -1 || (from <= i < |d| && p(d[i].0))
    ensures forall j :: from <= j < |d| && (i == -1 || j < i) ==> !p(d[j].0)
    decreases |d| - from
  {
    if from == |d| then -1
    else if p(d[from].0) then from
    else FirstKeyWhere(d, p, from + 1)
  }

  /** All the lists a dictionary holds, concatenated in iteration order. */
  function Flatten<K, V>(d: Dict<K, seq<V>>): (r: seq<V>)
    ensures forall i, x :: 0 <= i < |d| && x in d[i].1 ==> x in r
  {
    if d == [] then [] else Flatten(d[..|d| - 1]) + d[|d| - 1].1
  }
}
