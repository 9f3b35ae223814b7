/**
 * A PHP array with string keys, as the plugin builds it with
 * `$a[$key] = $value`: an ordered list of entries in which assigning to a
 * key that is present replaces that entry's value where it stands, and
 * assigning to a new key appends an entry.
 */
module Assoc {
  import opened Php

  type Assoc<V> = seq<(string, V)>

  /** The keys, in order. */
  function Keys<V>(a: Assoc<V>): (ks: seq<string>)
    ensures |ks| == |a|
    ensures forall i :: 0 <= i < |a| ==> ks[i] == a[i].0
  {
    seq(|a|, i requires 0 <= i < |a| => a[i].0)
  }

  /** The values, in order: what `foreach ($a as $v)` visits. */
  function Values<V>(a: Assoc<V>): (vs: seq<V>)
    ensures |vs| == |a|
    ensures forall i :: 0 <= i < |a| ==> vs[i] == a[i].1
  {
    seq(|a|, i requires 0 <= i < |a| => a[i].1)
  }

  /** No key occurs twice. */
  predicate DistinctKeys<V>(a: Assoc<V>)
  {
    forall i, j :: 0 <= i < |a| && 0 <= j < |a| && a[i].0 == a[j].0 ==> i == j
  }

  /** `array_key_exists($k, $a)`. */
  predicate HasKey<V>(a: Assoc<V>, k: string)
  {
    exists i :: 0 <= i < |a| && a[i].0 == k
  }

  /** The position of a key, or -1. */
  function IndexOf<V>(a: Assoc<V>, k: string): (i: int)
    ensures -1 <= i < |a|
    ensures i >= 0 ==> a[i].0 == k
    ensures i == -1 <==> !HasKey(a, k)
    ensures i >= 0 && DistinctKeys(a) ==> forall j :: 0 <= j < |a| && a[j].0 == k ==> j == i
  {
    if |a| == 0 then -1
    else if a[|a| - 1].0 == k then |a| - 1
    else
      var i := IndexOf(a[..|a| - 1], k);
      assert HasKey(a, k) ==> HasKey(a[..|a| - 1], k) by {
        if HasKey(a, k) {
          var j :| 0 <= j < |a| && a[j].0 == k;
          assert j < |a| - 1 && a[..|a| - 1][j].0 == k;
        }
      }
      i
  }

  /** `$a[$k]`, absent as None. */
  function Get<V>(a: Assoc<V>, k: string): (r: Option<V>)
    ensures r.Some? <==> HasKey(a, k)
  {
    var i := IndexOf(a, k);
    if i >= 0 then Some(a[i].1) else None
  }

  /** `$a[$k] = $v`. */
  function Put<V>(a: Assoc<V>, k: string, v: V): (r: Assoc<V>)
    ensures HasKey(a, k) ==> |r| == |a| && Keys(r) == Keys(a)
    ensures !HasKey(a, k) ==> r == a + [(k, v)]
    ensures forall i :: 0 <= i < |a| && a[i].0 != k ==> r[i] == a[i]
    ensures forall i :: 0 <= i < |r| ==> (i < |a| && r[i] == a[i]) || r[i] == (k, v)
  {
    var i := IndexOf(a, k);
    if i >= 0 then a[i := (k, v)] else a + [(k, v)]
  }

  /** Assignment keeps keys distinct and makes the key read back the value; other keys read as before. */
  lemma PutGet<V>(a: Assoc<V>, k: string, v: V, k': string)
    requires DistinctKeys(a)
    ensures DistinctKeys(Put(a, k, v))
    ensures Get(Put(a, k, v), k) == Some(v)
    ensures k' != k ==> Get(Put(a, k, v), k') == Get(a, k')
    ensures HasKey(Put(a, k, v), k') <==> HasKey(a, k') || k' == k
  {
    var r := Put(a, k, v);
    var i := IndexOf(a, k);
    if i >= 0 {
      assert r == a[i := (k, v)];
      assert forall j :: 0 <= j < |r| ==> r[j].0 == a[j].0;
    } else {
      assert r[|a|].0 == k;
    }
    assert HasKey(r, k) by {
      if i >= 0 { assert r[i].0 == k; } else { assert r[|a|].0 == k; }
    }
    var ri := IndexOf(r, k);
    assert r[ri].1 == v;
    if k' != k {
      if HasKey(a, k') {
        var j := IndexOf(a, k');
        assert r[j] == a[j];
        assert IndexOf(r, k') == j;
      }
      if HasKey(r, k') {
        var j :| 0 <= j < |r| && r[j].0 == k';
        assert j < |a| && a[j].0 == k';
      }
    }
  }
}
