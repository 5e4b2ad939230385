/**
 * Optional values, results, and the ordered key/value tables that stand in
 * for Python's insertion-ordered dictionaries.
 */
module Basics {

  datatype Option<+T> = None | Some(value: T) {
    function GetOr(default: T): T {
      match this
      case Some(v) => v
      case None => default
    }
  }

  datatype Result<+R, +E> = Success(value: R) | Failure(error: E)

  /** An insertion-ordered dictionary with string keys, as a list of entries. */
  type Table<V> = seq<(string, V)>

  function Keys<V>(t: Table<V>): (ks: seq<string>)
    ensures |ks| == |t|
    ensures forall i :: 0 <= i < |t| ==> ks[i] == t[i].0
  {
    if t == [] then [] else [t[0].0] + Keys(t[1..])
  }

  predicate HasKey<V>(t: Table<V>, key: string) {
    exists i :: 0 <= i < |t| && t[i].0 == key
  }

  /** Python's `d.get(key)`: the value of the first entry with that key, if any. */
  function Lookup<V>(t: Table<V>, key: string): (r: Option<V>)
    ensures r.Some? <==> HasKey(t, key)
    ensures r.Some? ==> exists i :: 0 <= i < |t| && t[i] == (key, r.value)
  {
    if t == [] then None
    else if t[0].0 == key then Some(t[0].1)
    else
      var r := Lookup(t[1..], key);
      assert r.Some? ==> exists i :: 0 <= i < |t| && t[i] == (key, r.value) by {
        if r.Some? {
          var i :| 0 <= i < |t[1..]| && t[1..][i] == (key, r.value);
          assert t[i + 1] == (key, r.value);
        }
      }
      assert HasKey(t, key) ==> HasKey(t[1..], key) by {
        if HasKey(t, key) {
          var i :| 0 <= i < |t| && t[i].0 == key;
          assert i != 0 && t[1..][i - 1].0 == key;
        }
      }
      r
  }

  /** The first entry with a key is the one found. */
  lemma {:induction false} LookupFirst<V>(t: Table<V>, i: nat)
    requires i < |t|
    requires forall j :: 0 <= j < i ==> t[j].0 != t[i].0
    ensures Lookup(t, t[i].0) == Some(t[i].1)
  {
    if i > 0 {
      assert forall j :: 0 <= j < i - 1 ==> t[1..][j] == t[j + 1];
      LookupFirst(t[1..], i - 1);
    }
  }

  /** The position of the first entry with a key. */
  function IndexOfKey<V>(t: Table<V>, key: string): (i: nat)
    requires HasKey(t, key)
    ensures i < |t| && t[i].0 == key
    ensures forall j :: 0 <= j < i ==> t[j].0 != key
  {
    if t[0].0 == key then 0
    else
      assert HasKey(t[1..], key) by {
        var i :| 0 <= i < |t| && t[i].0 == key;
        assert t[1..][i - 1].0 == key;
      }
      1 + IndexOfKey(t[1..], key)
  }

  /** `key if key in t else fallback`, as the position of the first entry with that key. */
  function IndexOr<V>(t: Table<V>, key: string, fallback: string): (i: nat)
    requires HasKey(t, fallback)
    ensures i < |t|
    ensures t[i].0 == if HasKey(t, key) then key else fallback
    ensures forall j :: 0 <= j < i ==> t[j].0 != t[i].0
  {
    if HasKey(t, key) then IndexOfKey(t, key) else IndexOfKey(t, fallback)
  }

  /** No key occurs twice, as in a dictionary literal. */
  predicate DistinctKeys<V>(t: Table<V>) {
    forall i, j :: 0 <= i < j < |t| ==> t[i].0 != t[j].0
  }

  /** With distinct keys, every entry is found at its own position. */
  lemma IndexOfOwnKey<V>(t: Table<V>, i: nat)
    requires DistinctKeys(t)
    requires i < |t|
    ensures HasKey(t, t[i].0)
    ensures IndexOfKey(t, t[i].0) == i
  {
  }

  /** Python's `d.get(key, default)`. */
  function LookupOr<V>(t: Table<V>, key: string, default: V): (r: V)
    ensures !HasKey(t, key) ==> r == default
    ensures HasKey(t, key) ==> exists i :: 0 <= i < |t| && t[i] == (key, r)
  {
    Lookup(t, key).GetOr(default)
  }

  /** The number of values over all entries of a table of lists. */
  function TotalSize<V>(t: Table<seq<V>>): nat {
    if t == [] then 0 else TotalSize(t[..|t| - 1]) + |t[|t| - 1].1|
  }

  lemma TotalSizeStep<V>(t: Table<seq<V>>, k: nat)
    requires 0 < k <= |t|
    ensures TotalSize(t[..k]) == TotalSize(t[..k - 1]) + |t[k - 1].1|
  {
    assert t[..k][..k - 1] == t[..k - 1];
  }
}
