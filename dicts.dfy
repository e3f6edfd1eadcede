/** A Python `dict` as the list of its entries in insertion order: assigning to a present key
    updates that entry where it stands, assigning to a new key appends. */
module Dicts {
  import opened Wrappers

  type Dict<K, V> = seq<(K, V)>

  function Keys<K, V>(d: Dict<K, V>): (r: seq<K>)
    ensures |r| == |d| && forall i :: 0 <= i < |d| ==> r[i] == d[i].0
  {
    seq(|d|, i requires 0 <= i < |d| => d[i].0)
  }

  /** `d.values()`, in insertion order. */
  function Values<K, V>(d: Dict<K, V>): (r: seq<V>)
    ensures |r| == |d| && forall i :: 0 <= i < |d| ==> r[i] == d[i].1
  {
    seq(|d|, i requires 0 <= i < |d| => d[i].1)
  }

  predicate UniqueKeys<K(==), V>(d: Dict<K, V>)
  {
    forall i, j :: 0 <= i < j < |d| ==> d[i].0 != d[j].0
  }

  /** `d.get(k)`. */
  function Get<K(==), V>(d: Dict<K, V>, k: K): (r: Option<V>)
    ensures r.None? <==> k !in Keys(d)
    ensures r.Some? ==> (k, r.value) in d
  {
    if |d| == 0 then None
    else if d[|d| - 1].0 == k then Some(d[|d| - 1].1)
    else
      assert Keys(d) == Keys(d[..|d| - 1]) + [d[|d| - 1].0];
      Get(d[..|d| - 1], k)
  }

  /** `d.get(k, default)`. */
  function GetOr<K(==), V>(d: Dict<K, V>, k: K, default: V): V
  {
    match Get(d, k)
    case Some(v) => v
    case None => default
  }

  /** `d[k] = v`. */
  function Set<K(==), V>(d: Dict<K, V>, k: K, v: V): (r: Dict<K, V>)
    ensures k in Keys(d) ==> |r| == |d|
    ensures k !in Keys(d) ==> r == d + [(k, v)]
    ensures forall i :: 0 <= i < |d| ==> r[i] == if d[i].0 == k then (k, v) else d[i]
  {
    if k in Keys(d) then seq(|d|, i requires 0 <= i < |d| => if d[i].0 == k then (k, v) else d[i])
    else d + [(k, v)]
  }

  /** After `d[k] = v`, reading `k` gives `v` and every other key reads as before; keys stay unique. */
  lemma {:induction false} SetThenGet<K, V>(d: Dict<K, V>, k: K, v: V, other: K)
    requires UniqueKeys(d)
    ensures UniqueKeys(Set(d, k, v))
    ensures Get(Set(d, k, v), k) == Some(v)
    ensures other != k ==> Get(Set(d, k, v), other) == Get(d, other)
  {
    var r := Set(d, k, v);
    assert Keys(r) == if k in Keys(d) then Keys(d) else Keys(d) + [k];
    GetUnique(r, k, v);
    if other != k {
      match Get(d, other)
      case None =>
        assert other !in Keys(r);
      case Some(w) =>
        var i :| 0 <= i < |d| && d[i] == (other, w);
        assert r[i] == (other, w);
        GetUnique(r, other, w);
    }
  }

  /** With unique keys, an entry that is present is what `get` returns. */
  lemma {:induction false} GetUnique<K, V>(d: Dict<K, V>, k: K, v: V)
    requires UniqueKeys(d)
    requires (k, v) in d
    ensures Get(d, k) == Some(v)
  {
    if d[|d| - 1].0 != k {
      var i :| 0 <= i < |d| && d[i] == (k, v);
      assert i < |d| - 1;
      assert d[..|d| - 1][i] == (k, v);
      GetUnique(d[..|d| - 1], k, v);
    } else {
      var i :| 0 <= i < |d| && d[i] == (k, v);
      assert i == |d| - 1;
    }
  }

  /** A dict filled by assigning each entry in turn (`d[k] = v` in a loop): a later entry for a
      key replaces the value of an earlier one, and keys keep the position of their first entry. */
  function FromEntries<K(==), V>(entries: seq<(K, V)>): (r: Dict<K, V>)
  {
    if entries == [] then []
    else
      var n := |entries| - 1;
      Set(FromEntries(entries[..n]), entries[n].0, entries[n].1)
  }

  /** Filling from one more entry assigns it last. */
  lemma FromEntriesSnoc<K, V>(entries: seq<(K, V)>, e: (K, V))
    ensures FromEntries(entries + [e]) == Set(FromEntries(entries), e.0, e.1)
  {
    assert (entries + [e])[..|entries|] == entries;
  }

  /** The filled dict has one entry per key. */
  lemma {:induction false} FromEntriesUnique<K, V>(entries: seq<(K, V)>)
    ensures UniqueKeys(FromEntries(entries))
  {
    if entries != [] {
      var n := |entries| - 1;
      FromEntriesUnique(entries[..n]);
      SetThenGet(FromEntries(entries[..n]), entries[n].0, entries[n].1, entries[n].0);
    }
  }

  /** The value of the last entry with key `k`, if any. */
  function LastValue<K(==), V>(entries: seq<(K, V)>, k: K): Option<V>
  {
    if entries == [] then None
    else
      var n := |entries| - 1;
      if entries[n].0 == k then Some(entries[n].1) else LastValue(entries[..n], k)
  }

  /** There is no last entry for `k` exactly when no entry has key `k`. */
  lemma {:induction false} LastValueNone<K, V>(entries: seq<(K, V)>, k: K)
    ensures LastValue(entries, k).None? <==> forall i :: 0 <= i < |entries| ==> entries[i].0 != k
  {
    if entries != [] {
      var n := |entries| - 1;
      var front := entries[..n];
      LastValueNone(front, k);
      assert forall i :: 0 <= i < n ==> front[i] == entries[i];
    }
  }

  /** The last entry for `k` is an entry with key `k` that no later entry overrides. */
  lemma {:induction false} LastValueSome<K, V>(entries: seq<(K, V)>, k: K)
    requires LastValue(entries, k).Some?
    ensures exists i :: 0 <= i < |entries| && entries[i] == (k, LastValue(entries, k).value)
                        && forall j :: i < j < |entries| ==> entries[j].0 != k
  {
    var n := |entries| - 1;
    if entries[n].0 != k {
      var front := entries[..n];
      LastValueSome(front, k);
      var i :| 0 <= i < n && front[i] == (k, LastValue(front, k).value)
               && forall j :: i < j < n ==> front[j].0 != k;
      assert entries[i] == front[i];
      forall j | i < j < |entries|
        ensures entries[j].0 != k
      {
        if j < n {
          assert entries[j] == front[j];
        }
      }
    }
  }

  /** Reading the filled dict gives the value of the last entry with that key. */
  lemma {:induction false} FromEntriesGet<K, V>(entries: seq<(K, V)>, k: K)
    ensures Get(FromEntries(entries), k) == LastValue(entries, k)
  {
    if entries != [] {
      var n := |entries| - 1;
      FromEntriesGet(entries[..n], k);
      FromEntriesUnique(entries[..n]);
      SetThenGet(FromEntries(entries[..n]), entries[n].0, entries[n].1, k);
    }
  }
}
