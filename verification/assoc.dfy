/** Python dicts as association lists: the entries in insertion order. */
module Assoc {
  import opened Wrappers

  /** The index of `key`'s entry. */
  function Find<V>(entries: seq<(string, V)>, key: string): (r: Option<nat>)
    ensures r.Some? ==> r.value < |entries| && entries[r.value].0 == key
    ensures r.Some? ==> forall j :: 0 <= j < r.value ==> entries[j].0 != key
    ensures r.None? ==> forall j :: 0 <= j < |entries| ==> entries[j].0 != key
  {
    if |entries| == 0 then None
    else if entries[0].0 == key then Some(0)
    else
      match Find(entries[1..], key)
      case None => None
      case Some(i) => Some(i + 1)
  }

  /** Appending a new key leaves the other keys where they were. */
  lemma {:induction false} FindAppend<V>(entries: seq<(string, V)>, key: string, v: V, k: string)
    requires Find(entries, key).None?
    ensures k != key ==> Find(entries + [(key, v)], k) == Find(entries, k)
    ensures k == key ==> Find(entries + [(key, v)], k) == Some(|entries|)
  {
    if |entries| > 0 {
      assert (entries + [(key, v)])[1..] == entries[1..] + [(key, v)];
      FindAppend(entries[1..], key, v, k);
    }
  }

  /** Changing the value of an entry, not its key, moves no key. */
  lemma {:induction false} FindUpdate<V>(entries: seq<(string, V)>, i: nat, e: (string, V), k: string)
    requires i < |entries| && e.0 == entries[i].0
    ensures Find(entries[i := e], k) == Find(entries, k)
  {
    if i > 0 {
      assert entries[i := e][1..] == entries[1..][i - 1 := e];
      FindUpdate(entries[1..], i - 1, e, k);
    }
  }

  /** `d.get(key, default)`. */
  function Lookup<V>(entries: seq<(string, V)>, key: string, default: V): (r: V)
    ensures Find(entries, key).None? ==> r == default
    ensures Find(entries, key).Some? ==> r == entries[Find(entries, key).value].1
  {
    match Find(entries, key)
    case None => default
    case Some(i) => entries[i].1
  }

  function Keys<V>(entries: seq<(string, V)>): seq<string> {
    seq(|entries|, i requires 0 <= i < |entries| => entries[i].0)
  }

  /** A key is found exactly when it is one of the keys. */
  lemma FindKeys<V>(entries: seq<(string, V)>, key: string)
    ensures Find(entries, key).Some? <==> key in Keys(entries)
  {
    if key in Keys(entries) {
      var j :| 0 <= j < |entries| && Keys(entries)[j] == key;
      assert entries[j].0 == key;
    }
    match Find(entries, key)
    case None =>
    case Some(i) => assert Keys(entries)[i] == key;
  }
}
