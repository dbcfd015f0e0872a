/** A stable sort by a descending integer key, the behaviour of
    `Array.prototype.sort((a, b) => key(b) - key(a))`. */
module Sorting {

  predicate Descending<T>(s: seq<T>, key: T -> int) {
    forall i, j :: 0 <= i < j < |s| ==> key(s[i]) >= key(s[j])
  }

  /** `x` placed before the first element whose key is not larger. */
  function InsertDesc<T>(x: T, ys: seq<T>, key: T -> int): (r: seq<T>)
    ensures multiset(r) == multiset(ys) + multiset{x}
    ensures |r| == |ys| + 1
  {
    if ys == [] || key(ys[0]) <= key(x) then [x] + ys
    else
      assert ys == [ys[0]] + ys[1..];
      [ys[0]] + InsertDesc(x, ys[1..], key)
  }

  function SortDesc<T>(s: seq<T>, key: T -> int): (r: seq<T>)
    ensures multiset(r) == multiset(s)
    ensures |r| == |s|
  {
    if s == [] then []
    else
      assert s == [s[0]] + s[1..];
      InsertDesc(s[0], SortDesc(s[1..], key), key)
  }

  /** The elements of `s` whose key is `n`, in order. */
  function WithKey<T>(s: seq<T>, key: T -> int, n: int): seq<T> {
    if s == [] then []
    else (if key(s[0]) == n then [s[0]] else []) + WithKey(s[1..], key, n)
  }

  lemma {:induction false} InsertDescSorted<T>(x: T, ys: seq<T>, key: T -> int)
    requires Descending(ys, key)
    ensures Descending(InsertDesc(x, ys, key), key)
  {
    if ys != [] && key(ys[0]) > key(x) {
      InsertDescSorted(x, ys[1..], key);
      var tail := InsertDesc(x, ys[1..], key);
      forall j | 0 <= j < |tail| ensures key(ys[0]) >= key(tail[j]) {
        assert tail[j] in multiset(tail);
        if tail[j] != x {
          assert tail[j] in multiset(ys[1..]);
          var k :| 0 <= k < |ys[1..]| && ys[1..][k] == tail[j];
          assert ys[k + 1] == tail[j];
        }
      }
    }
  }

  lemma {:induction false} InsertDescWithKey<T>(x: T, ys: seq<T>, key: T -> int, n: int)
    ensures WithKey(InsertDesc(x, ys, key), key, n) == (if key(x) == n then [x] else []) + WithKey(ys, key, n)
  {
    var front := if key(x) == n then [x] else [];
    if ys == [] || key(ys[0]) <= key(x) {
      var r := [x] + ys;
      assert r[0] == x && r[1..] == ys;
      assert WithKey(r, key, n) == front + WithKey(ys, key, n);
    } else {
      var tail := InsertDesc(x, ys[1..], key);
      InsertDescWithKey(x, ys[1..], key, n);
      var r := [ys[0]] + tail;
      assert r[0] == ys[0] && r[1..] == tail;
      var head := if key(ys[0]) == n then [ys[0]] else [];
      assert WithKey(r, key, n) == head + WithKey(tail, key, n);
      assert WithKey(ys, key, n) == head + WithKey(ys[1..], key, n);
      assert head == [] || front == [];
      assert WithKey(r, key, n) == head + (front + WithKey(ys[1..], key, n));
    }
  }

  /** The result is in descending key order and keeps the original order among
      elements with equal keys. */
  lemma {:induction false} SortDescSortedStable<T>(s: seq<T>, key: T -> int)
    ensures Descending(SortDesc(s, key), key)
    ensures forall n :: WithKey(SortDesc(s, key), key, n) == WithKey(s, key, n)
  {
    if s != [] {
      SortDescSortedStable(s[1..], key);
      InsertDescSorted(s[0], SortDesc(s[1..], key), key);
      forall n ensures WithKey(SortDesc(s, key), key, n) == WithKey(s, key, n) {
        InsertDescWithKey(s[0], SortDesc(s[1..], key), key, n);
      }
    }
  }
}
