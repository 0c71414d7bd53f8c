/**
 * `Array.prototype.sort` with a comparator `(a, b) => key(b) - key(a)`:
 * a stable sort into non-increasing key order.
 */
module Sorting {
  import Seqs

  ghost predicate SortedDesc<T>(s: seq<T>, key: T -> real) {
    forall i, j :: 0 <= i < j < |s| ==> key(s[i]) >= key(s[j])
  }

  /** Where `Insert` puts `x`: before the first element whose key is not greater than its own. */
  function InsertPosition<T>(x: T, s: seq<T>, key: T -> real): (k: nat)
    requires SortedDesc(s, key)
    ensures k <= |s|
    ensures forall j :: 0 <= j < k ==> key(s[j]) > key(x)
    ensures forall j :: k <= j < |s| ==> key(s[j]) <= key(x)
  {
    var k := Seqs.FindIndex(s, y => key(y) <= key(x));
    if k < 0 then |s| else k
  }

  /** One step of the stable sort: `x` enters the sorted `s` ahead of every equal key. */
  function Insert<T>(x: T, s: seq<T>, key: T -> real): (r: seq<T>)
    requires SortedDesc(s, key)
    ensures |r| == |s| + 1
    ensures SortedDesc(r, key)
    ensures multiset(r) == multiset(s) + multiset{x}
  {
    var k := InsertPosition(x, s, key);
    assert s == s[..k] + s[k..];
    s[..k] + [x] + s[k..]
  }

  function SortDesc<T>(s: seq<T>, key: T -> real): (r: seq<T>)
    ensures |r| == |s|
    ensures SortedDesc(r, key)
    ensures multiset(r) == multiset(s)
  {
    if |s| == 0 then []
    else
      assert s == [s[0]] + s[1..];
      Insert(s[0], SortDesc(s[1..], key), key)
  }

  /** A list already in non-increasing key order comes out of the sort as it went in. */
  lemma {:induction false} SortDescOfSorted<T>(s: seq<T>, key: T -> real)
    requires SortedDesc(s, key)
    ensures SortDesc(s, key) == s
  {
    if |s| > 0 {
      SortDescOfSorted(s[1..], key);
      assert InsertPosition(s[0], s[1..], key) == 0;
    }
  }

  /** In a list sorted by descending key, every element of a prefix outranks every element outside it. */
  lemma PrefixOutranks<T>(s: seq<T>, k: int, key: T -> real)
    requires SortedDesc(s, key) && 0 <= k <= |s|
    ensures forall x, y :: x in s[..k] && y in s && y !in s[..k] ==> key(y) <= key(x)
  {
    forall x, y | x in s[..k] && y in s && y !in s[..k] ensures key(y) <= key(x) {
      var a :| 0 <= a < k && s[a] == x;
      var b :| 0 <= b < |s| && s[b] == y;
      assert forall j :: 0 <= j < k ==> s[..k][j] == s[j];
    }
  }
}
