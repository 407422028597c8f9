/** The sorts the harness calls (`Array.Sort` on the raw cycle numbers and
    `List.Sort` of the flip list by cycle), modelled as an insertion sort on an
    integer key.  Only order and permutation are promised, which is all the
    library sorts promise. */
module Sorting {

  /** `s` is in non-decreasing order of `key` (C#'s
      unsigned comparison once the key widens the `uint` to an integer). */
  ghost predicate SortedBy<T>(s: seq<T>, key: T -> int)
  {
    forall i, j :: 0 <= i < j < |s| ==> key(s[i]) <= key(s[j])
  }

  /** Inserts `x` into `s` in front of the first element whose key is not
      smaller. */
  function Insert<T>(x: T, s: seq<T>, key: T -> int): (r: seq<T>)
    ensures |r| == |s| + 1
  {
    if s == [] then [x]
    else if key(x) <= key(s[0]) then [x] + s
    else [s[0]] + Insert(x, s[1..], key)
  }

  lemma {:induction false} InsertSorted<T>(x: T, s: seq<T>, key: T -> int)
    requires SortedBy(s, key)
    ensures SortedBy(Insert(x, s, key), key)
    ensures Insert(x, s, key)[0] == x || (s != [] && Insert(x, s, key)[0] == s[0])
  {
    if s != [] && key(s[0]) < key(x) {
      SortedSuffix(s, 1, key);
      InsertSorted(x, s[1..], key);
      var rest := Insert(x, s[1..], key);
      var r := Insert(x, s, key);
      assert r == [s[0]] + rest;
      assert key(s[0]) <= key(rest[0]);
      forall i, j | 0 <= i < j < |r| ensures key(r[i]) <= key(r[j]) {
        if i == 0 {
          if j > 1 { assert key(rest[0]) <= key(rest[j - 1]); }
        } else {
          assert key(rest[i - 1]) <= key(rest[j - 1]);
        }
      }
    }
  }

  lemma {:induction false} InsertPermutes<T>(x: T, s: seq<T>, key: T -> int)
    ensures multiset(Insert(x, s, key)) == multiset(s) + multiset{x}
  {
    if s != [] && key(s[0]) < key(x) {
      InsertPermutes(x, s[1..], key);
      assert s == [s[0]] + s[1..];
    }
  }

  /** A sorted permutation of `s`. */
  function InsertionSort<T>(s: seq<T>, key: T -> int): (r: seq<T>)
    ensures SortedBy(r, key)
    ensures multiset(r) == multiset(s)
    ensures |r| == |s|
  {
    if s == [] then []
    else
      assert s == [s[0]] + s[1..];
      var rest := InsertionSort(s[1..], key);
      InsertSorted(s[0], rest, key);
      InsertPermutes(s[0], rest, key);
      Insert(s[0], rest, key)
  }

  /** A suffix of a sorted sequence is sorted. */
  lemma SortedSuffix<T>(s: seq<T>, k: nat, key: T -> int)
    requires SortedBy(s, key) && k <= |s|
    ensures SortedBy(s[k..], key)
  {
    forall i, j | 0 <= i < j < |s[k..]| ensures key(s[k..][i]) <= key(s[k..][j]) {
      assert s[k..][i] == s[k + i] && s[k..][j] == s[k + j];
    }
  }
}
