// The `ORDER BY <column> DESC` of the app's Room queries, as a stable
// insertion sort on an integer key: rows with equal keys keep the order in
// which they were stored (SQLite leaves that order open; the model fixes it).
module Ordering {

  /** Newest first: the key never increases along the sequence. */
  predicate NonIncreasing<T>(s: seq<T>, key: T -> int) {
    forall i, j :: 0 <= i < j < |s| ==> key(s[i]) >= key(s[j])
  }

  /** `x` placed before the first element whose key is not larger. */
  function InsertDesc<T>(x: T, s: seq<T>, key: T -> int): (r: seq<T>)
    ensures multiset(r) == multiset(s) + multiset{x}
    ensures |r| == |s| + 1
    decreases |s|
  {
    if s == [] || key(x) >= key(s[0]) then [x] + s
    else
      var rest := InsertDesc(x, s[1..], key);
      assert s == [s[0]] + s[1..];
      [s[0]] + rest
  }

  /** The rows of `s` ordered by descending key. */
  function SortDesc<T>(s: seq<T>, key: T -> int): (r: seq<T>)
    ensures multiset(r) == multiset(s)
    ensures |r| == |s|
    decreases |s|
  {
    if s == [] then []
    else
      var rest := SortDesc(s[1..], key);
      assert s == [s[0]] + s[1..];
      InsertDesc(s[0], rest, key)
  }

  /** v bounds every key in s. */
  predicate AtLeast<T>(v: int, s: seq<T>, key: T -> int) {
    forall k :: 0 <= k < |s| ==> v >= key(s[k])
  }

  lemma {:induction false} InsertBounded<T>(v: int, x: T, s: seq<T>, key: T -> int)
    requires AtLeast(v, s, key) && v >= key(x)
    ensures AtLeast(v, InsertDesc(x, s, key), key)
    decreases |s|
  {
    if s != [] && key(x) < key(s[0]) {
      InsertBounded(v, x, s[1..], key);
      var rest := InsertDesc(x, s[1..], key);
      assert InsertDesc(x, s, key) == [s[0]] + rest;
    }
  }

  /** A sorted sequence stays sorted behind a first element bounding it. */
  lemma ConsOrdered<T>(y: T, t: seq<T>, key: T -> int)
    requires AtLeast(key(y), t, key) && NonIncreasing(t, key)
    ensures NonIncreasing([y] + t, key)
  {
    var r := [y] + t;
    forall i, j | 0 <= i < j < |r|
      ensures key(r[i]) >= key(r[j])
    {
      assert r[j] == t[j - 1];
      if i > 0 {
        assert r[i] == t[i - 1];
      }
    }
  }

  /** Inserting into a sorted sequence keeps it sorted. */
  lemma {:induction false} InsertKeepsOrder<T>(x: T, s: seq<T>, key: T -> int)
    requires NonIncreasing(s, key)
    ensures NonIncreasing(InsertDesc(x, s, key), key)
    decreases |s|
  {
    if s == [] || key(x) >= key(s[0]) {
      assert AtLeast(key(x), s, key) by {
        forall k | 0 <= k < |s| ensures key(x) >= key(s[k]) {
          assert key(s[0]) >= key(s[k]);
        }
      }
      ConsOrdered(x, s, key);
    } else {
      var t := s[1..];
      assert NonIncreasing(t, key) by {
        forall i, j | 0 <= i < j < |t| ensures key(t[i]) >= key(t[j]) {
          assert t[i] == s[i + 1] && t[j] == s[j + 1];
        }
      }
      assert AtLeast(key(s[0]), t, key) by {
        forall k | 0 <= k < |t| ensures key(s[0]) >= key(t[k]) {
          assert t[k] == s[k + 1];
        }
      }
      InsertKeepsOrder(x, t, key);
      InsertBounded(key(s[0]), x, t, key);
      ConsOrdered(s[0], InsertDesc(x, t, key), key);
    }
  }

  /** The sort returns its input newest first. */
  lemma {:induction false} SortIsOrdered<T>(s: seq<T>, key: T -> int)
    ensures NonIncreasing(SortDesc(s, key), key)
    ensures multiset(SortDesc(s, key)) == multiset(s)
    decreases |s|
  {
    if s != [] {
      SortIsOrdered(s[1..], key);
      InsertKeepsOrder(s[0], SortDesc(s[1..], key), key);
    }
  }
}
