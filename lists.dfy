// The Kotlin collection operations the app chains over lists (`take`,
// `filter`, `distinct`, `distinctBy`), with the facts about them the screens
// rely on: what they keep, in which order, and how many.
module Lists {

  /** `take(n)`: the first n elements, or all of them. */
  function Take<T>(s: seq<T>, n: nat): (r: seq<T>)
    ensures |r| == if |s| < n then |s| else n
    ensures forall i :: 0 <= i < |r| ==> r[i] == s[i]
  {
    if |s| < n then s else s[..n]
  }

  /** `filter(p)`: the elements satisfying p, in order. */
  function Filter<T>(s: seq<T>, p: T -> bool): (r: seq<T>)
    ensures |r| <= |s|
    decreases |s|
  {
    if s == [] then []
    else (if p(s[0]) then [s[0]] else []) + Filter(s[1..], p)
  }

  /** `distinctBy(key)` after the keys in `seen` were met: the first element
    * of each new key, in order. `distinct()` is the identity key. */
  function DistinctBy<T, K>(s: seq<T>, key: T -> K, seen: set<K>): (r: seq<T>)
    ensures |r| <= |s|
    ensures forall i :: 0 <= i < |r| ==> r[i] in s && key(r[i]) !in seen
    decreases |s|
  {
    if s == [] then []
    else if key(s[0]) in seen then DistinctBy(s[1..], key, seen)
    else [s[0]] + DistinctBy(s[1..], key, seen + {key(s[0])})
  }

  /** a is s with some elements left out, the rest in the same order. */
  predicate IsSubseq<T(==)>(a: seq<T>, s: seq<T>)
    decreases |s|
  {
    a == [] || (s != [] && ((a[0] == s[0] && IsSubseq(a[1..], s[1..])) || IsSubseq(a, s[1..])))
  }

  // ---------------------------------------------------------------------------
  // Properties

  /** `filter` keeps exactly the elements passing p. */
  lemma {:induction false} FilterMembers<T>(s: seq<T>, p: T -> bool)
    ensures forall i :: 0 <= i < |Filter(s, p)| ==> Filter(s, p)[i] in s && p(Filter(s, p)[i])
    ensures forall i :: 0 <= i < |s| && p(s[i]) ==> s[i] in Filter(s, p)
    decreases |s|
  {
    if s != [] {
      FilterMembers(s[1..], p);
      var r := Filter(s, p);
      var rest := Filter(s[1..], p);
      forall i | 0 <= i < |r| ensures r[i] in s && p(r[i]) {
        if p(s[0]) && i == 0 {
          assert r[0] == s[0];
        } else {
          var k := if p(s[0]) then i - 1 else i;
          assert r[i] == rest[k];
          assert rest[k] in s[1..];
        }
      }
      forall i | 0 <= i < |s| && p(s[i]) ensures s[i] in r {
        if i > 0 {
          assert s[i] == s[1..][i - 1];
          assert s[i] in rest;
        }
      }
    }
  }

  lemma {:induction false} TakeSubMultiset<T>(s: seq<T>, n: nat)
    ensures multiset(Take(s, n)) <= multiset(s)
  {
    if n <= |s| {
      assert s == s[..n] + s[n..];
    }
  }

  /** No two elements `distinctBy` keeps share a key. */
  lemma {:induction false} DistinctKeys<T, K>(s: seq<T>, key: T -> K, seen: set<K>)
    ensures forall i, j :: 0 <= i < j < |DistinctBy(s, key, seen)| ==>
      key(DistinctBy(s, key, seen)[i]) != key(DistinctBy(s, key, seen)[j])
    decreases |s|
  {
    if s != [] {
      if key(s[0]) in seen {
        DistinctKeys(s[1..], key, seen);
        assert DistinctBy(s, key, seen) == DistinctBy(s[1..], key, seen);
      } else {
        var seen' := seen + {key(s[0])};
        DistinctKeys(s[1..], key, seen');
        var tail := DistinctBy(s[1..], key, seen');
        var r := [s[0]] + tail;
        assert DistinctBy(s, key, seen) == r;
        forall i, j | 0 <= i < j < |r| ensures key(r[i]) != key(r[j]) {
          assert r[j] == tail[j - 1];
          assert key(tail[j - 1]) !in seen';
          if i > 0 {
            assert r[i] == tail[i - 1];
            assert key(tail[i - 1]) != key(tail[j - 1]);
          } else {
            assert key(r[i]) in seen';
          }
        }
      }
    }
  }

  /** Every key of the input not met before is kept. */
  lemma {:induction false} DistinctCovers<T, K>(s: seq<T>, key: T -> K, seen: set<K>, i: nat)
    requires i < |s| && key(s[i]) !in seen
    ensures exists j :: 0 <= j < |DistinctBy(s, key, seen)| && key(DistinctBy(s, key, seen)[j]) == key(s[i])
    decreases |s|
  {
    var r := DistinctBy(s, key, seen);
    if key(s[0]) in seen {
      assert r == DistinctBy(s[1..], key, seen);
      assert s[i] == s[1..][i - 1];
      DistinctCovers(s[1..], key, seen, i - 1);
    } else if key(s[i]) == key(s[0]) {
      assert r[0] == s[0];
    } else {
      var seen' := seen + {key(s[0])};
      var tail := DistinctBy(s[1..], key, seen');
      assert r == [s[0]] + tail;
      assert s[i] == s[1..][i - 1];
      DistinctCovers(s[1..], key, seen', i - 1);
      var j :| 0 <= j < |tail| && key(tail[j]) == key(s[i]);
      assert r[j + 1] == tail[j];
    }
  }

  /** A sequence is a subsequence of itself and of anything it is the start of. */
  lemma {:induction false} PrefixIsSubseq<T>(a: seq<T>, s: seq<T>)
    requires |a| <= |s| && a == s[..|a|]
    ensures IsSubseq(a, s)
    decreases |s|
  {
    if a != [] {
      assert a[1..] == s[1..][..|a| - 1];
      PrefixIsSubseq(a[1..], s[1..]);
    }
  }

  lemma {:induction false} FilterIsSubseq<T>(s: seq<T>, p: T -> bool)
    ensures IsSubseq(Filter(s, p), s)
    decreases |s|
  {
    if s != [] {
      FilterIsSubseq(s[1..], p);
      var r := Filter(s, p);
      if p(s[0]) {
        assert r[0] == s[0] && r[1..] == Filter(s[1..], p);
      } else {
        assert r == Filter(s[1..], p);
        if r != [] {
          assert IsSubseq(r, s[1..]);
        }
      }
    }
  }

  lemma {:induction false} DistinctIsSubseq<T, K>(s: seq<T>, key: T -> K, seen: set<K>)
    ensures IsSubseq(DistinctBy(s, key, seen), s)
    decreases |s|
  {
    if s != [] {
      var r := DistinctBy(s, key, seen);
      if key(s[0]) in seen {
        DistinctIsSubseq(s[1..], key, seen);
        if r != [] {
          assert IsSubseq(r, s[1..]);
        }
      } else {
        DistinctIsSubseq(s[1..], key, seen + {key(s[0])});
        assert r[0] == s[0] && r[1..] == DistinctBy(s[1..], key, seen + {key(s[0])});
      }
    }
  }

  /** Keeping an order-preserving selection of an order-preserving selection
    * is one order-preserving selection. */
  lemma {:induction false} SubseqTrans<T>(a: seq<T>, b: seq<T>, c: seq<T>)
    requires IsSubseq(a, b) && IsSubseq(b, c)
    ensures IsSubseq(a, c)
    decreases |c|
  {
    if a != [] {
      if IsSubseq(b, c[1..]) {
        SubseqTrans(a, b, c[1..]);
      } else if a[0] == b[0] && IsSubseq(a[1..], b[1..]) {
        SubseqTrans(a[1..], b[1..], c[1..]);
      } else {
        SubseqTrans(a, b[1..], c[1..]);
      }
    }
  }

  /** Everything in a subsequence is in the sequence. */
  lemma {:induction false} SubseqMembers<T>(a: seq<T>, s: seq<T>)
    requires IsSubseq(a, s)
    ensures forall x :: x in a ==> x in s
    decreases |s|
  {
    if a != [] {
      if a[0] == s[0] && IsSubseq(a[1..], s[1..]) {
        SubseqMembers(a[1..], s[1..]);
        forall x | x in a ensures x in s {
          if x != a[0] {
            assert x in a[1..];
          }
        }
      } else {
        SubseqMembers(a, s[1..]);
      }
    }
  }

  /** `distinctBy(key).take(n)`: at most n elements of s, no two with the
    * same key. */
  lemma DistinctTakeShape<T, K>(s: seq<T>, key: T -> K, n: nat)
    ensures |Take(DistinctBy(s, key, {}), n)| <= n
    ensures forall i, j :: 0 <= i < j < |Take(DistinctBy(s, key, {}), n)| ==>
      key(Take(DistinctBy(s, key, {}), n)[i]) != key(Take(DistinctBy(s, key, {}), n)[j])
    ensures forall i :: 0 <= i < |Take(DistinctBy(s, key, {}), n)| ==>
      Take(DistinctBy(s, key, {}), n)[i] in s
  {
    var d := DistinctBy(s, key, {});
    var r := Take(d, n);
    DistinctKeys(s, key, {});
    forall i, j | 0 <= i < j < |r| ensures key(r[i]) != key(r[j]) {
      assert r[i] == d[i] && r[j] == d[j];
    }
    forall i | 0 <= i < |r| ensures r[i] in s {
      assert r[i] == d[i];
    }
  }

  /** `filter(p).distinctBy(key).take(n)` keeps the order of s. */
  lemma SelectInOrder<T, K>(s: seq<T>, p: T -> bool, key: T -> K, n: nat)
    ensures IsSubseq(Take(DistinctBy(Filter(s, p), key, {}), n), s)
  {
    var kept := Filter(s, p);
    var d := DistinctBy(kept, key, {});
    var r := Take(d, n);
    FilterIsSubseq(s, p);
    DistinctIsSubseq(kept, key, {});
    PrefixIsSubseq(r, d);
    SubseqTrans(d, kept, s);
    SubseqTrans(r, d, s);
  }

  /** While fewer than n come back, the key of every element passing p is
    * among them: only the limit drops anything. */
  lemma SelectComplete<T, K>(s: seq<T>, p: T -> bool, key: T -> K, n: nat, q: nat)
    requires q < |s| && p(s[q])
    requires |Take(DistinctBy(Filter(s, p), key, {}), n)| < n
    ensures exists j ::
      0 <= j < |Take(DistinctBy(Filter(s, p), key, {}), n)| &&
      key(Take(DistinctBy(Filter(s, p), key, {}), n)[j]) == key(s[q])
  {
    var kept := Filter(s, p);
    var d := DistinctBy(kept, key, {});
    assert Take(d, n) == d;
    FilterMembers(s, p);
    assert s[q] in kept;
    var x :| 0 <= x < |kept| && kept[x] == s[q];
    DistinctCovers(kept, key, {}, x);
  }
}
