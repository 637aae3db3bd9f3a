// The memo table (data/local/entity/Memo.kt, data/local/dao/MemoDao.kt,
// data/repository/MemoRepository.kt): rows in the order they were stored,
// each query as a function of the rows, each statement as a method of the
// store. The repository only forwards to the DAO, so both are this one class.
module MemoStore {
  import opened Wrappers
  import Ordering

  datatype Memo = Memo(
    memoId: int,
    content: string,
    voiceTranscription: Option<string>,
    relatedScenarioTitle: Option<string>,
    createdAt: int,
    nextReviewAt: int,
    isReviewed: bool)

  function CreatedAt(m: Memo): int { m.createdAt }

  /** `nextReviewAt <= :now AND isReviewed = 0`. */
  predicate Due(m: Memo, now: int) {
    m.nextReviewAt <= now && !m.isReviewed
  }

  /** The rows passing the review filter, in stored order. */
  function DueRows(rows: seq<Memo>, now: int): (r: seq<Memo>)
    ensures |r| <= |rows|
    ensures forall m :: m in r <==> m in rows && Due(m, now)
    decreases |rows|
  {
    if rows == [] then []
    else (if Due(rows[0], now) then [rows[0]] else []) + DueRows(rows[1..], now)
  }

  /** `getAllMemos`: `SELECT * FROM memos ORDER BY createdAt DESC`. */
  function AllMemos(rows: seq<Memo>): (r: seq<Memo>)
    ensures multiset(r) == multiset(rows)
  {
    Ordering.SortDesc(rows, CreatedAt)
  }

  /** `getMemosToReview(now)`: the due rows, newest first. */
  function MemosToReview(rows: seq<Memo>, now: int): (r: seq<Memo>)
    ensures multiset(r) == multiset(DueRows(rows, now))
  {
    Ordering.SortDesc(DueRows(rows, now), CreatedAt)
  }

  /** `UPDATE memos SET isReviewed = 1 WHERE memoId = :memoId`. */
  function Marked(rows: seq<Memo>, memoId: int): (r: seq<Memo>)
    ensures |r| == |rows|
    ensures forall k :: 0 <= k < |r| ==>
      r[k] == if rows[k].memoId == memoId then rows[k].(isReviewed := true) else rows[k]
  {
    seq(|rows|, k requires 0 <= k < |rows| =>
      if rows[k].memoId == memoId then rows[k].(isReviewed := true) else rows[k])
  }

  /** The rows without the ones carrying `memoId`, in order
    * (`DELETE FROM memos WHERE memoId = :memoId`, and the view-model's
    * `filter { it.memoId != memoId }`). */
  function WithoutId(rows: seq<Memo>, memoId: int): (r: seq<Memo>)
    ensures |r| <= |rows|
    ensures forall m :: m in r <==> m in rows && m.memoId != memoId
    decreases |rows|
  {
    if rows == [] then []
    else (if rows[0].memoId != memoId then [rows[0]] else []) + WithoutId(rows[1..], memoId)
  }

  /** The ids of a list of memos, in order. */
  function Ids(ms: seq<Memo>): (r: seq<int>)
    ensures |r| == |ms|
    ensures forall k :: 0 <= k < |ms| ==> r[k] == ms[k].memoId
  {
    seq(|ms|, k requires 0 <= k < |ms| => ms[k].memoId)
  }

  /** The rows after marking each id of the list in turn. */
  function MarkedAll(rows: seq<Memo>, ids: seq<int>): (r: seq<Memo>)
    ensures |r| == |rows|
    decreases |ids|
  {
    if ids == [] then rows else MarkedAll(Marked(rows, ids[0]), ids[1..])
  }

  /** Memo ids are the primary key: no two rows share one. */
  ghost predicate KeysUnique(rows: seq<Memo>) {
    forall i, j :: 0 <= i < j < |rows| ==> rows[i].memoId != rows[j].memoId
  }

  /** `count { !it.isReviewed && it.nextReviewAt <= now }`. */
  function CountDue(ms: seq<Memo>, now: int): (n: nat)
    ensures n <= |ms|
    decreases |ms|
  {
    if ms == [] then 0 else (if Due(ms[0], now) then 1 else 0) + CountDue(ms[1..], now)
  }

  // ---------------------------------------------------------------------------
  // Properties

  /** The review query returns exactly the due rows, newest first. */
  lemma ReviewListing(rows: seq<Memo>, now: int)
    ensures Ordering.NonIncreasing(MemosToReview(rows, now), CreatedAt)
    ensures forall m :: m in MemosToReview(rows, now) <==> m in rows && Due(m, now)
    ensures |MemosToReview(rows, now)| == |DueRows(rows, now)|
  {
    Ordering.SortIsOrdered(DueRows(rows, now), CreatedAt);
    var r := MemosToReview(rows, now);
    forall m ensures m in r <==> m in DueRows(rows, now) {
      assert m in r <==> m in multiset(r);
      assert m in DueRows(rows, now) <==> m in multiset(DueRows(rows, now));
    }
    assert |r| == |multiset(r)|;
  }

  /** Once a memo id is marked, no row with that id is due; the rows with
    * other ids are untouched. */
  lemma MarkedNotDue(rows: seq<Memo>, memoId: int, now: int)
    ensures forall m :: m in MemosToReview(Marked(rows, memoId), now) ==> m.memoId != memoId
    ensures forall m :: m in rows && m.memoId != memoId ==> m in Marked(rows, memoId)
  {
    var r := Marked(rows, memoId);
    ReviewListing(r, now);
    forall m | m in rows && m.memoId != memoId ensures m in r {
      var k :| 0 <= k < |rows| && rows[k] == m;
      assert r[k] == m;
    }
  }

  /** Marking every id of a list leaves none of them due: each row with one
    * of those ids is reviewed, so the review filter at any instant `now`
    * passes none of them. */
  lemma {:induction false} MarkedAllNotDue(rows: seq<Memo>, ids: seq<int>, now: int)
    ensures forall k, m :: 0 <= k < |ids| && m in MarkedAll(rows, ids) && m.memoId == ids[k] ==> m.isReviewed
    ensures forall k, m :: 0 <= k < |ids| && m in DueRows(MarkedAll(rows, ids), now) ==> m.memoId != ids[k]
    decreases |ids|
  {
    if ids != [] {
      var r := Marked(rows, ids[0]);
      MarkedAllNotDue(r, ids[1..], now);
      MarkedStaysMarked(r, ids[1..], ids[0]);
      forall k, m | 0 <= k < |ids| && m in MarkedAll(rows, ids) && m.memoId == ids[k]
        ensures m.isReviewed
      {
        if k > 0 {
          assert ids[1..][k - 1] == ids[k];
        }
      }
    }
  }

  /** Later marks never clear a mark already made. */
  lemma {:induction false} MarkedStaysMarked(rows: seq<Memo>, ids: seq<int>, memoId: int)
    requires forall m :: m in rows && m.memoId == memoId ==> m.isReviewed
    ensures forall m :: m in MarkedAll(rows, ids) && m.memoId == memoId ==> m.isReviewed
    decreases |ids|
  {
    if ids != [] {
      var r := Marked(rows, ids[0]);
      forall m | m in r && m.memoId == memoId ensures m.isReviewed {
        var k :| 0 <= k < |r| && r[k] == m;
        assert rows[k].memoId == memoId;
      }
      MarkedStaysMarked(r, ids[1..], memoId);
    }
  }

  /** The filter keeps the order of the rows it keeps. */
  lemma {:induction false} WithoutIdKeepsOrder(a: seq<Memo>, b: seq<Memo>, memoId: int)
    ensures WithoutId(a + b, memoId) == WithoutId(a, memoId) + WithoutId(b, memoId)
    decreases |a|
  {
    if a == [] {
      assert a + b == b;
    } else {
      assert (a + b)[0] == a[0];
      assert (a + b)[1..] == a[1..] + b;
      WithoutIdKeepsOrder(a[1..], b, memoId);
    }
  }

  /** A list without the id is left as it is. */
  lemma {:induction false} WithoutAbsentId(rows: seq<Memo>, memoId: int)
    requires forall k :: 0 <= k < |rows| ==> rows[k].memoId != memoId
    ensures WithoutId(rows, memoId) == rows
    decreases |rows|
  {
    if rows != [] {
      WithoutAbsentId(rows[1..], memoId);
      assert rows == [rows[0]] + rows[1..];
    }
  }

  /** Marking one more id after a run of marks. */
  lemma {:induction false} MarkedAllSnoc(rows: seq<Memo>, ids: seq<int>, memoId: int)
    ensures MarkedAll(rows, ids + [memoId]) == Marked(MarkedAll(rows, ids), memoId)
    decreases |ids|
  {
    if ids == [] {
      assert ids + [memoId] == [memoId];
      assert [memoId][1..] == [];
    } else {
      assert (ids + [memoId])[0] == ids[0];
      assert (ids + [memoId])[1..] == ids[1..] + [memoId];
      MarkedAllSnoc(Marked(rows, ids[0]), ids[1..], memoId);
    }
  }

  /** Counting distributes over concatenation. */
  lemma {:induction false} CountDueSplit(s: seq<Memo>, t: seq<Memo>, now: int)
    ensures CountDue(s + t, now) == CountDue(s, now) + CountDue(t, now)
    decreases |s|
  {
    if s == [] {
      assert s + t == t;
    } else {
      assert (s + t)[0] == s[0];
      assert (s + t)[1..] == s[1..] + t;
      CountDueSplit(s[1..], t, now);
    }
  }

  /** Taking one memo out of a list. */
  lemma RemoveOne(t: seq<Memo>, k: nat, now: int)
    requires k < |t|
    ensures multiset(t) == multiset(t[..k] + t[k + 1..]) + multiset{t[k]}
    ensures CountDue(t, now) == (if Due(t[k], now) then 1 else 0) + CountDue(t[..k] + t[k + 1..], now)
  {
    var before, after := t[..k], t[k + 1..];
    assert t == before + ([t[k]] + after);
    CountDueSplit(before, [t[k]] + after, now);
    assert ([t[k]] + after)[1..] == after;
    CountDueSplit(before, after, now);
  }

  /** Counting the due memos does not depend on the order of the list. */
  lemma {:induction false} CountDuePermutation(s: seq<Memo>, t: seq<Memo>, now: int)
    requires multiset(s) == multiset(t)
    ensures CountDue(s, now) == CountDue(t, now)
    decreases |s|
  {
    if s == [] {
      assert |t| == |multiset(t)| == 0;
    } else {
      assert s[0] in multiset(t);
      var k :| 0 <= k < |t| && t[k] == s[0];
      RemoveOne(t, k, now);
      var rest := t[..k] + t[k + 1..];
      assert s == [s[0]] + s[1..];
      assert multiset(s) == multiset(s[1..]) + multiset{s[0]};
      assert multiset(s[1..]) == multiset(s) - multiset{s[0]};
      assert multiset(rest) == multiset(t) - multiset{s[0]};
      CountDuePermutation(s[1..], rest, now);
    }
  }

  /** The number of due rows is the length of the filter. */
  lemma {:induction false} CountIsFilter(rows: seq<Memo>, now: int)
    ensures CountDue(rows, now) == |DueRows(rows, now)|
    decreases |rows|
  {
    if rows != [] {
      CountIsFilter(rows[1..], now);
    }
  }

  // ---------------------------------------------------------------------------
  // The store

  class MemoDao {
    var rows: seq<Memo>
    /** The largest id handed out so far (the AUTOINCREMENT sequence). */
    var lastId: int

    ghost predicate Valid()
      reads this
    {
      KeysUnique(rows) && forall k :: 0 <= k < |rows| ==> rows[k].memoId <= lastId
    }

    constructor()
      ensures Valid() && rows == [] && lastId == 0
    {
      rows := [];
      lastId := 0;
    }

    /** `insertMemo` with `OnConflictStrategy.REPLACE`: id 0 asks for a new id
      * above every id handed out so far; any other id replaces the row
      * holding it. */
    method InsertMemo(memo: Memo) returns (id: int)
      requires Valid()
      modifies this
      ensures Valid()
      ensures memo.memoId == 0 ==> id == old(lastId) + 1 && lastId == id
      ensures memo.memoId != 0 ==> id == memo.memoId
      ensures rows == WithoutId(old(rows), id) + [memo.(memoId := id)]
      ensures forall k :: 0 <= k < |old(rows)| ==> old(rows)[k].memoId < id || memo.memoId != 0
    {
      if memo.memoId == 0 {
        id := lastId + 1;
        lastId := id;
      } else {
        id := memo.memoId;
        if lastId < id {
          lastId := id;
        }
      }
      var kept := WithoutId(rows, id);
      WithoutIdKeepsKeys(rows, id);
      rows := kept + [memo.(memoId := id)];
      forall i, j | 0 <= i < j < |rows| ensures rows[i].memoId != rows[j].memoId {
        if j == |kept| {
          assert rows[i] in kept;
        }
      }
    }

    method MarkAsReviewed(memoId: int)
      requires Valid()
      modifies this
      ensures Valid()
      ensures rows == Marked(old(rows), memoId) && lastId == old(lastId)
    {
      rows := Marked(rows, memoId);
    }

    method DeleteMemo(memoId: int)
      requires Valid()
      modifies this
      ensures Valid()
      ensures rows == WithoutId(old(rows), memoId) && lastId == old(lastId)
    {
      WithoutIdKeepsKeys(rows, memoId);
      rows := WithoutId(rows, memoId);
    }
  }

  /** Deleting rows keeps the keys unique and bounded. */
  lemma {:induction false} WithoutIdKeepsKeys(rows: seq<Memo>, memoId: int)
    ensures forall m :: m in WithoutId(rows, memoId) ==> m in rows
    ensures KeysUnique(rows) ==> KeysUnique(WithoutId(rows, memoId))
    decreases |rows|
  {
    if rows != [] {
      WithoutIdKeepsKeys(rows[1..], memoId);
      var rest := WithoutId(rows[1..], memoId);
      if KeysUnique(rows) {
        assert KeysUnique(rows[1..]) by {
          forall i, j | 0 <= i < j < |rows[1..]| ensures rows[1..][i].memoId != rows[1..][j].memoId {
            assert rows[1..][i] == rows[i + 1] && rows[1..][j] == rows[j + 1];
          }
        }
        if rows[0].memoId != memoId {
          var r := [rows[0]] + rest;
          forall i, j | 0 <= i < j < |r| ensures r[i].memoId != r[j].memoId {
            assert r[j] in rest;
            var q :| 0 <= q < |rows[1..]| && rows[1..][q] == r[j];
            assert rows[q + 1] == r[j];
            if i > 0 {
              assert r[i] == rest[i - 1];
            }
          }
        }
      }
    }
  }
}
