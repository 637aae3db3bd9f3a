// The review screen (ui/screens/review/ReviewViewModel.kt): the list of memos
// due for review, loaded from the memo store at a given instant, shortened as
// memos are marked reviewed.
module ReviewScreen {
  import opened MemoStore

  class ReviewViewModel {
    const repository: MemoDao
    var memosToReview: seq<Memo>
    var isLoading: bool

    ghost predicate Valid()
      reads this, repository
    {
      repository.Valid()
    }

    /** `init` runs `loadMemosToReview` at the instant `now`. */
    constructor(memoRepository: MemoDao, now: int)
      requires memoRepository.Valid()
      ensures repository == memoRepository && Valid()
      ensures memosToReview == MemosToReview(repository.rows, now) && !isLoading
    {
      repository := memoRepository;
      memosToReview := [];
      isLoading := true;
      new;
      LoadMemosToReview(now);
    }

    /** `loadMemosToReview`: the store's due memos, newest first. */
    method LoadMemosToReview(now: int)
      requires Valid()
      modifies this
      ensures Valid()
      ensures memosToReview == MemosToReview(repository.rows, now) && !isLoading
    {
      isLoading := true;
      var memos := MemosToReview(repository.rows, now);
      memosToReview := memos;
      isLoading := false;
    }

    /** `markAsReviewed`: the store marks the id, the list drops it. */
    method MarkAsReviewed(memoId: int)
      requires Valid()
      modifies this, repository
      ensures Valid()
      ensures repository.rows == Marked(old(repository.rows), memoId)
      ensures memosToReview == WithoutId(old(memosToReview), memoId)
      ensures isLoading == old(isLoading)
    {
      repository.MarkAsReviewed(memoId);
      memosToReview := WithoutId(memosToReview, memoId);
    }

    /** `markAllAsReviewed`: every listed memo is marked in the store in list
      * order, then the list is emptied. */
    method MarkAllAsReviewed()
      requires Valid()
      modifies this, repository
      ensures Valid()
      ensures repository.rows == MarkedAll(old(repository.rows), Ids(old(memosToReview)))
      ensures forall m, r :: m in old(memosToReview) && r in repository.rows && r.memoId == m.memoId ==> r.isReviewed
      ensures memosToReview == [] && isLoading == old(isLoading)
    {
      var listed := memosToReview;
      ghost var ids := Ids(listed);
      var i := 0;
      while i < |listed|
        invariant 0 <= i <= |listed|
        invariant repository.Valid()
        invariant repository.rows == MarkedAll(old(repository.rows), ids[..i])
        invariant memosToReview == listed && isLoading == old(isLoading)
      {
        repository.MarkAsReviewed(listed[i].memoId);
        MarkedAllSnoc(old(repository.rows), ids[..i], listed[i].memoId);
        assert ids[..i + 1] == ids[..i] + [listed[i].memoId];
        i := i + 1;
      }
      assert ids[..i] == ids;
      MarkedAllNotDue(old(repository.rows), ids, 0);
      forall m, r | m in listed && r in repository.rows && r.memoId == m.memoId
        ensures r.isReviewed
      {
        var k :| 0 <= k < |listed| && listed[k] == m;
        assert ids[k] == r.memoId;
      }
      memosToReview := [];
    }
  }
}
