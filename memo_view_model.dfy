// The memo screen (ui/screens/memo/MemoViewModel.kt): saving a memo due for
// review the next morning, and the number of memos due. The clock readings
// (the current instant and the instant of 9:00 the next day in the device's
// time zone) are parameters.
module MemoScreen {
  import opened Wrappers
  import opened Text
  import opened MemoStore

  /** `getUnreviewedCount` over the store's rows, newest first as
    * `getAllMemos` lists them: the same number the review screen lists. */
  function UnreviewedCount(rows: seq<Memo>, now: int): (n: nat)
    ensures n == |MemosToReview(rows, now)|
  {
    CountDuePermutation(AllMemos(rows), rows, now);
    CountIsFilter(rows, now);
    ReviewListing(rows, now);
    CountDue(AllMemos(rows), now)
  }

  /** The memo `saveMemo` stores, before the store gives it an id. */
  function NewMemo(content: string, scenarioTitle: Option<string>, now: int, tomorrow9am: int): Memo {
    Memo(0, content, None, scenarioTitle, now, tomorrow9am, false)
  }

  /** A saved memo is due exactly from the next morning on, until it is
    * marked reviewed. */
  lemma SavedMemoDueFrom(rows: seq<Memo>, m: Memo, t: int)
    requires m in rows && !m.isReviewed
    ensures m in MemosToReview(rows, t) <==> m.nextReviewAt <= t
  {
    ReviewListing(rows, t);
  }

  class MemoViewModel {
    const repository: MemoDao
    var saveSuccess: bool

    ghost predicate Valid()
      reads this, repository
    {
      repository.Valid()
    }

    constructor(memoRepository: MemoDao)
      requires memoRepository.Valid()
      ensures Valid()
      ensures repository == memoRepository && !saveSuccess
    {
      repository := memoRepository;
      saveSuccess := false;
    }

    /** `saveMemo`: blank content is ignored; otherwise a new, unreviewed
      * memo created now and due the next morning is appended to the store
      * under a fresh id, and the save is reported. */
    method SaveMemo(content: string, scenarioTitle: Option<string>, now: int, tomorrow9am: int)
      requires Valid()
      modifies this, repository
      ensures Valid()
      ensures IsBlank(content) ==>
        repository.rows == old(repository.rows) && repository.lastId == old(repository.lastId) &&
        saveSuccess == old(saveSuccess)
      ensures !IsBlank(content) ==>
        && repository.lastId == old(repository.lastId) + 1
        && repository.rows == old(repository.rows) +
             [NewMemo(content, scenarioTitle, now, tomorrow9am).(memoId := repository.lastId)]
        && saveSuccess
    {
      if IsBlank(content) {
        return;
      }
      var memo := NewMemo(content, scenarioTitle, now, tomorrow9am);
      ghost var before := repository.rows;
      var id := repository.InsertMemo(memo);
      WithoutAbsentId(before, id);
      saveSuccess := true;
    }

    method MarkAsReviewed(memoId: int)
      requires Valid()
      modifies repository
      ensures Valid()
      ensures repository.rows == Marked(old(repository.rows), memoId)
    {
      repository.MarkAsReviewed(memoId);
    }

    method DeleteMemo(memoId: int)
      requires Valid()
      modifies repository
      ensures Valid()
      ensures repository.rows == WithoutId(old(repository.rows), memoId)
    {
      repository.DeleteMemo(memoId);
    }

    method ResetSaveSuccess()
      modifies this
      ensures !saveSuccess
    {
      saveSuccess := false;
    }
  }
}
