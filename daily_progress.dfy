// The per-day practice record (data/local/entity/DailyProgress.kt) and the
// repository that keeps one such record per date
// (data/repository/DailyProgressRepository.kt over the queries of
// data/local/dao/DailyProgressDao.kt). Dates are epoch days. The
// `daily_progress` table is a map from the date to its row, because the date
// carries a unique index. The auto-generated id and the timestamp are not
// modelled. A repository method reads the clock each time it calls `today()`,
// so each reading is a parameter.
module DailyProgress {
  import opened Wrappers

  datatype Progress = Progress(
    date: int,
    sentencesPracticed: int,
    vocabularyLearned: int,
    conversationTurns: int,
    listeningQuizzes: int,
    memosCreated: int,
    translationsCount: int,
    studyMinutes: int)

  /** The counters that a `record*` method raises, one per DAO `increment*` query. */
  datatype Counter = Sentences | Vocabulary | Conversation | Listening | Memos | Translations | StudyMinutes

  function Get(p: Progress, c: Counter): int {
    match c
    case Sentences => p.sentencesPracticed
    case Vocabulary => p.vocabularyLearned
    case Conversation => p.conversationTurns
    case Listening => p.listeningQuizzes
    case Memos => p.memosCreated
    case Translations => p.translationsCount
    case StudyMinutes => p.studyMinutes
  }

  /** `DailyProgress(date = date)`: the row that `ensureTodayExists` inserts. */
  function Fresh(date: int): (p: Progress)
    ensures p.date == date
    ensures forall c :: Get(p, c) == 0
  {
    Progress(date, 0, 0, 0, 0, 0, 0, 0)
  }

  /** `SET c = c + :count`: the row with one counter raised. */
  function Bump(p: Progress, c: Counter, count: int): (r: Progress)
    ensures r.date == p.date
    ensures Get(r, c) == Get(p, c) + count
    ensures forall c' :: c' != c ==> Get(r, c') == Get(p, c')
  {
    match c
    case Sentences => p.(sentencesPracticed := p.sentencesPracticed + count)
    case Vocabulary => p.(vocabularyLearned := p.vocabularyLearned + count)
    case Conversation => p.(conversationTurns := p.conversationTurns + count)
    case Listening => p.(listeningQuizzes := p.listeningQuizzes + count)
    case Memos => p.(memosCreated := p.memosCreated + count)
    case Translations => p.(translationsCount := p.translationsCount + count)
    case StudyMinutes => p.(studyMinutes := p.studyMinutes + count)
  }

  /** One of the six practice counters is positive; study minutes do not count.
    * This is the test of the calendar and of its streak. */
  predicate Practised(p: Progress) {
    p.sentencesPracticed > 0 || p.vocabularyLearned > 0 || p.conversationTurns > 0 ||
    p.listeningQuizzes > 0 || p.memosCreated > 0 || p.translationsCount > 0
  }

  /** The WHERE clause of `getTotalActiveDays`: sentences, conversation or vocabulary. */
  predicate CountedActive(p: Progress) {
    p.sentencesPracticed > 0 || p.conversationTurns > 0 || p.vocabularyLearned > 0
  }

  /** Every row is stored under its own date. */
  ghost predicate Keyed(rows: map<int, Progress>) {
    forall d :: d in rows ==> rows[d].date == d
  }

  // ---------------------------------------------------------------------------
  // The table operations as functions of the table

  /** `ensureTodayExists` with the clock reading `date`: insert a zero row when
    * no row has that date. */
  function EnsureRow(rows: map<int, Progress>, date: int): (r: map<int, Progress>)
    ensures r.Keys == rows.Keys + {date}
    ensures forall d :: d in rows ==> r[d] == rows[d]
    ensures date !in rows ==> r[date] == Fresh(date)
  {
    if date in rows then rows else rows[date := Fresh(date)]
  }

  /** An `increment*` UPDATE: raise counter c of the row with that date; with
    * no such row, nothing changes. */
  function Increment(rows: map<int, Progress>, c: Counter, date: int, count: int): (r: map<int, Progress>)
    ensures r.Keys == rows.Keys
    ensures forall d :: d in rows && d != date ==> r[d] == rows[d]
    ensures date in rows ==> r[date] == Bump(rows[date], c, count)
  {
    if date in rows then rows[date := Bump(rows[date], c, count)] else rows
  }

  /** A `record*` method as written: the increment uses the first clock reading
    * `date`, while `ensureTodayExists` reads the clock again (`ensureDate`). */
  function RecordedAsWritten(rows: map<int, Progress>, c: Counter, date: int, ensureDate: int, count: int): map<int, Progress> {
    Increment(EnsureRow(rows, ensureDate), c, date, count)
  }

  /** A `record*` method whose two steps agree on the date. */
  function Recorded(rows: map<int, Progress>, c: Counter, date: int, count: int): map<int, Progress> {
    Increment(EnsureRow(rows, date), c, date, count)
  }

  /** The row a date has, or the zero row `ensureTodayExists` would insert. */
  function RowOrFresh(rows: map<int, Progress>, date: int): Progress {
    if date in rows then rows[date] else Fresh(date)
  }

  /** `getTotalActiveDays`: the number of rows that pass its WHERE clause;
    * it is zero exactly when no row passes. */
  function TotalActiveDays(rows: map<int, Progress>): (r: nat)
    ensures r <= |rows.Keys|
    ensures r == 0 <==> forall d :: d in rows ==> !CountedActive(rows[d])
  {
    var counted := set d | d in rows && CountedActive(rows[d]);
    SubsetSize(counted, rows.Keys);
    assert forall d :: d in rows && CountedActive(rows[d]) ==> d in counted;
    assert (forall d :: d in rows ==> !CountedActive(rows[d])) ==> counted == {};
    |counted|
  }

  /** The days the calendar counts as active. */
  function PractisedDays(rows: map<int, Progress>): set<int> {
    set d | d in rows && Practised(rows[d])
  }

  // ---------------------------------------------------------------------------
  // Properties

  /** Ensuring a row twice is ensuring it once. */
  lemma EnsureIdempotent(rows: map<int, Progress>, date: int)
    ensures EnsureRow(EnsureRow(rows, date), date) == EnsureRow(rows, date)
    ensures date in rows ==> EnsureRow(rows, date) == rows
  {
  }

  /** A record never loses its increment: afterwards the date has a row whose
    * counter c is the old value (zero for a new row) plus count, whose other
    * counters are as before, and no other date's row changed. */
  lemma RecordAddsExactly(rows: map<int, Progress>, c: Counter, date: int, count: int)
    requires Keyed(rows)
    ensures var r := Recorded(rows, c, date, count);
      && Keyed(r)
      && r.Keys == rows.Keys + {date}
      && r[date].date == date
      && Get(r[date], c) == Get(RowOrFresh(rows, date), c) + count
      && (forall c' :: c' != c ==> Get(r[date], c') == Get(RowOrFresh(rows, date), c'))
      && (forall d :: d in rows && d != date ==> r[d] == rows[d])
  {
    var e := EnsureRow(rows, date);
    assert e[date] == RowOrFresh(rows, date);
  }

  /** Two rows with the same date and the same counters are the same row. */
  lemma SameCounters(p: Progress, q: Progress)
    requires p.date == q.date
    requires forall c :: Get(p, c) == Get(q, c)
    ensures p == q
  {
    assert Get(p, Sentences) == Get(q, Sentences) && Get(p, Vocabulary) == Get(q, Vocabulary);
    assert Get(p, Conversation) == Get(q, Conversation) && Get(p, Listening) == Get(q, Listening);
    assert Get(p, Memos) == Get(q, Memos) && Get(p, Translations) == Get(q, Translations);
    assert Get(p, StudyMinutes) == Get(q, StudyMinutes);
  }

  /** A record writes one row: the date's row, or a zero row, with the
    * counter raised. */
  lemma RecordedWrites(rows: map<int, Progress>, c: Counter, date: int, count: int)
    ensures Recorded(rows, c, date, count) == rows[date := Bump(RowOrFresh(rows, date), c, count)]
  {
    assert EnsureRow(rows, date)[date] == RowOrFresh(rows, date);
  }

  /** Raising two counters of a row, in either order, gives the same row. */
  lemma BumpsCommute(x: Progress, c1: Counter, n1: int, c2: Counter, n2: int)
    ensures Bump(Bump(x, c1, n1), c2, n2) == Bump(Bump(x, c2, n2), c1, n1)
  {
    var a, b := Bump(Bump(x, c1, n1), c2, n2), Bump(Bump(x, c2, n2), c1, n1);
    forall c
      ensures Get(a, c) == Get(b, c)
    {
    }
    SameCounters(a, b);
  }

  /** Records on the same day commute, whichever counters they raise. */
  lemma RecordsCommute(rows: map<int, Progress>, c1: Counter, n1: int, c2: Counter, n2: int, date: int)
    ensures Recorded(Recorded(rows, c1, date, n1), c2, date, n2)
         == Recorded(Recorded(rows, c2, date, n2), c1, date, n1)
  {
    var x := RowOrFresh(rows, date);
    var p1, p2 := Bump(x, c1, n1), Bump(x, c2, n2);
    RecordedWrites(rows, c1, date, n1);
    RecordedWrites(rows, c2, date, n2);
    RecordedWrites(rows[date := p1], c2, date, n2);
    RecordedWrites(rows[date := p2], c1, date, n1);
    BumpsCommute(x, c1, n1, c2, n2);
    assert rows[date := p1][date := Bump(p1, c2, n2)] == rows[date := Bump(p1, c2, n2)];
    assert rows[date := p2][date := Bump(p2, c1, n1)] == rows[date := Bump(p2, c1, n1)];
  }

  /** The as-written record loses the increment when the clock passes midnight
    * between its two readings and the day had no row yet. */
  lemma MidnightLosesIncrement()
    ensures var r := RecordedAsWritten(map[], Sentences, 20000, 20001, 1);
      && 20000 !in r
      && r == map[20001 := Fresh(20001)]
  {
  }

  /** With one clock reading the two versions agree. */
  lemma SameReadingAgrees(rows: map<int, Progress>, c: Counter, date: int, count: int)
    ensures RecordedAsWritten(rows, c, date, date, count) == Recorded(rows, c, date, count)
  {
  }

  /** `getTotalActiveDays` counts a narrower set of days than the calendar: a
    * counted day is a practised day, and a day with only listening quizzes,
    * memos or translations is practised but not counted. */
  lemma TotalActiveDaysNarrower(rows: map<int, Progress>)
    ensures TotalActiveDays(rows) <= |PractisedDays(rows)|
    ensures var p := Progress(0, 0, 0, 0, 1, 0, 0, 0); Practised(p) && !CountedActive(p)
  {
    var counted := set d | d in rows && CountedActive(rows[d]);
    forall d | d in counted
      ensures d in PractisedDays(rows)
    {
    }
    SubsetSize(counted, PractisedDays(rows));
  }

  lemma SubsetSize(a: set<int>, b: set<int>)
    requires a <= b
    ensures |a| <= |b|
  {
    assert b == a + (b - a);
    assert a * (b - a) == {};
  }

  // ---------------------------------------------------------------------------
  // The repository

  /** The `daily_progress` table behind the repository. */
  class ProgressRepository {
    var rows: map<int, Progress>

    ghost predicate Valid()
      reads this
    {
      Keyed(rows)
    }

    constructor()
      ensures Valid() && rows == map[]
    {
      rows := map[];
    }

    /** `getProgressByDate`. */
    function ProgressByDate(date: int): (r: Option<Progress>)
      reads this
      ensures r.Some? <==> date in rows
      ensures r.Some? ==> r.value == rows[date]
    {
      if date in rows then Some(rows[date]) else None
    }

    /** `ensureTodayExists`, the clock reading `today`. */
    method EnsureTodayExists(today: int)
      requires Valid()
      modifies this
      ensures Valid()
      ensures rows == EnsureRow(old(rows), today)
    {
      if ProgressByDate(today).None? {
        rows := rows[today := Fresh(today)];
      }
    }

    /** The shared shape of the seven `record*` methods: make sure the day has a
      * row, then run the counter's UPDATE on it. */
    method Record(c: Counter, today: int, count: int)
      requires Valid()
      modifies this
      ensures Valid()
      ensures rows == Recorded(old(rows), c, today, count)
    {
      EnsureTodayExists(today);
      rows := Increment(rows, c, today, count);
    }

    method RecordSentencePractice(today: int, count: int)
      requires Valid()
      modifies this
      ensures Valid() && rows == Recorded(old(rows), Sentences, today, count)
    {
      Record(Sentences, today, count);
    }

    method RecordVocabularyLearned(today: int, count: int)
      requires Valid()
      modifies this
      ensures Valid() && rows == Recorded(old(rows), Vocabulary, today, count)
    {
      Record(Vocabulary, today, count);
    }

    method RecordConversationTurn(today: int, count: int)
      requires Valid()
      modifies this
      ensures Valid() && rows == Recorded(old(rows), Conversation, today, count)
    {
      Record(Conversation, today, count);
    }

    method RecordListeningQuiz(today: int, count: int)
      requires Valid()
      modifies this
      ensures Valid() && rows == Recorded(old(rows), Listening, today, count)
    {
      Record(Listening, today, count);
    }

    method RecordMemoCreated(today: int, count: int)
      requires Valid()
      modifies this
      ensures Valid() && rows == Recorded(old(rows), Memos, today, count)
    {
      Record(Memos, today, count);
    }

    method RecordTranslation(today: int, count: int)
      requires Valid()
      modifies this
      ensures Valid() && rows == Recorded(old(rows), Translations, today, count)
    {
      Record(Translations, today, count);
    }

    method RecordStudyMinutes(today: int, minutes: int)
      requires Valid()
      modifies this
      ensures Valid() && rows == Recorded(old(rows), StudyMinutes, today, minutes)
    {
      Record(StudyMinutes, today, minutes);
    }

    /** `upsertProgress` (REPLACE on the unique date): the row takes the place
      * of any row with its date, so a date never has two rows. */
    method Upsert(p: Progress)
      requires Valid()
      modifies this
      ensures Valid()
      ensures rows == old(rows)[p.date := p]
    {
      rows := rows[p.date := p];
    }
  }
}
