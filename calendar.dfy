// The progress calendar (ui/screens/calendar/CalendarViewModel.kt): the
// activity summary of one day, the six-week month grid, the practice streak
// and the screen state that the view-model overwrites. Dates are epoch days
// (0 is 1970-01-01) on the proleptic Gregorian calendar of java.time; the
// current date and month are parameters.
module Calendar {
  import opened Wrappers
  import opened DailyProgress

  // ---------------------------------------------------------------------------
  // Calendar arithmetic

  /** A java.time `YearMonth`; a month is 1 (January) to 12. */
  datatype YearMonth = YearMonth(year: int, month: int)

  predicate ValidMonth(ym: YearMonth) {
    1 <= ym.month <= 12
  }

  /** The months counted from January of year 0. */
  function MonthIndex(ym: YearMonth): int {
    ym.year * 12 + ym.month - 1
  }

  /** `minusMonths(1)`. */
  function PreviousOf(ym: YearMonth): (r: YearMonth)
    requires ValidMonth(ym)
    ensures ValidMonth(r)
    ensures MonthIndex(r) == MonthIndex(ym) - 1
  {
    if ym.month == 1 then YearMonth(ym.year - 1, 12) else YearMonth(ym.year, ym.month - 1)
  }

  /** `plusMonths(1)`. */
  function NextOf(ym: YearMonth): (r: YearMonth)
    requires ValidMonth(ym)
    ensures ValidMonth(r)
    ensures MonthIndex(r) == MonthIndex(ym) + 1
  {
    if ym.month == 12 then YearMonth(ym.year + 1, 1) else YearMonth(ym.year, ym.month + 1)
  }

  predicate IsLeap(year: int) {
    year % 4 == 0 && (year % 100 != 0 || year % 400 == 0)
  }

  /** `lengthOfMonth`. */
  function LengthOfMonth(ym: YearMonth): (n: int)
    requires ValidMonth(ym)
    ensures 28 <= n <= 31
    ensures ym.month == 2 ==> (n == 29 <==> IsLeap(ym.year))
  {
    if ym.month == 2 then (if IsLeap(ym.year) then 29 else 28)
    else if ym.month == 4 || ym.month == 6 || ym.month == 9 || ym.month == 11 then 30
    else 31
  }

  /** The epoch day of the first day of a year counted from March (the years
    * of the civil-date algorithm): 400-year eras of 146097 days. */
  function MarchYearStart(y: int): int {
    var era := y / 400;
    var yoe := y - era * 400;
    era * 146097 + yoe * 365 + yoe / 4 - yoe / 100 - 719468
  }

  /** The epoch day of a date (`LocalDate.of(year, month, day).toEpochDay()`). */
  function EpochDay(ym: YearMonth, day: int): int
    requires ValidMonth(ym)
  {
    var y := if ym.month <= 2 then ym.year - 1 else ym.year;
    var mp := if ym.month > 2 then ym.month - 3 else ym.month + 9;
    MarchYearStart(y) + (153 * mp + 2) / 5 + day - 1
  }

  /** `atDay(1)`. */
  function FirstDay(ym: YearMonth): int
    requires ValidMonth(ym)
  {
    EpochDay(ym, 1)
  }

  /** `atEndOfMonth()`. */
  function LastDay(ym: YearMonth): int
    requires ValidMonth(ym)
  {
    EpochDay(ym, LengthOfMonth(ym))
  }

  /** `dayOfWeek.value`: 1 is Monday, 7 is Sunday; epoch day 0 was a Thursday. */
  function DayOfWeek(epochDay: int): (r: int)
    ensures 1 <= r <= 7
  {
    (epochDay + 3) % 7 + 1
  }

  lemma EpochOrigin()
    ensures EpochDay(YearMonth(1970, 1), 1) == 0
    ensures DayOfWeek(0) == 4
  {
  }

  /** The days of the week follow each other. */
  lemma {:induction false} NextWeekday(d: int)
    ensures DayOfWeek(d + 1) == DayOfWeek(d) % 7 + 1
    ensures DayOfWeek(d + 7) == DayOfWeek(d)
  {
    var q := (d + 3) / 7;
    assert d + 3 == 7 * q + (d + 3) % 7;
    if (d + 3) % 7 == 6 {
      assert d + 4 == 7 * (q + 1) + 0;
    } else {
      assert d + 4 == 7 * q + ((d + 3) % 7 + 1);
    }
    assert d + 10 == 7 * (q + 1) + (d + 3) % 7;
  }

  /** A year splits into its 400-year era and its year of era. */
  lemma EraQuotient(e: int, o: int)
    requires 0 <= o < 400
    ensures (400 * e + o) / 400 == e
  {
  }

  lemma EraRemainders(e: int, o: int)
    requires 0 <= o < 400
    ensures (400 * e + o) % 4 == o % 4
    ensures (400 * e + o) % 100 == o % 100
    ensures (400 * e + o) % 400 == o
  {
    Remainder4(e, o);
    Remainder100(e, o);
    var x := 400 * e + o;
    assert 400 * (x / 400 - e) == o - x % 400;
  }

  lemma Remainder4(e: int, o: int)
    requires 0 <= o < 400
    ensures (400 * e + o) % 4 == o % 4
  {
    var x := 400 * e + o;
    assert 4 * (x / 4 - 100 * e - o / 4) == o % 4 - x % 4;
  }

  lemma Remainder100(e: int, o: int)
    requires 0 <= o < 400
    ensures (400 * e + o) % 100 == o % 100
  {
    var x := 400 * e + o;
    assert 100 * (x / 100 - 4 * e - o / 100) == o % 100 - x % 100;
  }

  /** The start and the leap rule of a year, from its year of era. */
  lemma EraStart(e: int, o: int)
    requires 0 <= o < 400
    ensures MarchYearStart(400 * e + o) == e * 146097 + o * 365 + o / 4 - o / 100 - 719468
    ensures IsLeap(400 * e + o) <==> o % 4 == 0 && (o % 100 != 0 || o == 0)
  {
    EraQuotient(e, o);
    EraRemainders(e, o);
  }

  /** Within an era, the leap-day counts step up at multiples of 4 and 100. */
  lemma InEra(o: int)
    requires 0 <= o < 399
    ensures (o + 1) / 4 - o / 4 == (if (o + 1) % 4 == 0 then 1 else 0)
    ensures (o + 1) / 100 - o / 100 == (if (o + 1) % 100 == 0 then 1 else 0)
    ensures (o + 1) % 100 == 0 ==> (o + 1) % 4 == 0
  {
  }

  /** A year counted from March has 366 days when the February it ends with
    * is a leap February. */
  lemma {:induction false} MarchYearLength(y: int)
    ensures MarchYearStart(y + 1) - MarchYearStart(y) == 365 + (if IsLeap(y + 1) then 1 else 0)
  {
    var e := y / 400;
    var o := y % 400;
    assert y == 400 * e + o;
    EraStart(e, o);
    if o == 399 {
      EraStart(e + 1, 0);
      assert y + 1 == 400 * (e + 1) + 0;
    } else {
      EraStart(e, o + 1);
      InEra(o);
      assert y + 1 == 400 * e + (o + 1);
      var leap := IsLeap(y + 1);
      assert leap <==> (o + 1) % 4 == 0 && (o + 1) % 100 != 0;
      var d4, d100 := (o + 1) / 4 - o / 4, (o + 1) / 100 - o / 100;
      assert MarchYearStart(y + 1) - MarchYearStart(y) == 365 + d4 - d100;
    }
  }

  /** The next month starts the day after this month ends, so the days from
    * `atDay(1)` to `atEndOfMonth()` of successive months tile the calendar.
    * This is what makes "the date lies in the year-month" the same as "the
    * date lies between its first and its last day". */
  lemma MonthsAdjacent(ym: YearMonth)
    requires ValidMonth(ym)
    ensures FirstDay(NextOf(ym)) == LastDay(ym) + 1
  {
    var y := ym.year;
    if ym.month == 2 {
      MarchYearLength(y - 1);
      assert FirstDay(NextOf(ym)) == MarchYearStart(y);
      assert LastDay(ym) == MarchYearStart(y - 1) + 337 + LengthOfMonth(ym) - 1;
    } else if ym.month == 12 {
      assert FirstDay(NextOf(ym)) == MarchYearStart(y) + 306;
    } else if ym.month == 1 {
      assert FirstDay(NextOf(ym)) == MarchYearStart(y - 1) + 337;
    }
  }

  // ---------------------------------------------------------------------------
  // One day of the calendar

  /** A `CalendarDay`; progress is None when the day has no row. */
  datatype CalendarDay = CalendarDay(date: int, isCurrentMonth: bool, isToday: bool, progress: Option<Progress>)

  /** `hasActivity`. */
  predicate HasActivity(day: CalendarDay) {
    day.progress.Some? && Practised(day.progress.value)
  }

  /** `totalActivities`: the six practice counters, zero without a row; study
    * minutes are not added. */
  function TotalActivities(day: CalendarDay): int {
    match day.progress
    case None => 0
    case Some(p) =>
      p.sentencesPracticed + p.vocabularyLearned + p.conversationTurns +
      p.listeningQuizzes + p.memosCreated + p.translationsCount
  }

  /** `activityLevel`: 0 for no activity, then light (below 5), medium (below
    * 15) and high. */
  function ActivityLevel(day: CalendarDay): (level: int)
    ensures 0 <= level <= 3
  {
    var total := TotalActivities(day);
    if total == 0 then 0
    else if total < 5 then 1
    else if total < 15 then 2
    else 3
  }

  /** No counter is negative, as every counter the app raises starts at zero
    * and grows. */
  predicate Counted(day: CalendarDay) {
    day.progress.Some? ==>
      var p := day.progress.value;
      p.sentencesPracticed >= 0 && p.vocabularyLearned >= 0 && p.conversationTurns >= 0 &&
      p.listeningQuizzes >= 0 && p.memosCreated >= 0 && p.translationsCount >= 0
  }

  /** The level buckets: level 0 exactly at total 0, 1 for totals 1 to 4,
    * 2 for 5 to 14 and 3 from 15 on. */
  lemma ActivityBuckets(day: CalendarDay)
    requires Counted(day)
    ensures var t, level := TotalActivities(day), ActivityLevel(day);
      && t >= 0
      && (level == 0 <==> t == 0)
      && (level == 1 <==> 1 <= t <= 4)
      && (level == 2 <==> 5 <= t <= 14)
      && (level == 3 <==> t >= 15)
  {
  }

  /** With no negative counter a day is shaded exactly when it has activity,
    * and the study minutes alone never shade it. */
  lemma ShadedIffActive(day: CalendarDay)
    requires Counted(day)
    ensures ActivityLevel(day) > 0 <==> HasActivity(day)
    ensures HasActivity(day) <==> TotalActivities(day) > 0
  {
  }

  /** More activity never gives a lower level. */
  lemma LevelMonotone(d1: CalendarDay, d2: CalendarDay)
    requires Counted(d1) && Counted(d2)
    requires TotalActivities(d1) <= TotalActivities(d2)
    ensures ActivityLevel(d1) <= ActivityLevel(d2)
  {
  }

  // ---------------------------------------------------------------------------
  // The month grid

  /** `getProgressRange(start, end)` keyed by date (`associateBy { it.date }`). */
  function ProgressRange(rows: map<int, Progress>, start: int, end: int): (r: map<int, Progress>)
    ensures forall d :: d in r <==> d in rows && start <= d <= end
    ensures forall d :: d in r ==> r[d] == rows[d]
  {
    map d | d in rows && start <= d <= end :: rows[d]
  }

  /** The Monday of the week that holds the 1st. */
  function GridStart(ym: YearMonth): int
    requires ValidMonth(ym)
  {
    FirstDay(ym) - (DayOfWeek(FirstDay(ym)) - 1)
  }

  function Lookup(m: map<int, Progress>, date: int): Option<Progress> {
    if date in m then Some(m[date]) else None
  }

  /** One cell of the grid. */
  function Cell(ym: YearMonth, date: int, found: map<int, Progress>, today: int): CalendarDay
    requires ValidMonth(ym)
  {
    CalendarDay(date, FirstDay(ym) <= date <= LastDay(ym), date == today, Lookup(found, date))
  }

  /** The 42 days that `loadMonth` lays out for a month. */
  function MonthGrid(ym: YearMonth, rows: map<int, Progress>, today: int): (r: seq<CalendarDay>)
    requires ValidMonth(ym)
    ensures |r| == 42
    ensures forall k :: 0 <= k < 42 ==> r[k].progress == Lookup(rows, r[k].date)
  {
    var start := GridStart(ym);
    var found := ProgressRange(rows, start, start + 41);
    var g := seq(42, k requires 0 <= k < 42 => Cell(ym, start + k, found, today));
    assert forall k :: 0 <= k < 42 ==> g[k] == Cell(ym, start + k, found, today);
    assert forall k :: 0 <= k < 42 ==> g[k].progress == Lookup(rows, g[k].date);
    g
  }

  /** The grid starts on the Monday on or before the 1st, and its six weeks
    * reach past the last day of the month. */
  lemma {:induction false} GridStartMonday(ym: YearMonth)
    requires ValidMonth(ym)
    ensures var start := GridStart(ym);
      && DayOfWeek(start) == 1
      && start <= FirstDay(ym) < start + 7
      && LastDay(ym) < start + 42
  {
    MondayOnOrBefore(FirstDay(ym));
    DaysOfMonth(ym, LengthOfMonth(ym));
  }

  /** Stepping back `dayOfWeek.value - 1` days from any day lands on a Monday
    * of the same week. */
  lemma {:induction false} MondayOnOrBefore(day: int)
    ensures var start := day - (DayOfWeek(day) - 1);
      DayOfWeek(start) == 1 && start <= day < start + 7
  {
    var start := day - (DayOfWeek(day) - 1);
    assert day + 3 == 7 * ((day + 3) / 7) + (day + 3) % 7;
    assert start + 3 == 7 * ((day + 3) / 7);
  }

  /** The days of a month are consecutive from its first. */
  lemma DaysOfMonth(ym: YearMonth, day: int)
    requires ValidMonth(ym)
    ensures EpochDay(ym, day) == FirstDay(ym) + day - 1
  {
  }

  /** The grid is six whole weeks from the Monday on or before the 1st, holds
    * every day of the month (the last one before index 42), marks as current
    * exactly the days of the month, and shows each day's own row. */
  lemma {:induction false} GridShape(ym: YearMonth, rows: map<int, Progress>, today: int)
    requires ValidMonth(ym)
    ensures var g, start := MonthGrid(ym, rows, today), GridStart(ym);
      && |g| == 42
      && DayOfWeek(start) == 1
      && start <= FirstDay(ym) < start + 7
      && LastDay(ym) < start + 42
      && (forall k :: 0 <= k < 42 ==> g[k].date == start + k)
      && (forall k :: 0 <= k < 42 ==> (g[k].isCurrentMonth <==> FirstDay(ym) <= g[k].date <= LastDay(ym)))
      && (forall k :: 0 <= k < 42 ==> (g[k].isToday <==> g[k].date == today))
      && (forall k :: 0 <= k < 42 ==> g[k].progress == Lookup(rows, g[k].date))
  {
    GridStartMonday(ym);
    var start := GridStart(ym);
    var g := MonthGrid(ym, rows, today);
    var found := ProgressRange(rows, start, start + 41);
    forall k | 0 <= k < 42
      ensures g[k] == Cell(ym, start + k, found, today)
      ensures g[k].progress == Lookup(rows, g[k].date)
    {
    }
  }

  /** No two cells show the same date, so at most one is today. */
  lemma TodayAtMostOnce(ym: YearMonth, rows: map<int, Progress>, today: int)
    requires ValidMonth(ym)
    ensures var g := MonthGrid(ym, rows, today);
      forall i, j :: 0 <= i < |g| && 0 <= j < |g| && g[i].isToday && g[j].isToday ==> i == j
  {
    GridShape(ym, rows, today);
  }

  /** The current-month cells are one run of consecutive cells, one per day
    * of the month. */
  lemma {:induction false} CurrentMonthRun(ym: YearMonth, rows: map<int, Progress>, today: int)
    requires ValidMonth(ym)
    ensures var g, lead := MonthGrid(ym, rows, today), FirstDay(ym) - GridStart(ym);
      && 0 <= lead < 7
      && lead + LengthOfMonth(ym) <= 42
      && forall k :: 0 <= k < 42 ==> (g[k].isCurrentMonth <==> lead <= k < lead + LengthOfMonth(ym))
  {
    GridShape(ym, rows, today);
  }

  // ---------------------------------------------------------------------------
  // The streak

  /** The day the streak is counted back from: today, or yesterday when today
    * has no practice yet. */
  function StreakStart(active: set<int>, today: int): int {
    if today in active then today else today - 1
  }

  /** n consecutive active days end at start, and the day before them is not
    * active. */
  predicate RunOf(active: set<int>, start: int, n: nat) {
    (forall d :: start - n < d <= start ==> d in active) && start - n !in active
  }

  /** A run length is determined by where it ends. */
  lemma RunUnique(active: set<int>, start: int, n: nat, m: nat)
    requires RunOf(active, start, n) && RunOf(active, start, m)
    ensures n == m
  {
  }

  function DaysUpTo(active: set<int>, day: int): set<int> {
    set d | d in active && d <= day
  }

  /** `calculateStreak`: the run of practised days that ends today, or
    * yesterday when today has none; 0 when no day was practised. */
  method CalculateStreak(rows: map<int, Progress>, today: int) returns (streak: nat)
    ensures RunOf(PractisedDays(rows), StreakStart(PractisedDays(rows), today), streak)
    ensures PractisedDays(rows) == {} ==> streak == 0
  {
    if |rows| == 0 {
      return 0;
    }
    var active := PractisedDays(rows);
    if active == {} {
      return 0;
    }
    streak := 0;
    var checkDate := today;
    if checkDate !in active {
      checkDate := checkDate - 1;
    }
    ghost var start := checkDate;
    while checkDate in active
      invariant checkDate == start - streak
      invariant forall d :: checkDate < d <= start ==> d in active
      decreases |DaysUpTo(active, checkDate)|
    {
      assert DaysUpTo(active, checkDate) == DaysUpTo(active, checkDate - 1) + {checkDate};
      streak := streak + 1;
      checkDate := checkDate - 1;
    }
  }

  // ---------------------------------------------------------------------------
  // The screen

  /** `CalendarViewModel` with its `CalendarScreenState`. The repository's
    * table, the current date and the current month are passed in. */
  class CalendarViewModel {
    var currentMonth: YearMonth
    var days: seq<CalendarDay>
    var selectedDay: Option<CalendarDay>
    var totalActiveDays: int
    var currentStreak: nat
    var isLoading: bool

    ghost predicate Valid()
      reads this
    {
      ValidMonth(currentMonth)
    }

    /** `init`: load the current month, then the statistics. */
    constructor(thisMonth: YearMonth, rows: map<int, Progress>, today: int)
      requires ValidMonth(thisMonth)
      ensures Valid()
      ensures currentMonth == thisMonth && days == MonthGrid(thisMonth, rows, today)
      ensures selectedDay == None && !isLoading
      ensures totalActiveDays == TotalActiveDays(rows)
      ensures RunOf(PractisedDays(rows), StreakStart(PractisedDays(rows), today), currentStreak)
    {
      currentMonth := thisMonth;
      isLoading := true;
      days := [];
      selectedDay := None;
      totalActiveDays := 0;
      currentStreak := 0;
      new;
      LoadMonth(thisMonth, rows, today);
      LoadStats(rows, today);
    }

    /** `loadMonth`: show the month's grid and drop the selection; the
      * statistics stay. */
    method LoadMonth(ym: YearMonth, rows: map<int, Progress>, today: int)
      requires ValidMonth(ym)
      modifies this
      ensures Valid()
      ensures currentMonth == ym && days == MonthGrid(ym, rows, today)
      ensures selectedDay == None && !isLoading
      ensures totalActiveDays == old(totalActiveDays) && currentStreak == old(currentStreak)
    {
      currentMonth := ym;
      isLoading := true;
      days := MonthGrid(ym, rows, today);
      isLoading := false;
      selectedDay := None;
    }

    /** `loadStats`: the active-day count and the streak. */
    method LoadStats(rows: map<int, Progress>, today: int)
      modifies this
      ensures totalActiveDays == TotalActiveDays(rows)
      ensures RunOf(PractisedDays(rows), StreakStart(PractisedDays(rows), today), currentStreak)
      ensures currentMonth == old(currentMonth) && days == old(days)
      ensures selectedDay == old(selectedDay) && isLoading == old(isLoading)
    {
      var total := TotalActiveDays(rows);
      var streak := CalculateStreak(rows, today);
      totalActiveDays := total;
      currentStreak := streak;
    }

    method PreviousMonth(rows: map<int, Progress>, today: int)
      requires Valid()
      modifies this
      ensures Valid()
      ensures currentMonth == PreviousOf(old(currentMonth))
      ensures days == MonthGrid(currentMonth, rows, today)
      ensures selectedDay == None && !isLoading
      ensures totalActiveDays == old(totalActiveDays) && currentStreak == old(currentStreak)
    {
      LoadMonth(PreviousOf(currentMonth), rows, today);
    }

    method NextMonth(rows: map<int, Progress>, today: int)
      requires Valid()
      modifies this
      ensures Valid()
      ensures currentMonth == NextOf(old(currentMonth))
      ensures days == MonthGrid(currentMonth, rows, today)
      ensures selectedDay == None && !isLoading
      ensures totalActiveDays == old(totalActiveDays) && currentStreak == old(currentStreak)
    {
      LoadMonth(NextOf(currentMonth), rows, today);
    }

    method SelectDay(day: CalendarDay)
      modifies this
      ensures selectedDay == Some(day)
      ensures currentMonth == old(currentMonth) && days == old(days) && isLoading == old(isLoading)
      ensures totalActiveDays == old(totalActiveDays) && currentStreak == old(currentStreak)
    {
      selectedDay := Some(day);
    }

    method ClearSelection()
      modifies this
      ensures selectedDay == None
      ensures currentMonth == old(currentMonth) && days == old(days) && isLoading == old(isLoading)
      ensures totalActiveDays == old(totalActiveDays) && currentStreak == old(currentStreak)
    {
      selectedDay := None;
    }
  }

  /** Going back a month and then forward again shows the month that was
    * shown before, and so does going forward then back. */
  lemma MonthRoundTrip(ym: YearMonth)
    requires ValidMonth(ym)
    ensures NextOf(PreviousOf(ym)) == ym
    ensures PreviousOf(NextOf(ym)) == ym
  {
  }
}
