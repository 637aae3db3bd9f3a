// The app's settings (data/preferences/AppPreferences.kt): the difficulty
// levels and a key-value preference store holding whether onboarding is done,
// the chosen difficulty (stored by its name) and the daily task count. The
// store's asynchronous flows are modelled as reads of its current contents.
module Preferences {
  import opened Wrappers

  datatype Difficulty = Beginner | Intermediate | Advanced

  /** `Difficulty.entries`, in declaration order. */
  const Entries: seq<Difficulty> := [Beginner, Intermediate, Advanced]

  /** The enum constant's `name`. */
  function Name(d: Difficulty): string {
    match d
    case Beginner => "BEGINNER"
    case Intermediate => "INTERMEDIATE"
    case Advanced => "ADVANCED"
  }

  function Label(d: Difficulty): string {
    match d
    case Beginner => "Beginner"
    case Intermediate => "Intermediate"
    case Advanced => "Advanced"
  }

  function LabelZh(d: Difficulty): string {
    match d
    case Beginner => "初級"
    case Intermediate => "中級"
    case Advanced => "進階"
  }

  function SentenceCount(d: Difficulty): int {
    match d
    case Beginner => 5
    case Intermediate => 10
    case Advanced => 20
  }

  /** `entries.find { it.name == name }`: the first entry with that name. */
  function FindByName(entries: seq<Difficulty>, name: string): (r: Option<Difficulty>)
    ensures r.Some? ==> r.value in entries && Name(r.value) == name
    ensures r.None? ==> forall d :: d in entries ==> Name(d) != name
    decreases |entries|
  {
    if entries == [] then None
    else if Name(entries[0]) == name then Some(entries[0])
    else FindByName(entries[1..], name)
  }

  /** `Difficulty.fromName`: the entry with that name, else BEGINNER. */
  function FromName(name: string): (r: Difficulty)
    ensures Name(r) == name || (r == Beginner && forall e :: e in Entries ==> Name(e) != name)
  {
    match FindByName(Entries, name)
    case Some(d) => d
    case None => Beginner
  }

  /** `coerceIn(lo, hi)`. */
  function CoerceIn(x: int, lo: int, hi: int): (r: int)
    requires lo <= hi
    ensures lo <= r <= hi
    ensures lo <= x <= hi ==> r == x
    ensures x < lo ==> r == lo
    ensures hi < x ==> r == hi
  {
    if x < lo then lo else if hi < x then hi else x
  }

  // ---------------------------------------------------------------------------
  // Properties

  /** The names are distinct, so `fromName` inverts `name`; any other string
    * falls back to BEGINNER. */
  lemma FromNameIff(name: string, d: Difficulty)
    ensures FromName(name) == d <==>
      Name(d) == name || (d == Beginner && forall e :: e in Entries ==> Name(e) != name)
  {
    assert Entries[1..] == [Intermediate, Advanced];
    assert Entries[1..][1..] == [Advanced];
    assert Entries[1..][1..][1..] == [];
    assert Name(Beginner)[0] != Name(Intermediate)[0] && Name(Beginner)[0] != Name(Advanced)[0];
    assert Name(Intermediate)[0] != Name(Advanced)[0];
    assert d in Entries by {
      match d {
        case Beginner => assert Entries[0] == d;
        case Intermediate => assert Entries[1] == d;
        case Advanced => assert Entries[2] == d;
      }
    }
  }

  lemma FromNameOfName(d: Difficulty)
    ensures FromName(Name(d)) == d
  {
    FromNameIff(Name(d), d);
  }

  /** The levels ask for 5, 10 and 20 sentences, more at each level. */
  lemma SentenceCounts()
    ensures SentenceCount(Beginner) == 5 && SentenceCount(Intermediate) == 10 && SentenceCount(Advanced) == 20
    ensures forall i, j :: 0 <= i < j < |Entries| ==> SentenceCount(Entries[i]) < SentenceCount(Entries[j])
  {
  }

  // ---------------------------------------------------------------------------
  // The store

  datatype PreferenceValue = BoolValue(b: bool) | StringValue(s: string) | IntValue(i: int)

  const OnboardingCompletedKey: string := "onboarding_completed"
  const DifficultyKey: string := "difficulty"
  const DailyTaskCountKey: string := "daily_task_count"

  class AppPreferences {
    var data: map<string, PreferenceValue>

    /** Each key holds a value of its declared type, and a stored task count
      * went through the clamp. */
    ghost predicate Valid()
      reads this
    {
      && (OnboardingCompletedKey in data ==> data[OnboardingCompletedKey].BoolValue?)
      && (DifficultyKey in data ==> data[DifficultyKey].StringValue?)
      && (DailyTaskCountKey in data ==>
            data[DailyTaskCountKey].IntValue? && 1 <= data[DailyTaskCountKey].i <= 20)
    }

    /** A store nothing has been written to. */
    constructor()
      ensures Valid() && data == map[]
    {
      data := map[];
    }

    /** `onboardingCompleted`: the stored flag, false when never set. */
    function OnboardingCompleted(): (r: bool)
      reads this
      ensures r <==> OnboardingCompletedKey in data && data[OnboardingCompletedKey] == BoolValue(true)
    {
      if OnboardingCompletedKey in data && data[OnboardingCompletedKey].BoolValue?
      then data[OnboardingCompletedKey].b else false
    }

    /** `difficulty`: the level named by the stored string, BEGINNER's name
      * when never set. */
    function CurrentDifficulty(): (r: Difficulty)
      reads this
      ensures DifficultyKey !in data ==> r == Beginner
      ensures DifficultyKey in data && data[DifficultyKey].StringValue? ==>
        Name(r) == data[DifficultyKey].s || r == Beginner
    {
      var name := if DifficultyKey in data && data[DifficultyKey].StringValue?
        then data[DifficultyKey].s else Name(Beginner);
      FromName(name)
    }

    /** `dailyTaskCount`: the stored count, 5 when never set. */
    function DailyTaskCount(): (r: int)
      reads this
      ensures Valid() ==> 1 <= r <= 20
      ensures DailyTaskCountKey !in data ==> r == 5
    {
      if DailyTaskCountKey in data && data[DailyTaskCountKey].IntValue?
      then data[DailyTaskCountKey].i else 5
    }

    method SetDailyTaskCount(count: int)
      requires Valid()
      modifies this
      ensures Valid()
      ensures data == old(data)[DailyTaskCountKey := IntValue(CoerceIn(count, 1, 20))]
    {
      data := data[DailyTaskCountKey := IntValue(CoerceIn(count, 1, 20))];
    }

    method SetOnboardingCompleted(completed: bool)
      requires Valid()
      modifies this
      ensures Valid()
      ensures data == old(data)[OnboardingCompletedKey := BoolValue(completed)]
    {
      data := data[OnboardingCompletedKey := BoolValue(completed)];
    }

    method SetDifficulty(difficulty: Difficulty)
      requires Valid()
      modifies this
      ensures Valid()
      ensures data == old(data)[DifficultyKey := StringValue(Name(difficulty))]
    {
      data := data[DifficultyKey := StringValue(Name(difficulty))];
    }
  }

  /** An empty store reads as: onboarding not done, BEGINNER, 5 tasks. */
  lemma Defaults(p: AppPreferences)
    requires p.data == map[]
    ensures !p.OnboardingCompleted() && p.CurrentDifficulty() == Beginner && p.DailyTaskCount() == 5
  {
    FromNameOfName(Beginner);
  }

  /** The daily task count read back always lies in [1, 20]. */
  lemma TaskCountInRange(p: AppPreferences)
    requires p.Valid()
    ensures 1 <= p.DailyTaskCount() <= 20
  {
  }

  /** What each setter writes is what its getter reads back, the count
    * clamped to [1, 20], and the other settings read as before: `p` holds
    * the store after the write and `q` the store before it. */
  lemma SettersReadBack(q: AppPreferences, p: AppPreferences, count: int, completed: bool, d: Difficulty)
    ensures p.data == q.data[DailyTaskCountKey := IntValue(CoerceIn(count, 1, 20))] ==>
      p.DailyTaskCount() == CoerceIn(count, 1, 20) &&
      (1 <= count <= 20 ==> p.DailyTaskCount() == count) &&
      p.OnboardingCompleted() == q.OnboardingCompleted() &&
      p.CurrentDifficulty() == q.CurrentDifficulty()
    ensures p.data == q.data[OnboardingCompletedKey := BoolValue(completed)] ==>
      p.OnboardingCompleted() == completed &&
      p.CurrentDifficulty() == q.CurrentDifficulty() &&
      p.DailyTaskCount() == q.DailyTaskCount()
    ensures p.data == q.data[DifficultyKey := StringValue(Name(d))] ==>
      p.CurrentDifficulty() == d &&
      p.OnboardingCompleted() == q.OnboardingCompleted() &&
      p.DailyTaskCount() == q.DailyTaskCount()
  {
    FromNameOfName(d);
  }
}
