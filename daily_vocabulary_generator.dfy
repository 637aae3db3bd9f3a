// The daily word sheet (domain/vocabulary/DailyVocabularyGenerator.kt): the
// fixed word list shuffled by a `Random` seeded with the date's epoch day, of
// which the first ten are taken. The seeded shuffle is not reproduced: its
// draws are given as a function of the epoch day, and the shuffle takes, draw
// by draw, the chosen word out of the words that remain, which reaches every
// permutation.
module DailyVocabulary {
  import opened Lists

  /** A word of the list (domain/vocabulary/VocabularyWord.kt), cut down to the
    * fields this model keeps. */
  datatype VocabularyWord = VocabularyWord(word: string, partOfSpeech: string, category: string)

  const DailyWordCount: nat := 10

  /** `getAllWords()`, in source order. */
  const AllWords: seq<VocabularyWord> :=
    DailyLifeWords + TravelWords + FoodWords + HealthWords + WorkWords + EmotionsWords +
    EducationWords + TechnologyWords + ShoppingWords + NatureWords + SocialWords +
    TransportationWords + HomeWords + EntertainmentWords + FinanceWords +
    RelationshipsWords + EnvironmentWords + CommonWords

  // Daily Life
  const DailyLifeWords: seq<VocabularyWord> := [
    VocabularyWord("appointment", "n.", "Daily Life"), VocabularyWord("available", "adj.", "Daily Life"), VocabularyWord("comfortable", "adj.", "Daily Life"),
    VocabularyWord("convenient", "adj.", "Daily Life"), VocabularyWord("delicious", "adj.", "Daily Life"), VocabularyWord("expensive", "adj.", "Daily Life"),
    VocabularyWord("grocery", "n.", "Daily Life"), VocabularyWord("ingredient", "n.", "Daily Life"), VocabularyWord("neighbor", "n.", "Daily Life"),
    VocabularyWord("organize", "v.", "Daily Life"), VocabularyWord("purchase", "v./n.", "Daily Life"), VocabularyWord("receipt", "n.", "Daily Life"),
    VocabularyWord("schedule", "n./v.", "Daily Life"), VocabularyWord("temperature", "n.", "Daily Life"), VocabularyWord("umbrella", "n.", "Daily Life")
  ]

  // Travel
  const TravelWords: seq<VocabularyWord> := [
    VocabularyWord("accommodation", "n.", "Travel"), VocabularyWord("boarding", "n.", "Travel"), VocabularyWord("currency", "n.", "Travel"),
    VocabularyWord("departure", "n.", "Travel"), VocabularyWord("destination", "n.", "Travel"), VocabularyWord("itinerary", "n.", "Travel"),
    VocabularyWord("luggage", "n.", "Travel"), VocabularyWord("passport", "n.", "Travel"), VocabularyWord("reservation", "n.", "Travel"),
    VocabularyWord("souvenir", "n.", "Travel"), VocabularyWord("transfer", "v./n.", "Travel"), VocabularyWord("vacation", "n.", "Travel")
  ]

  // Food & Dining
  const FoodWords: seq<VocabularyWord> := [
    VocabularyWord("appetizer", "n.", "Food"), VocabularyWord("beverage", "n.", "Food"), VocabularyWord("cuisine", "n.", "Food"),
    VocabularyWord("dessert", "n.", "Food"), VocabularyWord("flavor", "n.", "Food"), VocabularyWord("portion", "n.", "Food"),
    VocabularyWord("recommend", "v.", "Food"), VocabularyWord("spicy", "adj.", "Food"), VocabularyWord("vegetarian", "adj./n.", "Food")
  ]

  // Health
  const HealthWords: seq<VocabularyWord> := [
    VocabularyWord("allergy", "n.", "Health"), VocabularyWord("bandage", "n.", "Health"), VocabularyWord("cough", "n./v.", "Health"),
    VocabularyWord("diagnosis", "n.", "Health"), VocabularyWord("exercise", "n./v.", "Health"), VocabularyWord("fever", "n.", "Health"),
    VocabularyWord("headache", "n.", "Health"), VocabularyWord("medicine", "n.", "Health"), VocabularyWord("pharmacy", "n.", "Health"),
    VocabularyWord("prescription", "n.", "Health"), VocabularyWord("symptom", "n.", "Health")
  ]

  // Work & Business
  const WorkWords: seq<VocabularyWord> := [
    VocabularyWord("colleague", "n.", "Work"), VocabularyWord("deadline", "n.", "Work"), VocabularyWord("experience", "n.", "Work"),
    VocabularyWord("interview", "n./v.", "Work"), VocabularyWord("opportunity", "n.", "Work"), VocabularyWord("presentation", "n.", "Work"),
    VocabularyWord("professional", "adj./n.", "Work"), VocabularyWord("promotion", "n.", "Work"), VocabularyWord("salary", "n.", "Work"),
    VocabularyWord("supervisor", "n.", "Work")
  ]

  // Emotions & Descriptions
  const EmotionsWords: seq<VocabularyWord> := [
    VocabularyWord("anxious", "adj.", "Emotions"), VocabularyWord("confident", "adj.", "Emotions"), VocabularyWord("curious", "adj.", "Emotions"),
    VocabularyWord("disappointed", "adj.", "Emotions"), VocabularyWord("embarrassed", "adj.", "Emotions"), VocabularyWord("exhausted", "adj.", "Emotions"),
    VocabularyWord("frustrated", "adj.", "Emotions"), VocabularyWord("generous", "adj.", "Emotions"), VocabularyWord("grateful", "adj.", "Emotions"),
    VocabularyWord("impressed", "adj.", "Emotions"), VocabularyWord("nervous", "adj.", "Emotions"), VocabularyWord("patient", "adj.", "Emotions")
  ]

  // Education
  const EducationWords: seq<VocabularyWord> := [
    VocabularyWord("assignment", "n.", "Education"), VocabularyWord("certificate", "n.", "Education"), VocabularyWord("concentrate", "v.", "Education"),
    VocabularyWord("encyclopedia", "n.", "Education"), VocabularyWord("graduation", "n.", "Education"), VocabularyWord("knowledge", "n.", "Education"),
    VocabularyWord("memorize", "v.", "Education"), VocabularyWord("opportunity", "n.", "Education"), VocabularyWord("participate", "v.", "Education"),
    VocabularyWord("semester", "n.", "Education")
  ]

  // Technology
  const TechnologyWords: seq<VocabularyWord> := [
    VocabularyWord("application", "n.", "Technology"), VocabularyWord("battery", "n.", "Technology"), VocabularyWord("connection", "n.", "Technology"),
    VocabularyWord("device", "n.", "Technology"), VocabularyWord("download", "v./n.", "Technology"), VocabularyWord("keyboard", "n.", "Technology"),
    VocabularyWord("notification", "n.", "Technology"), VocabularyWord("password", "n.", "Technology"), VocabularyWord("software", "n.", "Technology"),
    VocabularyWord("website", "n.", "Technology")
  ]

  // Shopping
  const ShoppingWords: seq<VocabularyWord> := [
    VocabularyWord("bargain", "n./v.", "Shopping"), VocabularyWord("brand", "n.", "Shopping"), VocabularyWord("cashier", "n.", "Shopping"),
    VocabularyWord("discount", "n.", "Shopping"), VocabularyWord("exchange", "v./n.", "Shopping"), VocabularyWord("refund", "n./v.", "Shopping"),
    VocabularyWord("warranty", "n.", "Shopping")
  ]

  // Nature & Weather
  const NatureWords: seq<VocabularyWord> := [
    VocabularyWord("atmosphere", "n.", "Nature"), VocabularyWord("breeze", "n.", "Nature"), VocabularyWord("drought", "n.", "Nature"),
    VocabularyWord("forecast", "n./v.", "Nature"), VocabularyWord("humidity", "n.", "Nature"), VocabularyWord("lightning", "n.", "Nature"),
    VocabularyWord("scenery", "n.", "Nature"), VocabularyWord("sunset", "n.", "Nature"), VocabularyWord("temperature", "n.", "Nature"),
    VocabularyWord("volcano", "n.", "Nature")
  ]

  // Social & Communication
  const SocialWords: seq<VocabularyWord> := [
    VocabularyWord("apologize", "v.", "Social"), VocabularyWord("celebration", "n.", "Social"), VocabularyWord("compliment", "n./v.", "Social"),
    VocabularyWord("conversation", "n.", "Social"), VocabularyWord("encourage", "v.", "Social"), VocabularyWord("introduce", "v.", "Social"),
    VocabularyWord("invitation", "n.", "Social"), VocabularyWord("volunteer", "n./v.", "Social")
  ]

  // Transportation
  const TransportationWords: seq<VocabularyWord> := [
    VocabularyWord("commute", "n./v.", "Transport"), VocabularyWord("intersection", "n.", "Transport"), VocabularyWord("pedestrian", "n.", "Transport"),
    VocabularyWord("platform", "n.", "Transport"), VocabularyWord("route", "n.", "Transport"), VocabularyWord("traffic", "n.", "Transport")
  ]

  // Home & Living
  const HomeWords: seq<VocabularyWord> := [
    VocabularyWord("appliance", "n.", "Home"), VocabularyWord("basement", "n.", "Home"), VocabularyWord("ceiling", "n.", "Home"),
    VocabularyWord("furniture", "n.", "Home"), VocabularyWord("landlord", "n.", "Home"), VocabularyWord("maintenance", "n.", "Home"),
    VocabularyWord("renovation", "n.", "Home")
  ]

  // Entertainment
  const EntertainmentWords: seq<VocabularyWord> := [
    VocabularyWord("audience", "n.", "Entertainment"), VocabularyWord("documentary", "n.", "Entertainment"), VocabularyWord("exhibition", "n.", "Entertainment"),
    VocabularyWord("performance", "n.", "Entertainment"), VocabularyWord("rehearsal", "n.", "Entertainment"), VocabularyWord("spectacular", "adj.", "Entertainment")
  ]

  // Finance
  const FinanceWords: seq<VocabularyWord> := [
    VocabularyWord("account", "n.", "Finance"), VocabularyWord("budget", "n./v.", "Finance"), VocabularyWord("deposit", "n./v.", "Finance"),
    VocabularyWord("expense", "n.", "Finance"), VocabularyWord("investment", "n.", "Finance"), VocabularyWord("mortgage", "n.", "Finance")
  ]

  // Relationships
  const RelationshipsWords: seq<VocabularyWord> := [
    VocabularyWord("acquaintance", "n.", "Relationships"), VocabularyWord("companion", "n.", "Relationships"), VocabularyWord("considerate", "adj.", "Relationships"),
    VocabularyWord("dependable", "adj.", "Relationships"), VocabularyWord("sincere", "adj.", "Relationships")
  ]

  // Environment
  const EnvironmentWords: seq<VocabularyWord> := [
    VocabularyWord("conservation", "n.", "Environment"), VocabularyWord("pollution", "n.", "Environment"), VocabularyWord("recycle", "v.", "Environment"),
    VocabularyWord("sustainable", "adj.", "Environment")
  ]

  // Miscellaneous Useful Words
  const CommonWords: seq<VocabularyWord> := [
    VocabularyWord("absolutely", "adv.", "Common"), VocabularyWord("actually", "adv.", "Common"), VocabularyWord("approximately", "adv.", "Common"),
    VocabularyWord("definitely", "adv.", "Common"), VocabularyWord("essential", "adj.", "Common"), VocabularyWord("fortunately", "adv.", "Common"),
    VocabularyWord("immediately", "adv.", "Common"), VocabularyWord("obviously", "adv.", "Common"), VocabularyWord("probably", "adv.", "Common"),
    VocabularyWord("thoroughly", "adv.", "Common")
  ]

  /** A shuffle of `pool`: each draw takes the word at `draw % |remaining|`
    * out of the words not yet taken. */
  function Shuffled(pool: seq<VocabularyWord>, draws: seq<nat>): (r: seq<VocabularyWord>)
    requires |draws| == |pool|
    ensures |r| == |pool|
    ensures multiset(r) == multiset(pool)
    decreases |pool|
  {
    if pool == [] then []
    else
      var k := draws[0] % |pool|;
      var rest := pool[..k] + pool[k + 1..];
      assert pool == pool[..k] + [pool[k]] + pool[k + 1..];
      [pool[k]] + Shuffled(rest, draws[1..])
  }

  /** `shuffled(random).take(DAILY_WORD_COUNT)` on a word list. */
  function Sheet(pool: seq<VocabularyWord>, draws: seq<nat>): (r: seq<VocabularyWord>)
    requires |draws| == |pool|
    ensures |r| == if |pool| < DailyWordCount then |pool| else DailyWordCount
    ensures multiset(r) <= multiset(pool)
  {
    var shuffled := Shuffled(pool, draws);
    TakeSubMultiset(shuffled, DailyWordCount);
    Take(shuffled, DailyWordCount)
  }

  /** `generateForDate(date)`: `draws(epochDay)` stands for what the `Random`
    * seeded with the epoch day decides. */
  function GenerateForDate(epochDay: int, draws: int -> seq<nat>): (r: seq<VocabularyWord>)
    requires |draws(epochDay)| == |AllWords|
    ensures |r| == DailyWordCount
    ensures multiset(r) <= multiset(AllWords)
  {
    AllWordsSize();
    Sheet(AllWords, draws(epochDay))
  }

  /** `generateForToday()`: the sheet of today's date. */
  function GenerateForToday(today: int, draws: int -> seq<nat>): (r: seq<VocabularyWord>)
    requires |draws(today)| == |AllWords|
    ensures r == GenerateForDate(today, draws)
  {
    GenerateForDate(today, draws)
  }

  /** The list holds 158 entries. */
  lemma AllWordsSize()
    ensures |AllWords| == 158
  {
  }

  /** Entries are not unique by word: "temperature" and "opportunity" each
    * appear twice, under different categories. */
  lemma RepeatedWords()
    ensures AllWords[13].word == AllWords[104].word == "temperature"
    ensures AllWords[51].word == AllWords[76].word == "opportunity"
    ensures AllWords[13].category != AllWords[104].category
    ensures AllWords[51].category != AllWords[76].category
  {
    assert |AllWords[13].category| == 10 && |AllWords[104].category| == 6;
    assert |AllWords[51].category| == 4 && |AllWords[76].category| == 9;
  }

  /** Taking entry `i` first and then the old entry `j` (now at `j - 1`)
    * puts those two entries at the head of the shuffle. */
  lemma {:induction false} FirstTwoDraws(pool: seq<VocabularyWord>, draws: seq<nat>, i: nat, j: nat)
    requires |draws| == |pool| && i < j < |pool|
    requires draws[0] == i && draws[1] == j - 1
    ensures Shuffled(pool, draws)[0] == pool[i] && Shuffled(pool, draws)[1] == pool[j]
  {
    var rest := pool[..i] + pool[i + 1..];
    var more := draws[1..];
    SmallMod(i, |pool|);
    assert Shuffled(pool, draws) == [pool[i]] + Shuffled(rest, more);
    assert |rest| == |pool| - 1 && more[0] == j - 1;
    SmallMod(j - 1, |rest|);
    assert rest[j - 1] == pool[j];
    assert Shuffled(rest, more)[0] == rest[j - 1];
  }

  /** The same two draws put the same two entries at the head of a sheet. */
  lemma SheetFirstTwo(pool: seq<VocabularyWord>, draws: seq<nat>, i: nat, j: nat)
    requires |draws| == |pool| && i < j < |pool|
    requires draws[0] == i && draws[1] == j - 1
    ensures Sheet(pool, draws)[0] == pool[i] && Sheet(pool, draws)[1] == pool[j]
  {
    FirstTwoDraws(pool, draws, i, j);
  }

  lemma SmallMod(a: nat, n: nat)
    requires a < n
    ensures a % n == a
  {
  }

  /** A sheet can therefore show the same word twice. */
  lemma SheetCanRepeatAWord(draws: int -> seq<nat>, epochDay: int)
    requires |draws(epochDay)| == |AllWords|
    requires draws(epochDay)[0] == 13 && draws(epochDay)[1] == 103
    ensures GenerateForDate(epochDay, draws)[0].word == GenerateForDate(epochDay, draws)[1].word
  {
    RepeatedWords();
    SheetFirstTwo(AllWords, draws(epochDay), 13, 104);
  }
}
