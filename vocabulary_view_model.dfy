// The vocabulary screen (ui/screens/vocabulary/VocabularyViewModel.kt): the
// day's generated words, the user's own words, which card is open, which tab
// is shown and whether the add dialog is up. The injected generator is the
// word list it shuffles (`DailyVocabulary.AllWords` in the app); the date, the
// seeded draws and the creation instant of a new word are parameters; the
// formatted date label is left out.
module VocabularyScreen {
  import opened Wrappers
  import opened Text
  import DailyVocabulary
  import opened CustomWords

  datatype VocabularyTab = Daily | MyWords

  /** `toggleExpanded(index)` on the open card. */
  function Toggled(expandedIndex: Option<int>, index: int): Option<int> {
    if expandedIndex == Some(index) then None else Some(index)
  }

  /** The word `addCustomWord` stores: every field trimmed, the defaults for
    * the rest, no id yet. */
  function NewCustomWord(word: string, meaningEn: string, meaningZh: string, partOfSpeech: string,
                         exampleSentence: string, exampleZh: string, now: int): CustomWord
  {
    CustomWord(0, Trim(word), Trim(partOfSpeech), "", Trim(meaningEn), Trim(meaningZh),
               Trim(exampleSentence), Trim(exampleZh), "My Words", now)
  }

  // ---------------------------------------------------------------------------
  // Properties

  /** Toggling opens the card, or closes it when it was the open one; so
    * toggling the same card twice restores the state. */
  lemma ToggleTwice(expandedIndex: Option<int>, index: int)
    ensures Toggled(expandedIndex, index) == Some(index) <==> expandedIndex != Some(index)
    ensures Toggled(Toggled(expandedIndex, index), index) ==
      if expandedIndex == Some(index) then Some(index) else None
    ensures expandedIndex == None || expandedIndex == Some(index) ==>
      Toggled(Toggled(expandedIndex, index), index) == expandedIndex
  {
  }

  /** A stored word has a non-empty, trimmed word and trimmed fields. */
  lemma NewWordTrimmed(word: string, meaningEn: string, meaningZh: string, partOfSpeech: string,
                       exampleSentence: string, exampleZh: string, now: int)
    requires !IsBlank(word)
    ensures var w := NewCustomWord(word, meaningEn, meaningZh, partOfSpeech, exampleSentence, exampleZh, now);
      && w.word != [] && Trim(w.word) == w.word
      && Trim(w.meaningEn) == w.meaningEn && Trim(w.meaningZh) == w.meaningZh
      && Trim(w.partOfSpeech) == w.partOfSpeech && Trim(w.exampleSentence) == w.exampleSentence
      && Trim(w.exampleZh) == w.exampleZh
      && w.category == "My Words" && w.createdAt == now
  {
    BlankIffTrimEmpty(word);
    TrimOfTrimmed(Trim(word));
    TrimOfTrimmed(Trim(meaningEn));
    TrimOfTrimmed(Trim(meaningZh));
    TrimOfTrimmed(Trim(partOfSpeech));
    TrimOfTrimmed(Trim(exampleSentence));
    TrimOfTrimmed(Trim(exampleZh));
  }

  // ---------------------------------------------------------------------------
  // The view-model

  class VocabularyViewModel {
    const customWordRepository: CustomWordDao
    /** The list the injected `DailyVocabularyGenerator` shuffles. */
    const generatorWords: seq<DailyVocabulary.VocabularyWord>
    var words: seq<DailyVocabulary.VocabularyWord>
    var customWords: seq<CustomWord>
    var expandedIndex: Option<int>
    var currentTab: VocabularyTab
    var showAddDialog: bool

    ghost predicate Valid()
      reads this, customWordRepository
    {
      customWordRepository.Valid()
    }

    /** `init`: today's words, then the stored words as first listed. */
    constructor(generator: seq<DailyVocabulary.VocabularyWord>, repository: CustomWordDao,
                today: int, draws: int -> seq<nat>)
      requires repository.Valid()
      requires |draws(today)| == |generator|
      ensures customWordRepository == repository && generatorWords == generator && Valid()
      ensures words == DailyVocabulary.Sheet(generator, draws(today))
      ensures customWords == AllWords(repository.rows)
      ensures expandedIndex == None && currentTab == Daily && !showAddDialog
    {
      customWordRepository := repository;
      generatorWords := generator;
      words := [];
      customWords := [];
      expandedIndex := None;
      currentTab := Daily;
      showAddDialog := false;
      new;
      LoadTodayWords(today, draws);
      CollectCustomWords();
    }

    /** `loadTodayWords` (and `refresh`): `generateForDate(today)` on the
      * generator's list, every card closed. */
    method LoadTodayWords(today: int, draws: int -> seq<nat>)
      requires |draws(today)| == |generatorWords|
      modifies this
      ensures words == DailyVocabulary.Sheet(generatorWords, draws(today)) && expandedIndex == None
      ensures customWords == old(customWords) && currentTab == old(currentTab)
      ensures showAddDialog == old(showAddDialog)
    {
      words := DailyVocabulary.Sheet(generatorWords, draws(today));
      expandedIndex := None;
    }

    /** One emission of `getAllWords()` reaching the collector. */
    method CollectCustomWords()
      modifies this
      ensures customWords == AllWords(customWordRepository.rows)
      ensures words == old(words) && expandedIndex == old(expandedIndex)
      ensures currentTab == old(currentTab) && showAddDialog == old(showAddDialog)
    {
      customWords := AllWords(customWordRepository.rows);
    }

    method SwitchTab(tab: VocabularyTab)
      modifies this
      ensures currentTab == tab && expandedIndex == None
      ensures words == old(words) && customWords == old(customWords) && showAddDialog == old(showAddDialog)
    {
      currentTab := tab;
      expandedIndex := None;
    }

    method ToggleExpanded(index: int)
      modifies this
      ensures expandedIndex == Toggled(old(expandedIndex), index)
      ensures words == old(words) && customWords == old(customWords)
      ensures currentTab == old(currentTab) && showAddDialog == old(showAddDialog)
    {
      if expandedIndex == Some(index) {
        expandedIndex := None;
      } else {
        expandedIndex := Some(index);
      }
    }

    method ShowAddDialog()
      modifies this
      ensures showAddDialog
      ensures words == old(words) && customWords == old(customWords)
      ensures expandedIndex == old(expandedIndex) && currentTab == old(currentTab)
    {
      showAddDialog := true;
    }

    method HideAddDialog()
      modifies this
      ensures !showAddDialog
      ensures words == old(words) && customWords == old(customWords)
      ensures expandedIndex == old(expandedIndex) && currentTab == old(currentTab)
    {
      showAddDialog := false;
    }

    /** `addCustomWord`: a blank word is ignored; otherwise the trimmed word
      * is stored under a fresh id and the dialog closes. */
    method AddCustomWord(word: string, meaningEn: string, meaningZh: string, partOfSpeech: string,
                         exampleSentence: string, exampleZh: string, now: int)
      requires Valid()
      modifies this, customWordRepository
      ensures Valid()
      ensures IsBlank(word) ==>
        customWordRepository.rows == old(customWordRepository.rows) &&
        customWordRepository.lastId == old(customWordRepository.lastId) &&
        showAddDialog == old(showAddDialog)
      ensures !IsBlank(word) ==>
        && customWordRepository.lastId == old(customWordRepository.lastId) + 1
        && customWordRepository.rows == WithoutId(old(customWordRepository.rows), customWordRepository.lastId) +
             [NewCustomWord(word, meaningEn, meaningZh, partOfSpeech, exampleSentence, exampleZh, now)
                .(id := customWordRepository.lastId)]
        && !showAddDialog
      ensures words == old(words) && customWords == old(customWords)
      ensures expandedIndex == old(expandedIndex) && currentTab == old(currentTab)
    {
      if IsBlank(word) {
        return;
      }
      var w := NewCustomWord(word, meaningEn, meaningZh, partOfSpeech, exampleSentence, exampleZh, now);
      var id := customWordRepository.Insert(w);
      showAddDialog := false;
    }

    method DeleteCustomWord(word: CustomWord)
      requires Valid()
      modifies customWordRepository
      ensures Valid()
      ensures customWordRepository.rows == WithoutId(old(customWordRepository.rows), word.id)
    {
      customWordRepository.Delete(word);
    }
  }
}
