// The translation screen (ui/screens/translation/TranslationViewModel.kt): one
// screen state holding the input, the two languages, the result and a history
// of the last twenty translations, newest first. The service call is the
// parameter `api` of the translation call; cancelling an earlier call still
// running is left out.
module TranslationScreen {
  import Wrappers
  import opened Text
  import opened Lists
  import Translation

  datatype Language = Language(code: string, name: string, flag: string)

  /** `supportedLanguages`. */
  const SupportedLanguages: seq<Language> := [
    Language("en", "English", "\U{1F1FA}\U{1F1F8}"),
    Language("zh-TW", "Chinese (Traditional)", "\U{1F1F9}\U{1F1FC}"),
    Language("zh-CN", "Chinese (Simplified)", "\U{1F1E8}\U{1F1F3}"),
    Language("ja", "Japanese", "\U{1F1EF}\U{1F1F5}"),
    Language("ko", "Korean", "\U{1F1F0}\U{1F1F7}"),
    Language("es", "Spanish", "\U{1F1EA}\U{1F1F8}"),
    Language("fr", "French", "\U{1F1EB}\U{1F1F7}"),
    Language("de", "German", "\U{1F1E9}\U{1F1EA}"),
    Language("pt", "Portuguese", "\U{1F1E7}\U{1F1F7}"),
    Language("it", "Italian", "\U{1F1EE}\U{1F1F9}"),
    Language("th", "Thai", "\U{1F1F9}\U{1F1ED}"),
    Language("vi", "Vietnamese", "\U{1F1FB}\U{1F1F3}"),
    Language("ru", "Russian", "\U{1F1F7}\U{1F1FA}"),
    Language("ar", "Arabic", "\U{1F1F8}\U{1F1E6}"),
    Language("hi", "Hindi", "\U{1F1EE}\U{1F1F3}")
  ]

  datatype TranslationUiState =
    | Idle
    | Loading
    | Success(result: string, alternativeMeanings: seq<string>,
              exampleSentences: seq<Translation.ExampleSentence>)
    | Error(message: string)

  datatype TranslationHistoryItem = TranslationHistoryItem(
    sourceText: string, translatedText: string, sourceLang: Language, targetLang: Language)

  datatype TranslationScreenState = TranslationScreenState(
    inputText: string,
    sourceLang: Language,
    targetLang: Language,
    uiState: TranslationUiState,
    history: seq<TranslationHistoryItem>)

  const MaxHistory: nat := 20

  /** `TranslationScreenState()`: English to Traditional Chinese, nothing else. */
  function InitialState(): TranslationScreenState {
    TranslationScreenState("", SupportedLanguages[0], SupportedLanguages[1], Idle, [])
  }

  /** `listOf(item) + history.take(19)`. */
  function Pushed(item: TranslationHistoryItem, history: seq<TranslationHistoryItem>): (r: seq<TranslationHistoryItem>)
    ensures |r| <= MaxHistory
    ensures |history| < MaxHistory ==> |r| == |history| + 1
  {
    [item] + Take(history, MaxHistory - 1)
  }

  /** The history after translating each item of `items` in turn. */
  function PushedAll(history: seq<TranslationHistoryItem>, items: seq<TranslationHistoryItem>): seq<TranslationHistoryItem>
    decreases |items|
  {
    if items == [] then history else PushedAll(Pushed(items[0], history), items[1..])
  }

  function Reversed<T>(s: seq<T>): (r: seq<T>)
    ensures |r| == |s|
    ensures forall i :: 0 <= i < |s| ==> r[i] == s[|s| - 1 - i]
    decreases |s|
  {
    if s == [] then [] else Reversed(s[1..]) + [s[0]]
  }

  /** `error.message ?: "Translation failed"`. */
  function ErrorMessage(message: Wrappers.Option<string>): string {
    if message.Some? then message.value else "Translation failed"
  }

  /** `swapLanguages`. */
  function Swapped(s: TranslationScreenState): TranslationScreenState {
    s.(sourceLang := s.targetLang, targetLang := s.sourceLang,
       inputText := if s.uiState.Success? then s.uiState.result else s.inputText,
       uiState := Idle)
  }

  // ---------------------------------------------------------------------------
  // Properties

  /** The initial state translates English into Traditional Chinese. */
  lemma InitialLanguages()
    ensures InitialState().sourceLang.code == "en" && InitialState().targetLang.code == "zh-TW"
    ensures InitialState().inputText == "" && InitialState().uiState == Idle && InitialState().history == []
  {
  }

  /** Swapping exchanges the languages, so swapping twice restores them;
    * after one swap the input is the shown result, if there was one, and
    * after the second it stays. */
  lemma SwapTwice(s: TranslationScreenState)
    ensures Swapped(s).sourceLang == s.targetLang && Swapped(s).targetLang == s.sourceLang
    ensures Swapped(s).uiState == Idle && Swapped(s).history == s.history
    ensures Swapped(s).inputText == if s.uiState.Success? then s.uiState.result else s.inputText
    ensures Swapped(Swapped(s)).sourceLang == s.sourceLang && Swapped(Swapped(s)).targetLang == s.targetLang
    ensures Swapped(Swapped(s)).inputText == Swapped(s).inputText && Swapped(Swapped(s)).history == s.history
  {
  }

  /** A push puts the item in front and keeps the twenty newest. */
  lemma PushedKeepsNewest(item: TranslationHistoryItem, history: seq<TranslationHistoryItem>)
    ensures Pushed(item, history) == Take([item] + history, MaxHistory)
  {
    var r, t := Pushed(item, history), Take([item] + history, MaxHistory);
    assert |r| == |t|;
    forall i | 0 <= i < |r| ensures r[i] == t[i] {
      if i > 0 {
        assert r[i] == history[i - 1];
      }
    }
  }

  /** Translating many texts leaves the twenty newest, newest first. */
  lemma {:induction false} PushedAllKeepsNewest(history: seq<TranslationHistoryItem>, items: seq<TranslationHistoryItem>)
    requires |history| <= MaxHistory
    ensures PushedAll(history, items) == Take(Reversed(items) + history, MaxHistory)
    decreases |items|
  {
    if items == [] {
      assert Reversed(items) + history == history;
    } else {
      var h := Pushed(items[0], history);
      PushedAllKeepsNewest(h, items[1..]);
      assert Reversed(items) == Reversed(items[1..]) + [items[0]];
      var all := Reversed(items) + history;
      var viaPush := Reversed(items[1..]) + h;
      PushedKeepsNewest(items[0], history);
      TakeOfTake([items[0]] + history, MaxHistory);
      assert all == Reversed(items[1..]) + ([items[0]] + history);
      TakeAfterPrefix(Reversed(items[1..]), h, [items[0]] + history, MaxHistory);
    }
  }

  lemma TakeOfTake<T>(s: seq<T>, n: nat)
    ensures Take(Take(s, n), n) == Take(s, n)
  {
  }

  /** Two sequences agreeing on their first n elements agree on them behind
    * any common prefix. */
  lemma TakeAfterPrefix<T>(p: seq<T>, a: seq<T>, b: seq<T>, n: nat)
    requires Take(a, n) == Take(b, n)
    ensures Take(p + a, n) == Take(p + b, n)
  {
    var x, y := Take(p + a, n), Take(p + b, n);
    assert |x| == |y|;
    forall i | 0 <= i < |x| ensures x[i] == y[i] {
      if i >= |p| {
        assert x[i] == a[i - |p|] && y[i] == b[i - |p|];
        assert Take(a, n)[i - |p|] == Take(b, n)[i - |p|];
      }
    }
  }

  // ---------------------------------------------------------------------------
  // The view-model

  class TranslationViewModel {
    var state: TranslationScreenState

    ghost predicate Valid()
      reads this
    {
      |state.history| <= MaxHistory
    }

    constructor()
      ensures Valid() && state == InitialState()
    {
      state := InitialState();
    }

    method UpdateInputText(text: string)
      modifies this
      ensures state == old(state).(inputText := text)
    {
      state := state.(inputText := text);
    }

    method SetSourceLang(lang: Language)
      modifies this
      ensures state == old(state).(sourceLang := lang)
    {
      state := state.(sourceLang := lang);
    }

    method SetTargetLang(lang: Language)
      modifies this
      ensures state == old(state).(targetLang := lang)
    {
      state := state.(targetLang := lang);
    }

    method SwapLanguages()
      modifies this
      ensures state == Swapped(old(state))
    {
      var current := state;
      var input := current.inputText;
      if current.uiState.Success? {
        input := current.uiState.result;
      }
      state := current.(sourceLang := current.targetLang, targetLang := current.sourceLang,
                        inputText := input, uiState := Idle);
    }

    /** `translate`: blank input does nothing; otherwise the service's answer
      * is shown, and a successful one joins the front of the history. */
    method Translate(api: (string, string) -> Translation.ApiReply)
      requires Valid()
      modifies this
      ensures Valid()
      ensures IsBlank(old(state).inputText) ==> state == old(state)
      ensures !IsBlank(old(state).inputText) ==>
        var before := old(state);
        var outcome := Translation.TranslateText(before.inputText, before.sourceLang.code, before.targetLang.code, api);
        && state.inputText == before.inputText
        && state.sourceLang == before.sourceLang && state.targetLang == before.targetLang
        && (outcome.Translated? ==>
              && state.uiState == Success(outcome.result.translatedText, outcome.result.alternativeMeanings,
                                          outcome.result.exampleSentences)
              && state.history == Pushed(TranslationHistoryItem(before.inputText, outcome.result.translatedText,
                                                                before.sourceLang, before.targetLang),
                                         before.history))
        && (outcome.Failed? ==>
              state.uiState == Error(ErrorMessage(outcome.message)) && state.history == before.history)
    {
      var current := state;
      if IsBlank(current.inputText) {
        return;
      }
      state := current.(uiState := Loading);
      var outcome := Translation.TranslateText(current.inputText, current.sourceLang.code, current.targetLang.code, api);
      match outcome {
        case Translated(result) =>
          var item := TranslationHistoryItem(current.inputText, result.translatedText,
                                             current.sourceLang, current.targetLang);
          state := state.(uiState := Success(result.translatedText, result.alternativeMeanings, result.exampleSentences),
                          history := Pushed(item, state.history));
        case Failed(message) =>
          state := state.(uiState := Error(ErrorMessage(message)));
      }
    }

    method ClearInput()
      modifies this
      ensures state == old(state).(inputText := "", uiState := Idle)
    {
      state := state.(inputText := "", uiState := Idle);
    }

    /** `loadFromHistory`: the item's text and languages, its stored result
      * shown without alternatives or examples. */
    method LoadFromHistory(item: TranslationHistoryItem)
      modifies this
      ensures state == old(state).(inputText := item.sourceText, sourceLang := item.sourceLang,
                                   targetLang := item.targetLang,
                                   uiState := Success(item.translatedText, [], []))
    {
      state := state.(inputText := item.sourceText, sourceLang := item.sourceLang,
                      targetLang := item.targetLang, uiState := Success(item.translatedText, [], []));
    }
  }
}
