// The dialogue practice screen (ui/screens/conversation/ConversationViewModel.kt):
// a conversation shown line by line, with a translation switch, loaded either
// from the stored conversations (PRESET) or from the random generator
// (RANDOM). The database read is a parameter: the conversation found (or
// none), or the message of the exception it raised.
module ConversationScreen {
  import Wrappers
  import opened RandomConversation

  datatype ConversationMode = Preset | Random

  datatype ConversationUiState =
    | Loading
    | Success(conversation: Conversation, lines: seq<ConversationLine>, revealedCount: int,
              showTranslation: bool, mode: ConversationMode)
    | Error(message: string)

  /** A stored conversation with its lines. */
  datatype StoredConversation = StoredConversation(conversation: Conversation, lines: seq<ConversationLine>)

  /** What the database read gave: the conversation found (or none), or an
    * exception with its possibly null message. */
  datatype PresetFetch = Fetched(row: Wrappers.Option<StoredConversation>) | Threw(message: Wrappers.Option<string>)

  /** The reveal counter lies between 0 and the number of lines. */
  predicate InRange(s: ConversationUiState) {
    s.Success? ==> 0 <= s.revealedCount <= |s.lines|
  }

  // ---------------------------------------------------------------------------
  // The state updates, as functions of the state

  /** `revealNextLine`. */
  function RevealNext(s: ConversationUiState): ConversationUiState {
    if s.Success? && s.revealedCount < |s.lines| then s.(revealedCount := s.revealedCount + 1) else s
  }

  /** `toggleTranslation`. */
  function Toggle(s: ConversationUiState): ConversationUiState {
    if s.Success? then s.(showTranslation := !s.showTranslation) else s
  }

  /** `resetConversation`. */
  function Reset(s: ConversationUiState): ConversationUiState {
    if s.Success? then s.(revealedCount := 0, showTranslation := false) else s
  }

  /** The state `loadRandomConversation` ends in for what the database gave. */
  function PresetLoaded(fetched: PresetFetch): ConversationUiState {
    match fetched
    case Threw(m) => Error("載入失敗: " + (if m.Some? then m.value else "null"))
    case Fetched(None) => Error("沒有可用的對話")
    case Fetched(Some(c)) => Success(c.conversation, c.lines, 0, false, Preset)
  }

  /** The state `loadGeneratedConversation` ends in. */
  function GeneratedLoaded(g: GeneratedConversation): ConversationUiState {
    Success(g.conversation, g.lines, 0, false, Random)
  }

  // ---------------------------------------------------------------------------
  // Properties

  /** A reveal adds exactly one line while some line is hidden; once all lines
    * are shown, or without a conversation, it changes nothing. */
  lemma RevealStep(s: ConversationUiState)
    requires InRange(s)
    ensures InRange(RevealNext(s))
    ensures RevealNext(s) == s <==> !s.Success? || s.revealedCount == |s.lines|
    ensures s.Success? && s.revealedCount < |s.lines| ==>
      RevealNext(s).Success? && RevealNext(s).revealedCount == s.revealedCount + 1 &&
      RevealNext(s).lines == s.lines && RevealNext(s).conversation == s.conversation &&
      RevealNext(s).showTranslation == s.showTranslation && RevealNext(s).mode == s.mode
  {
  }

  /** n reveals show n more lines, up to all of them. */
  lemma {:induction false} RevealMany(s: ConversationUiState, n: nat)
    requires s.Success? && 0 <= s.revealedCount <= |s.lines|
    ensures var r := RevealTimes(s, n);
      r.Success? && r.lines == s.lines &&
      r.revealedCount == if s.revealedCount + n <= |s.lines| then s.revealedCount + n else |s.lines|
    decreases n
  {
    if n > 0 {
      RevealMany(RevealNext(s), n - 1);
    }
  }

  /** `revealNextLine` applied n times. */
  function RevealTimes(s: ConversationUiState, n: nat): ConversationUiState
    decreases n
  {
    if n == 0 then s else RevealTimes(RevealNext(s), n - 1)
  }

  /** Toggling twice restores the state; toggling keeps every other field. */
  lemma ToggleTwice(s: ConversationUiState)
    ensures Toggle(Toggle(s)) == s
    ensures s.Success? ==> Toggle(s) == s.(showTranslation := !s.showTranslation)
    ensures !s.Success? ==> Toggle(s) == s
  {
  }

  /** A reset hides every line and the translation and keeps the
    * conversation, its lines and its mode; reveals and toggles before a reset
    * make no difference. */
  lemma ResetForgets(s: ConversationUiState)
    ensures InRange(Reset(s))
    ensures Reset(Reset(s)) == Reset(s)
    ensures Reset(RevealNext(s)) == Reset(s)
    ensures Reset(Toggle(s)) == Reset(s)
    ensures s.Success? ==>
      && Reset(s).Success? && Reset(s).revealedCount == 0 && !Reset(s).showTranslation
      && Reset(s).conversation == s.conversation && Reset(s).lines == s.lines && Reset(s).mode == s.mode
    ensures !s.Success? ==> Reset(s) == s
  {
  }

  /** A load starts from the top, translation hidden, in its own mode. */
  lemma LoadsStartHidden(fetched: PresetFetch, g: GeneratedConversation)
    ensures InRange(PresetLoaded(fetched)) && InRange(GeneratedLoaded(g))
    ensures PresetLoaded(fetched).Success? <==> fetched.Fetched? && fetched.row.Some?
    ensures PresetLoaded(fetched).Success? ==>
      PresetLoaded(fetched).revealedCount == 0 && !PresetLoaded(fetched).showTranslation &&
      PresetLoaded(fetched).mode == Preset
    ensures GeneratedLoaded(g).Success? && GeneratedLoaded(g).revealedCount == 0 &&
      !GeneratedLoaded(g).showTranslation && GeneratedLoaded(g).mode == Random &&
      GeneratedLoaded(g).lines == g.lines
  {
  }

  // ---------------------------------------------------------------------------
  // The view-model

  /** `ConversationViewModel` with its `_uiState` and `_mode` fields. A load
    * takes what the database or the generator produced. */
  class ConversationViewModel {
    var uiState: ConversationUiState
    var mode: ConversationMode

    ghost predicate Valid()
      reads this
    {
      InRange(uiState)
    }

    /** `init` loads a stored conversation. */
    constructor(fetched: PresetFetch)
      ensures Valid()
      ensures mode == Preset && uiState == PresetLoaded(fetched)
    {
      mode := Preset;
      uiState := Loading;
      new;
      LoadRandomConversation(fetched);
    }

    method LoadRandomConversation(fetched: PresetFetch)
      modifies this
      ensures Valid()
      ensures uiState == PresetLoaded(fetched) && mode == old(mode)
    {
      uiState := Loading;
      uiState := PresetLoaded(fetched);
    }

    /** `loadGeneratedConversation` with the generator's choices. */
    method LoadGeneratedConversation(choice: nat, draw: int, picks: seq<nat>)
      requires 1 <= draw < 100000 && |picks| == 8
      modifies this
      ensures Valid()
      ensures uiState == GeneratedLoaded(Generate(choice, draw, picks)) && mode == old(mode)
      ensures uiState.Success? && |uiState.lines| == 8 && uiState.mode == Random
    {
      uiState := Loading;
      var generated := Generate(choice, draw, picks);
      uiState := GeneratedLoaded(generated);
    }

    /** `switchMode`: record the mode, then load from its source. */
    method SwitchMode(newMode: ConversationMode, fetched: PresetFetch,
                      choice: nat, draw: int, picks: seq<nat>)
      requires 1 <= draw < 100000 && |picks| == 8
      modifies this
      ensures Valid()
      ensures mode == newMode
      ensures newMode == Preset ==> uiState == PresetLoaded(fetched)
      ensures newMode == Random ==> uiState == GeneratedLoaded(Generate(choice, draw, picks))
    {
      mode := newMode;
      match newMode {
        case Preset => LoadRandomConversation(fetched);
        case Random => LoadGeneratedConversation(choice, draw, picks);
      }
    }

    /** `loadNext`: another conversation from the current mode's source. */
    method LoadNext(fetched: PresetFetch,
                    choice: nat, draw: int, picks: seq<nat>)
      requires 1 <= draw < 100000 && |picks| == 8
      modifies this
      ensures Valid()
      ensures mode == old(mode)
      ensures mode == Preset ==> uiState == PresetLoaded(fetched)
      ensures mode == Random ==> uiState == GeneratedLoaded(Generate(choice, draw, picks))
    {
      match mode {
        case Preset => LoadRandomConversation(fetched);
        case Random => LoadGeneratedConversation(choice, draw, picks);
      }
    }

    method RevealNextLine()
      requires Valid()
      modifies this
      ensures Valid()
      ensures uiState == RevealNext(old(uiState)) && mode == old(mode)
    {
      var current := uiState;
      if current.Success? {
        if current.revealedCount < |current.lines| {
          uiState := current.(revealedCount := current.revealedCount + 1);
        }
      }
    }

    method ToggleTranslation()
      requires Valid()
      modifies this
      ensures Valid()
      ensures uiState == Toggle(old(uiState)) && mode == old(mode)
    {
      var current := uiState;
      if current.Success? {
        uiState := current.(showTranslation := !current.showTranslation);
      }
    }

    method ResetConversation()
      modifies this
      ensures Valid()
      ensures uiState == Reset(old(uiState)) && mode == old(mode)
    {
      var current := uiState;
      if current.Success? {
        uiState := current.(revealedCount := 0, showTranslation := false);
      }
    }
  }
}
