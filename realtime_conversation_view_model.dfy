// The spoken chat screen
// (ui/screens/realtimeconversation/RealTimeConversationViewModel.kt): a
// message log that starts with the topic's greeting and grows by the user's
// recognised sentence and the engine's reply, a screen state cycling through
// Idle, Listening, Processing and Speaking, the partial recognition text and
// a translation switch. The recogniser's callbacks are methods taking what it
// reported; message ids and timestamps come from the clock and are left out.
module RealTimeConversation {
  import opened Text
  import opened ConversationEngine

  datatype ChatMessage = ChatMessage(text: string, textZh: string, isUser: bool)

  datatype RealTimeConversationUiState = Idle | Listening | Processing | Speaking

  /** The opening message: the topic's greeting from the bot. */
  function GreetingMessage(t: Topic): ChatMessage {
    ChatMessage(t.greeting, t.greetingZh, false)
  }

  /** The history handed to the engine: the texts of the bot's messages. */
  function BotTexts(ms: seq<ChatMessage>): (r: seq<string>)
    ensures |r| <= |ms|
  {
    if ms == [] then []
    else BotTexts(ms[..|ms| - 1]) + (if ms[|ms| - 1].isUser then [] else [ms[|ms| - 1].text])
  }

  /** The log after a non-blank sentence: the user's message, then the reply. */
  function AfterSpeech(ms: seq<ChatMessage>, recognizedText: string, reply: Reply): seq<ChatMessage> {
    ms + [ChatMessage(recognizedText, "", true), ChatMessage(reply.en, reply.zh, false)]
  }

  /** A log as the screen builds it: every user message is followed at once
    * by a bot reply. */
  ghost predicate WellFormedLog(ms: seq<ChatMessage>) {
    forall k :: 0 <= k < |ms| && ms[k].isUser ==> k + 1 < |ms| && !ms[k + 1].isUser
  }

  /** The first recognition result, or "" without one (`firstOrNull() ?: ""`). */
  function FirstOrEmpty(matches: seq<string>): string {
    if matches == [] then "" else matches[0]
  }

  // ---------------------------------------------------------------------------
  // Properties

  /** A greeting alone, and a well-formed log extended by a sentence and its
    * reply, are well-formed. */
  lemma LogStaysWellFormed(ms: seq<ChatMessage>, t: Topic, recognizedText: string, reply: Reply)
    ensures WellFormedLog([GreetingMessage(t)])
    ensures WellFormedLog(ms) ==> WellFormedLog(AfterSpeech(ms, recognizedText, reply))
  {
    if WellFormedLog(ms) {
      var r := AfterSpeech(ms, recognizedText, reply);
      forall k | 0 <= k < |r| && r[k].isUser
        ensures k + 1 < |r| && !r[k + 1].isUser
      {
        if k < |ms| {
          assert r[k] == ms[k];
          if k + 1 < |ms| {
            assert r[k + 1] == ms[k + 1];
          }
        } else {
          assert k == |ms|;
        }
      }
    }
  }

  /** A sentence adds two messages and keeps the earlier ones; the user's
    * message adds nothing to the history, the reply adds its English text. */
  lemma {:induction false} SpeechAddsTwo(ms: seq<ChatMessage>, recognizedText: string, reply: Reply)
    ensures var r := AfterSpeech(ms, recognizedText, reply);
      && |r| == |ms| + 2
      && r[..|ms|] == ms
      && r[|ms|] == ChatMessage(recognizedText, "", true)
      && r[|ms| + 1] == ChatMessage(reply.en, reply.zh, false)
      && BotTexts(ms + [ChatMessage(recognizedText, "", true)]) == BotTexts(ms)
      && BotTexts(r) == BotTexts(ms) + [reply.en]
  {
    var u := ms + [ChatMessage(recognizedText, "", true)];
    var r := AfterSpeech(ms, recognizedText, reply);
    assert u[..|u| - 1] == ms;
    assert r[..|r| - 1] == u;
  }

  // ---------------------------------------------------------------------------
  // The view-model

  class RealTimeConversationViewModel {
    const engine: Engine
    var messages: seq<ChatMessage>
    var uiState: RealTimeConversationUiState
    var partialText: string
    var currentTopic: Topic
    var showTranslation: bool

    /** The screen's topic is the engine's, and the log is well-formed. */
    ghost predicate Valid()
      reads this, engine
    {
      currentTopic == engine.currentTopic && WellFormedLog(messages)
    }

    constructor(conversationEngine: Engine)
      ensures engine == conversationEngine
      ensures Valid()
      ensures messages == [] && uiState == Idle && partialText == ""
      ensures currentTopic == conversationEngine.currentTopic && showTranslation
    {
      engine := conversationEngine;
      messages := [];
      uiState := Idle;
      partialText := "";
      currentTopic := conversationEngine.currentTopic;
      showTranslation := true;
    }

    /** `startNewConversation`: the log is the current topic's greeting alone. */
    method StartNewConversation()
      modifies this
      ensures Valid()
      ensures currentTopic == engine.currentTopic
      ensures messages == [GreetingMessage(currentTopic)]
      ensures uiState == Idle && partialText == "" && showTranslation == old(showTranslation)
    {
      var topic := engine.currentTopic;
      currentTopic := topic;
      messages := [GreetingMessage(topic)];
      uiState := Idle;
      partialText := "";
      LogStaysWellFormed([], topic, "", Reply("", ""));
    }

    /** `selectTopic`: the engine's choice for the id, then a new conversation. */
    method SelectTopic(topicId: string)
      modifies this, engine
      ensures Valid()
      ensures engine.currentTopic == TopicWithId(topicId) && currentTopic == engine.currentTopic
      ensures messages == [GreetingMessage(currentTopic)]
      ensures uiState == Idle && partialText == "" && showTranslation == old(showTranslation)
    {
      engine.SetTopic(topicId);
      currentTopic := engine.currentTopic;
      StartNewConversation();
    }

    /** `randomTopic`, the engine's draw passed in. */
    method RandomTopic(choice: nat)
      requires choice < |Topics|
      modifies this, engine
      ensures Valid()
      ensures engine.currentTopic == Topics[choice] && currentTopic == Topics[choice]
      ensures messages == [GreetingMessage(currentTopic)]
      ensures uiState == Idle && partialText == "" && showTranslation == old(showTranslation)
    {
      var topic := engine.GetRandomTopic(choice);
      currentTopic := topic;
      StartNewConversation();
    }

    method ToggleTranslation()
      requires Valid()
      modifies this
      ensures Valid()
      ensures showTranslation == !old(showTranslation)
      ensures messages == old(messages) && uiState == old(uiState) && partialText == old(partialText)
      ensures currentTopic == old(currentTopic)
    {
      showTranslation := !showTranslation;
    }

    method SetListening()
      requires Valid()
      modifies this
      ensures Valid()
      ensures uiState == Listening && partialText == ""
      ensures messages == old(messages) && currentTopic == old(currentTopic) && showTranslation == old(showTranslation)
    {
      uiState := Listening;
      partialText := "";
    }

    /** `onSpeechResult`: a blank result only returns to Idle; otherwise the
      * sentence and the engine's reply to it join the log, the screen passing
      * through Processing while the engine answers. */
    method OnSpeechResult(recognizedText: string, pick: nat) returns (ghost reply: Reply)
      requires Valid()
      modifies this
      ensures Valid()
      ensures IsBlank(recognizedText) ==>
        uiState == Idle && messages == old(messages) && partialText == old(partialText)
      ensures !IsBlank(recognizedText) ==>
        && reply == ReplyFor(currentTopic.id, Prepare(recognizedText), pick)
        && messages == AfterSpeech(old(messages), recognizedText, reply)
        && partialText == "" && uiState == Speaking
      ensures currentTopic == old(currentTopic) && showTranslation == old(showTranslation)
    {
      reply := Reply("", "");
      if IsBlank(recognizedText) {
        uiState := Idle;
        return;
      }
      ghost var before := messages;
      messages := messages + [ChatMessage(recognizedText, "", true)];
      partialText := "";
      uiState := Processing;
      var history := BotTexts(messages);
      var answer := engine.GenerateReply(recognizedText, history, pick);
      reply := answer;
      messages := messages + [ChatMessage(answer.en, answer.zh, false)];
      uiState := Speaking;
      LogStaysWellFormed(before, currentTopic, recognizedText, answer);
    }

    method OnSpeakingDone()
      requires Valid()
      modifies this
      ensures Valid()
      ensures uiState == Idle
      ensures messages == old(messages) && partialText == old(partialText)
      ensures currentTopic == old(currentTopic) && showTranslation == old(showTranslation)
    {
      uiState := Idle;
    }

    method OnListeningError()
      requires Valid()
      modifies this
      ensures Valid()
      ensures uiState == Idle && partialText == ""
      ensures messages == old(messages) && currentTopic == old(currentTopic) && showTranslation == old(showTranslation)
    {
      uiState := Idle;
      partialText := "";
    }

    method ClearConversation()
      requires Valid()
      modifies this
      ensures Valid()
      ensures messages == [] && uiState == Idle && partialText == ""
      ensures currentTopic == old(currentTopic) && showTranslation == old(showTranslation)
    {
      messages := [];
      uiState := Idle;
      partialText := "";
    }

    /** The recogniser is ready: `onReadyForSpeech`. */
    method OnReadyForSpeech()
      requires Valid()
      modifies this
      ensures Valid()
      ensures uiState == Listening
      ensures messages == old(messages) && partialText == old(partialText)
      ensures currentTopic == old(currentTopic) && showTranslation == old(showTranslation)
    {
      uiState := Listening;
    }

    /** The user stopped speaking: `onEndOfSpeech`. */
    method OnEndOfSpeech()
      requires Valid()
      modifies this
      ensures Valid()
      ensures uiState == Processing
      ensures messages == old(messages) && partialText == old(partialText)
      ensures currentTopic == old(currentTopic) && showTranslation == old(showTranslation)
    {
      uiState := Processing;
    }

    /** `onPartialResults`: the first partial result is shown. */
    method OnPartialResults(matches: seq<string>)
      requires Valid()
      modifies this
      ensures Valid()
      ensures partialText == FirstOrEmpty(matches)
      ensures messages == old(messages) && uiState == old(uiState)
      ensures currentTopic == old(currentTopic) && showTranslation == old(showTranslation)
    {
      partialText := FirstOrEmpty(matches);
    }

    /** `onResults`: the first final result goes to `onSpeechResult`. */
    method OnResults(matches: seq<string>, pick: nat) returns (ghost reply: Reply)
      requires Valid()
      modifies this
      ensures Valid()
      ensures IsBlank(FirstOrEmpty(matches)) ==>
        uiState == Idle && messages == old(messages) && partialText == old(partialText)
      ensures !IsBlank(FirstOrEmpty(matches)) ==>
        && reply == ReplyFor(currentTopic.id, Prepare(FirstOrEmpty(matches)), pick)
        && messages == AfterSpeech(old(messages), FirstOrEmpty(matches), reply)
        && partialText == "" && uiState == Speaking
      ensures currentTopic == old(currentTopic) && showTranslation == old(showTranslation)
    {
      reply := OnSpeechResult(FirstOrEmpty(matches), pick);
    }
  }
}
