// The listening quiz (ui/screens/listening/ListeningQuizViewModel.kt): a
// scenario's sentences and a list of videos found for it. A video that fails
// to play is blacklisted and the player moves to the next video that is not;
// the user can step between videos, clear the cache and search again, pick a
// sentence and say it, and the spoken words are scored against it.
// The database reads of `loadScenario`, the API's reply and the clock are
// parameters; the practice-history write, the logging and the skip delays are
// left out, and every coroutine's update is applied at once.
module ListeningQuiz {
  import opened Wrappers
  import opened Text
  import YouTube
  import Lists
  import opened DiffResult
  import TextNormalizer
  import WordDiffEngine

  /** The fields of a scenario and a sentence this screen reads. */
  datatype Scenario = Scenario(scenarioId: int, youtubeQuery: string)
  datatype Sentence = Sentence(sentenceId: int, englishText: string)

  /** What `loadScenario`'s reads gave: today's (or a random) scenario with its
    * sentences, no scenario, or the message of the exception thrown. */
  datatype ScenarioLoad = Loaded(scenario: Scenario, sentences: seq<Sentence>)
                        | NoScenario
                        | LoadFailed(message: Option<string>)

  /** `ListeningQuizUiState`, with its defaults in `Initial`. */
  datatype ListeningQuizUiState = ListeningQuizUiState(
    scenario: Option<Scenario>,
    sentences: seq<Sentence>,
    videos: seq<YouTube.VideoResult>,
    currentVideoIndex: int,
    selectedSentenceIndex: int,
    isLoadingVideos: bool,
    videoError: Option<string>,
    videoPlayerError: bool,
    lastPlayerError: Option<string>,
    isListening: bool,
    recognizedText: string,
    diffResult: Option<SpeechDiffResult>,
    isLoading: bool,
    error: Option<string>)

  const Initial := ListeningQuizUiState(None, [], [], 0, 0, false, None, false, None, false, "", None, true, None)

  // ---------------------------------------------------------------------------
  // Specification functions

  /** The state once the repository answered a search. */
  function AfterSearch(s: ListeningQuizUiState, r: YouTube.Resource<seq<YouTube.VideoResult>>): ListeningQuizUiState {
    match r
    case Success(data) => s.(videos := data, isLoadingVideos := false, videoError := None)
    case Error(message) => s.(isLoadingVideos := false, videoError := Some(message))
    case Loading => s.(isLoadingVideos := true)
  }

  /** The state once `loadScenario`'s reads are done, before the search. */
  function AfterLoad(s: ListeningQuizUiState, load: ScenarioLoad): ListeningQuizUiState {
    match load
    case Loaded(scenario, sentences) => s.(scenario := Some(scenario), sentences := sentences, isLoading := false)
    case NoScenario => s.(isLoading := false, error := Some("沒有可用的場景"))
    case LoadFailed(m) => s.(isLoading := false, error := Some(LoadFailedMessage(m)))
  }

  /** The least index from `from` on whose video is not blacklisted. */
  function NextPlayable(videos: seq<YouTube.VideoResult>, from: nat, blacklist: set<string>): (r: Option<nat>)
    ensures r.Some? ==> from <= r.value < |videos| && videos[r.value].videoId !in blacklist
    decreases |videos| - from
  {
    if from >= |videos| then None
    else if videos[from].videoId !in blacklist then Some(from)
    else NextPlayable(videos, from + 1, blacklist)
  }

  /** `skipToNextVideo`'s index. */
  function NextIndex(current: int, videoCount: int): int {
    if current + 1 < videoCount then current + 1 else current
  }

  /** `skipToPreviousVideo`'s index. */
  function PreviousIndex(current: int): int {
    if current > 0 then current - 1 else current
  }

  /** The index stays on a video, or at 0 when there is none. */
  predicate IndexInRange(current: int, videoCount: int) {
    0 <= current && (current < videoCount || (videoCount == 0 && current == 0))
  }

  function SkipMessage(current: nat, errorName: string): string {
    "影片 " + NatToString(current + 1) + " 無法播放（" + errorName + "），嘗試下一部..."
  }

  function AllFailedMessage(errorName: string): string {
    "所有影片都無法播放（" + errorName + "）\n請嘗試清除快取重試"
  }

  function LoadFailedMessage(message: Option<string>): string {
    "載入失敗: " + (if message.Some? then message.value else "null")
  }

  /** `firstOrNull() ?: ""`. */
  function FirstOrEmpty(matches: seq<string>): string {
    if matches == [] then "" else matches[0]
  }

  // ---------------------------------------------------------------------------
  // Properties

  /** The next playable video is the first one after the start that is not
    * blacklisted; there is none exactly when all of them are. */
  lemma {:induction false} NextPlayableIsLeast(videos: seq<YouTube.VideoResult>, from: nat, blacklist: set<string>)
    ensures NextPlayable(videos, from, blacklist).Some? ==>
      var k := NextPlayable(videos, from, blacklist).value;
      from <= k < |videos| && videos[k].videoId !in blacklist &&
      forall j :: from <= j < k ==> videos[j].videoId in blacklist
    ensures NextPlayable(videos, from, blacklist).None? <==>
      forall j :: from <= j < |videos| ==> videos[j].videoId in blacklist
    decreases |videos| - from
  {
    if from < |videos| && videos[from].videoId in blacklist {
      NextPlayableIsLeast(videos, from + 1, blacklist);
    }
  }

  /** Stepping keeps the index on a video; a step forward that moved is
    * undone by a step back, and the reverse. */
  lemma SkipsStayInRange(current: int, videoCount: int)
    requires IndexInRange(current, videoCount)
    ensures IndexInRange(NextIndex(current, videoCount), videoCount)
    ensures IndexInRange(PreviousIndex(current), videoCount)
    ensures NextIndex(current, videoCount) != current ==>
      PreviousIndex(NextIndex(current, videoCount)) == current
    ensures PreviousIndex(current) != current ==>
      NextIndex(PreviousIndex(current), videoCount) == current
  {
  }

  // ---------------------------------------------------------------------------
  // The view-model

  class ListeningQuizViewModel {
    const youTubeRepository: YouTube.YouTubeRepository
    var uiState: ListeningQuizUiState
    /** The ids of the videos that failed to play. */
    var blacklistedVideoIds: set<string>

    ghost predicate Valid()
      reads this, youTubeRepository, youTubeRepository.cachedVideoDao
    {
      youTubeRepository.Valid() && IndexInRange(uiState.currentVideoIndex, |uiState.videos|)
    }

    /** `init`: the scenario is loaded, and with one its videos are searched
      * for. */
    constructor(repository: YouTube.YouTubeRepository, load: ScenarioLoad, now: int, reply: YouTube.SearchReply)
      requires repository.Valid()
      modifies repository.cachedVideoDao
      ensures youTubeRepository == repository && Valid() && blacklistedVideoIds == {}
      ensures load.Loaded? ==>
        uiState == AfterSearch(AfterLoad(Initial, load).(isLoadingVideos := true),
          YouTube.SearchResult(old(repository.cachedVideoDao.rows), load.scenario.youtubeQuery, false, now, reply))
      ensures !load.Loaded? ==> uiState == AfterLoad(Initial, load)
    {
      youTubeRepository := repository;
      uiState := Initial;
      blacklistedVideoIds := {};
      new;
      uiState := AfterLoad(uiState, load);
      if load.Loaded? {
        SearchYouTubeVideos(load.scenario.youtubeQuery, false, now, reply);
      }
    }

    /** `searchYouTubeVideos`, called with the index at 0: the videos found,
      * or the repository's error. */
    method SearchYouTubeVideos(query: string, forceRefresh: bool, now: int, reply: YouTube.SearchReply)
      requires Valid() && uiState.currentVideoIndex == 0
      modifies this, youTubeRepository.cachedVideoDao
      ensures Valid() && blacklistedVideoIds == old(blacklistedVideoIds)
      ensures uiState == AfterSearch(old(uiState).(isLoadingVideos := true),
        YouTube.SearchResult(old(youTubeRepository.cachedVideoDao.rows), query, forceRefresh, now, reply))
    {
      uiState := uiState.(isLoadingVideos := true);
      var result := youTubeRepository.SearchVideos(query, forceRefresh, now, reply);
      match result {
        case Success(data) =>
          uiState := uiState.(videos := data, isLoadingVideos := false, videoError := None);
        case Error(message) =>
          uiState := uiState.(isLoadingVideos := false, videoError := Some(message));
        case Loading =>
      }
    }

    method SelectSentence(index: int)
      modifies this
      ensures uiState == old(uiState).(selectedSentenceIndex := index, diffResult := None, recognizedText := "")
      ensures blacklistedVideoIds == old(blacklistedVideoIds)
    {
      uiState := uiState.(selectedSentenceIndex := index, diffResult := None, recognizedText := "");
    }

    /** `onVideoError`: the playing video is blacklisted, then the player moves
      * to the next video that is not, or reports that none can play. */
    method OnVideoError(errorName: string)
      requires Valid()
      modifies this
      ensures Valid()
      ensures var s := old(uiState);
        blacklistedVideoIds == old(blacklistedVideoIds) +
          (if s.currentVideoIndex < |s.videos| then {s.videos[s.currentVideoIndex].videoId} else {})
      ensures var s := old(uiState);
        var next := NextPlayable(s.videos, s.currentVideoIndex + 1, blacklistedVideoIds);
        if next.Some? then
          uiState == s.(currentVideoIndex := next.value, videoPlayerError := false,
                        lastPlayerError := Some(SkipMessage(s.currentVideoIndex, errorName)))
        else
          uiState == s.(videoPlayerError := true, lastPlayerError := Some(AllFailedMessage(errorName)))
    {
      var state := uiState;
      var current: nat := state.currentVideoIndex;
      if current < |state.videos| {
        blacklistedVideoIds := blacklistedVideoIds + {state.videos[current].videoId};
      }
      var videos := state.videos;
      var start := current + 1;
      var nextIndex: Option<nat> := None;
      var idx := start;
      while idx < |videos|
        invariant start <= idx
        invariant NextPlayable(videos, idx, blacklistedVideoIds) == NextPlayable(videos, start, blacklistedVideoIds)
        decreases |videos| - idx
      {
        if videos[idx].videoId !in blacklistedVideoIds {
          nextIndex := Some(idx);
          break;
        }
        idx := idx + 1;
      }
      assert nextIndex == NextPlayable(videos, start, blacklistedVideoIds);
      if nextIndex.Some? {
        NextPlayableIsLeast(videos, start, blacklistedVideoIds);
        uiState := state.(currentVideoIndex := nextIndex.value, videoPlayerError := false,
                          lastPlayerError := Some(SkipMessage(current, errorName)));
      } else {
        uiState := state.(videoPlayerError := true, lastPlayerError := Some(AllFailedMessage(errorName)));
      }
    }

    /** `clearCacheAndRetry`: the blacklist and the cache are emptied; with a
      * scenario, the videos are dropped and searched for again past the
      * cache. */
    method ClearCacheAndRetry(now: int, reply: YouTube.SearchReply)
      requires Valid()
      modifies this, youTubeRepository.cachedVideoDao
      ensures Valid() && blacklistedVideoIds == {}
      ensures var s := old(uiState);
        if s.scenario.None? then uiState == s
        else
          var cleared := Lists.Filter(old(youTubeRepository.cachedVideoDao.rows), YouTube.CachedSince(now));
          uiState == AfterSearch(
            s.(currentVideoIndex := 0, videoPlayerError := false, videoError := None,
               lastPlayerError := None, videos := [], isLoadingVideos := true),
            YouTube.SearchResult(cleared, s.scenario.value.youtubeQuery, true, now, reply))
    {
      blacklistedVideoIds := {};
      youTubeRepository.ClearCache(now);
      if uiState.scenario.None? {
        return;
      }
      var query := uiState.scenario.value.youtubeQuery;
      uiState := uiState.(currentVideoIndex := 0, videoPlayerError := false, videoError := None,
                          lastPlayerError := None, videos := []);
      SearchYouTubeVideos(query, true, now, reply);
    }

    method SkipToNextVideo()
      requires Valid()
      modifies this
      ensures Valid() && blacklistedVideoIds == old(blacklistedVideoIds)
      ensures var s := old(uiState);
        uiState == if s.currentVideoIndex + 1 < |s.videos| then
          s.(currentVideoIndex := NextIndex(s.currentVideoIndex, |s.videos|), videoPlayerError := false)
        else s
    {
      var state := uiState;
      var nextIndex := state.currentVideoIndex + 1;
      if nextIndex < |state.videos| {
        uiState := state.(currentVideoIndex := nextIndex, videoPlayerError := false);
      }
    }

    method SkipToPreviousVideo()
      requires Valid()
      modifies this
      ensures Valid() && blacklistedVideoIds == old(blacklistedVideoIds)
      ensures var s := old(uiState);
        uiState == if s.currentVideoIndex > 0 then
          s.(currentVideoIndex := PreviousIndex(s.currentVideoIndex), videoPlayerError := false)
        else s
    {
      var state := uiState;
      if state.currentVideoIndex > 0 {
        uiState := state.(currentVideoIndex := state.currentVideoIndex - 1, videoPlayerError := false);
      }
    }

    /** The recogniser is ready: a new attempt starts. */
    method OnReadyForSpeech()
      modifies this
      ensures uiState == old(uiState).(isListening := true, recognizedText := "", diffResult := None)
      ensures blacklistedVideoIds == old(blacklistedVideoIds)
    {
      uiState := uiState.(isListening := true, recognizedText := "", diffResult := None);
    }

    /** `onEndOfSpeech` and `onError`. */
    method OnEndOfSpeech()
      modifies this
      ensures uiState == old(uiState).(isListening := false)
      ensures blacklistedVideoIds == old(blacklistedVideoIds)
    {
      uiState := uiState.(isListening := false);
    }

    /** `onResults`: with a selected sentence and some speech, the speech is
      * scored against the sentence; otherwise listening just stops. */
    method OnResults(matches: seq<string>)
      modifies this
      ensures blacklistedVideoIds == old(blacklistedVideoIds)
      ensures var s := old(uiState);
        var spoken := FirstOrEmpty(matches);
        if 0 <= s.selectedSentenceIndex < |s.sentences| && spoken != "" then
          uiState == s.(recognizedText := spoken, isListening := false,
            diffResult := Some(WordDiffEngine.CompareTokens(
              TextNormalizer.NormalizeSpec(s.sentences[s.selectedSentenceIndex].englishText),
              TextNormalizer.NormalizeSpec(spoken))))
        else
          uiState == s.(isListening := false)
    {
      var spokenText := FirstOrEmpty(matches);
      var currentState := uiState;
      if 0 <= currentState.selectedSentenceIndex < |currentState.sentences| && spokenText != "" {
        var targetSentence := currentState.sentences[currentState.selectedSentenceIndex];
        var diff := WordDiffEngine.Compare(targetSentence.englishText, spokenText);
        uiState := currentState.(recognizedText := spokenText, diffResult := Some(diff), isListening := false);
      } else {
        uiState := currentState.(isListening := false);
      }
    }

    /** `onPartialResults`: the first partial result, when there is one, is
      * shown. */
    method OnPartialResults(partial: seq<string>)
      modifies this
      ensures uiState == if partial == [] then old(uiState) else old(uiState).(recognizedText := partial[0])
      ensures blacklistedVideoIds == old(blacklistedVideoIds)
    {
      if partial != [] {
        uiState := uiState.(recognizedText := partial[0]);
      }
    }

    method ClearResult()
      modifies this
      ensures uiState == old(uiState).(diffResult := None, recognizedText := "")
      ensures blacklistedVideoIds == old(blacklistedVideoIds)
    {
      uiState := uiState.(diffResult := None, recognizedText := "");
    }
  }
}
