# BearEnglishLearning core, modelled in Dafny

BearEnglishLearning is an Android app for practising spoken English. It
scores a spoken sentence against a target sentence, chats with the user
through a rule-based conversation partner, generates daily word sheets,
scenarios and practice dialogues, counts daily practice for a progress
calendar, and keeps memos, custom words, translations and cached YouTube
search results. This project models the Kotlin domain layer of the app and
the state updates of its view-models and repositories, and proves what they
promise.

- **Speech scoring.**
  - `TextNormalizer` (module `TextNormalizer`): lower-casing, whole-word
    contraction expansion, stripping, whitespace collapse and splitting.
  - `WordDiffEngine` (module `WordDiffEngine`): the longest-common-subsequence
    table, the backtrack that labels every token MATCH, MISSING or EXTRA, and
    the counts and accuracy of the result (module `DiffResult`).
  - The table builder works on a two-dimensional array. The backtrack is a
    loop. Both are proved equal to recursive specifications, and the
    properties are proved about those specifications.
- **Conversation.**
  - `ConversationEngine`: the topic state, the keyword classifier with its
    fixed priority order, and the reply tables.
  - `ConversationViewModel` (module `ConversationScreen`) and
    `RealTimeConversationViewModel` (module `RealTimeConversation`): the
    reveal counter, and the chat log with its Idle, Listening, Processing and
    Speaking states.
  - `RandomConversationGenerator` (module `RandomConversation`).
- **Daily content.** `DailyVocabularyGenerator` (module `DailyVocabulary`) and
  `DailyScenarioGenerator` (module `DailyScenario`).
- **Progress.**
  - `DailyProgressRepository` over the queries of `DailyProgressDao` (module
    `DailyProgress`).
  - `CalendarViewModel` (module `Calendar`): activity levels, the 42-day month
    grid and the streak.
- **Stores and screens.**
  - Memos: `MemoStore`, `MemoScreen`, `ReviewScreen`.
  - Settings: `Preferences`.
  - Translation: `Translation`, `TranslationScreen`.
  - Custom words and the vocabulary screen: `CustomWords`, `VocabularyScreen`.
  - The YouTube search cache: `YouTube`.
  - The listening quiz: `ListeningQuiz`.
- **Shared definitions.**
  - `Text`: trimming, case folding, blank tests and substring tests.
  - `Lists`: take, filter and distinct-by.
  - `Ordering`: the stable descending sort that stands for `ORDER BY ... DESC`.
  - `Wrappers`: option and result types.

## Modelling conventions

- **Dates and times.**
  - Dates are epoch days.
  - Times are integer milliseconds.
  - "now" and "today" are parameters. One value stands for all clock reads
    within one call, except in the one place where two reads matter (see
    Findings).
- **Randomness and outside input.**
  - Random choices are parameters: an index, a pick, or a list of draws.
    The seeded PRNG is not reproduced.
  - A database read or a network reply is a parameter holding what came back.
    An exception is a `Threw`/`Failure` value carrying its message; a
    message Kotlin may see as null is an `Option`, printed "null" when absent.
- **Room tables.**
  - A table is a sequence of rows in insertion order. `ORDER BY x DESC` is
    the stable sort `Ordering.SortDesc`.
  - A `REPLACE` insert drops any row with the same key and appends the new
    row.
- **Objects.** A view-model or DAO whose fields change is a `class`. Its
  methods carry `modifies` clauses and state the whole new state. A data
  class updated with `copy` is a datatype updated with `.(field := value)`.

## Model

| member | source | states |
|---|---|---|
| DiffResult.MatchCount | app/src/main/java/com/bear/englishlearning/domain/speech/WordDiffEngine.kt:35 | the number of MATCH entries, never more than the entries |
| DiffResult.AllWith | app/src/main/java/com/bear/englishlearning/domain/speech/WordDiffEngine.kt:19 | each word in order, labelled with one status, one entry per word |
| WordDiffEngine.Step | app/src/main/java/com/bear/englishlearning/domain/speech/WordDiffEngine.kt:72-86 | one backtrack turn: the entry's word is the last target token unless EXTRA and the last spoken token unless MISSING; the two lists shrink |
| WordDiffEngine.BuildLcsTable | app/src/main/java/com/bear/englishlearning/domain/speech/WordDiffEngine.kt:46-61 | a fresh (m+1)x(n+1) table whose every cell, row 0 and column 0 included, is the LCS length of the two prefixes |
| WordDiffEngine.NextEntry | app/src/main/java/com/bear/englishlearning/domain/speech/WordDiffEngine.kt:73-86 | one turn of the loop over the table equals the specification step on the prefixes |
| WordDiffEngine.BacktrackDiff | app/src/main/java/com/bear/englishlearning/domain/speech/WordDiffEngine.kt:63-90 | the loop plus the reversal returns the specification diff |
| WordDiffEngine.Compare | app/src/main/java/com/bear/englishlearning/domain/speech/WordDiffEngine.kt:9-44 | normalises both texts and returns what the token comparison specifies, early returns included |
| WordDiffEngine.LcsOfPrefixes | app/src/main/java/com/bear/englishlearning/domain/speech/WordDiffEngine.kt:53-57 | the table recurrence: one more than the diagonal on equal tokens, else the larger neighbour |
| WordDiffEngine.LcsBounded | app/src/main/java/com/bear/englishlearning/domain/speech/WordDiffEngine.kt:46-61 | the LCS length is at most either list's length |
| WordDiffEngine.StepLcs | app/src/main/java/com/bear/englishlearning/domain/speech/WordDiffEngine.kt:72-87 | each backtrack step keeps the LCS length, less one exactly on a MATCH |
| WordDiffEngine.DiffProjections | app/src/main/java/com/bear/englishlearning/domain/speech/WordDiffEngine.kt:63-90 | deleting the EXTRA entries gives the target tokens, deleting the MISSING entries gives the spoken tokens |
| WordDiffEngine.DiffCounts | app/src/main/java/com/bear/englishlearning/domain/speech/WordDiffEngine.kt:72-87 | the number of MATCH entries equals the LCS length, and the diff has m + n - LCS entries |
| WordDiffEngine.MatchesInTarget | app/src/main/java/com/bear/englishlearning/domain/speech/WordDiffEngine.kt:74-77 | the MATCH words form a subsequence of the target |
| WordDiffEngine.MatchesInSpoken | app/src/main/java/com/bear/englishlearning/domain/speech/WordDiffEngine.kt:74-77 | the MATCH words form a subsequence of the spoken tokens |
| WordDiffEngine.LcsIsLongest | app/src/main/java/com/bear/englishlearning/domain/speech/WordDiffEngine.kt:46-61 | no common subsequence is longer than the table's corner value |
| WordDiffEngine.LcsIsLongestCommon | app/src/main/java/com/bear/englishlearning/domain/speech/WordDiffEngine.kt:46-61 | the corner value is the length of a longest common subsequence, witnessed by the MATCH words |
| WordDiffEngine.DiffWithEmptyTarget | app/src/main/java/com/bear/englishlearning/domain/speech/WordDiffEngine.kt:17-23 | with no target tokens the diff is every spoken token as EXTRA, in order |
| WordDiffEngine.DiffWithEmptySpoken | app/src/main/java/com/bear/englishlearning/domain/speech/WordDiffEngine.kt:25-31 | with no spoken tokens the diff is every target token as MISSING, in order |
| WordDiffEngine.CompareIsDiff | app/src/main/java/com/bear/englishlearning/domain/speech/WordDiffEngine.kt:9-44 | the early returns agree with the table path: the diff, a matched count equal to the LCS length and to the MATCH count, and both word counts |
| WordDiffEngine.CompareAccuracy | app/src/main/java/com/bear/englishlearning/domain/speech/WordDiffEngine.kt:13-43 | accuracy lies in [0, 1]; it is 1 when both lists are empty, 0 when only the target is empty, else matched/target |
| WordDiffEngine.IdenticalAllMatch | app/src/test/java/com/bear/englishlearning/domain/speech/WordDiffEngineTest.kt:10-19 | identical token lists give only MATCH entries |
| WordDiffEngine.LcsOfIdentical | app/src/test/java/com/bear/englishlearning/domain/speech/WordDiffEngineTest.kt:10-19 | a list's LCS with itself is its length |
| WordDiffEngine.IdenticalAccuracy | app/src/test/java/com/bear/englishlearning/domain/speech/WordDiffEngineTest.kt:10-19 | identical token lists have accuracy 1 |
| WordDiffEngine.ThreeOfFive | app/src/test/java/com/bear/englishlearning/domain/speech/WordDiffEngineTest.kt:83-91 | "one two three four five" against "one two four" matches 3 tokens with accuracy 0.6 |
| TextNormalizer.Strip | app/src/main/java/com/bear/englishlearning/domain/speech/TextNormalizer.kt:39 | keeps only a-z, 0-9 and the characters of Android ICU's `\s` (TAB, LF, FF, CR and the Unicode space, line and paragraph separators, not VT), each kept character taken from the input, and changes nothing when all are kept |
| TextNormalizer.Collapse | app/src/main/java/com/bear/englishlearning/domain/speech/TextNormalizer.kt:40 | empty iff the input is empty; no two spaces in a row; every character is a space or an input character outside ICU's `\s`, so a run of no-break or ideographic spaces also becomes one space |
| TextNormalizer.Normalize | app/src/main/java/com/bear/englishlearning/domain/speech/TextNormalizer.kt:29-43 | returns the specified token list, with the regular expressions' `\s` taken as Android ICU's class; every token is non-empty over a-z and 0-9; joined by spaces, the tokens are the cleaned text |
| TextNormalizer.PronounKeysShaped | app/src/main/java/com/bear/englishlearning/domain/speech/TextNormalizer.kt:6-12 | each pronoun key is lower-case letters around one apostrophe |
| TextNormalizer.PronounExpansionsShaped | app/src/main/java/com/bear/englishlearning/domain/speech/TextNormalizer.kt:6-12 | each pronoun expansion is non-empty letters, digits and spaces |
| TextNormalizer.PronounKeysDistinct | app/src/main/java/com/bear/englishlearning/domain/speech/TextNormalizer.kt:6-12 | the pronoun keys are pairwise distinct |
| TextNormalizer.QuestionWordKeysShaped | app/src/main/java/com/bear/englishlearning/domain/speech/TextNormalizer.kt:13-19 | each that/who/what/where/when/why/how key is letters around one apostrophe |
| TextNormalizer.QuestionWordExpansionsShaped | app/src/main/java/com/bear/englishlearning/domain/speech/TextNormalizer.kt:13-19 | each of their expansions is letters and spaces |
| TextNormalizer.QuestionWordKeysDistinct | app/src/main/java/com/bear/englishlearning/domain/speech/TextNormalizer.kt:13-19 | those keys are pairwise distinct |
| TextNormalizer.NegatedAuxiliaryKeysShaped | app/src/main/java/com/bear/englishlearning/domain/speech/TextNormalizer.kt:20-22 | the first ten negated auxiliaries are letters around one apostrophe |
| TextNormalizer.NegationKeysShaped | app/src/main/java/com/bear/englishlearning/domain/speech/TextNormalizer.kt:20-26 | each negation, let's, there's and here's key is letters around one apostrophe |
| TextNormalizer.NegationExpansionsShaped | app/src/main/java/com/bear/englishlearning/domain/speech/TextNormalizer.kt:20-26 | each of their expansions is letters and spaces |
| TextNormalizer.NegationKeysDistinct | app/src/main/java/com/bear/englishlearning/domain/speech/TextNormalizer.kt:20-26 | those keys are pairwise distinct |
| TextNormalizer.PronounQuestionWordDisjoint | app/src/main/java/com/bear/englishlearning/domain/speech/TextNormalizer.kt:6-19 | no pronoun key is also a question-word key |
| TextNormalizer.PronounNegationDisjoint | app/src/main/java/com/bear/englishlearning/domain/speech/TextNormalizer.kt:6-26 | no pronoun key is also a negation key |
| TextNormalizer.QuestionWordNegationDisjoint | app/src/main/java/com/bear/englishlearning/domain/speech/TextNormalizer.kt:13-26 | no question-word key is also a negation key |
| TextNormalizer.ConcatWellFormed | app/src/main/java/com/bear/englishlearning/domain/speech/TextNormalizer.kt:5-27 | two well-formed tables with disjoint keys concatenate to a well-formed table |
| TextNormalizer.ContractionsWellFormed | app/src/main/java/com/bear/englishlearning/domain/speech/TextNormalizer.kt:5-27 | the map has 66 distinct keys, each a contraction word, each expansion letters and spaces |
| TextNormalizer.CleanUpCanonical | app/src/main/java/com/bear/englishlearning/domain/speech/TextNormalizer.kt:39-40 | stripping, collapsing and trimming leave tokens separated by single spaces |
| TextNormalizer.JoinSplit | app/src/main/java/com/bear/englishlearning/domain/speech/TextNormalizer.kt:42 | joining the pieces of a split with single spaces gives the text back |
| TextNormalizer.SplitCanonical | app/src/main/java/com/bear/englishlearning/domain/speech/TextNormalizer.kt:42 | splitting non-empty canonical text yields tokens only |
| TextNormalizer.TokensOfCleaned | app/src/main/java/com/bear/englishlearning/domain/speech/TextNormalizer.kt:39-42 | every output token is non-empty a-z/0-9, and the tokens are the maximal non-space runs of the cleaned text |
| TextNormalizer.ReplaceFromNoMatch | app/src/main/java/com/bear/englishlearning/domain/speech/TextNormalizer.kt:33-36 | with no whole-word match from a position on, replacement leaves the rest unchanged |
| TextNormalizer.ReplaceFromStep | app/src/main/java/com/bear/englishlearning/domain/speech/TextNormalizer.kt:33-36 | a position that is not a match is copied and the scan moves on |
| TextNormalizer.ReplaceFromUpTo | app/src/main/java/com/bear/englishlearning/domain/speech/TextNormalizer.kt:33-36 | a single match ahead is replaced and the text around it kept |
| TextNormalizer.ReplaceWithoutWholeWord | app/src/main/java/com/bear/englishlearning/domain/speech/TextNormalizer.kt:33-36 | a pattern with no whole-word occurrence leaves the text unchanged |
| TextNormalizer.ReplaceSingleWholeWord | app/src/main/java/com/bear/englishlearning/domain/speech/TextNormalizer.kt:33-36 | a single whole-word occurrence is replaced by the expansion and the rest kept |
| TextNormalizer.ExpandAllNoMatch | app/src/main/java/com/bear/englishlearning/domain/speech/TextNormalizer.kt:32-37 | a table none of whose keys occurs as a whole word leaves the text unchanged |
| TextNormalizer.ExpandAllAppend | app/src/main/java/com/bear/englishlearning/domain/speech/TextNormalizer.kt:32-37 | running a concatenated table is running the first part, then the second |
| TextNormalizer.NoApostropheNoMatch | app/src/main/java/com/bear/englishlearning/domain/speech/TextNormalizer.kt:33-36 | no contraction key matches text without an apostrophe |
| TextNormalizer.ExpandAllNoApostrophe | app/src/main/java/com/bear/englishlearning/domain/speech/TextNormalizer.kt:32-37 | the table leaves text without an apostrophe unchanged |
| TextNormalizer.MatchWithinWord | app/src/main/java/com/bear/englishlearning/domain/speech/TextNormalizer.kt:33-36 | a match in a + w + b, with a and b separated from w, lies inside w |
| TextNormalizer.OnlyMatchAt | app/src/main/java/com/bear/englishlearning/domain/speech/TextNormalizer.kt:33-36 | the only key matching there is w itself, at w's position |
| TextNormalizer.OnlyMatchIsTheWord | app/src/main/java/com/bear/englishlearning/domain/speech/TextNormalizer.kt:33-36 | a contraction key matches text where a contraction stands alone only as that whole word, not inside a longer word |
| TextNormalizer.BeforeEntryUnchanged | app/src/main/java/com/bear/englishlearning/domain/speech/TextNormalizer.kt:32-37 | the entries before a word's own entry leave the text unchanged |
| TextNormalizer.EntryReplaces | app/src/main/java/com/bear/englishlearning/domain/speech/TextNormalizer.kt:33-36 | the word's own entry replaces it by its expansion |
| TextNormalizer.ExpandAllAround | app/src/main/java/com/bear/englishlearning/domain/speech/TextNormalizer.kt:32-37 | running the table is running the entries before k, entry k, then the rest |
| TextNormalizer.AfterEntryUnchanged | app/src/main/java/com/bear/englishlearning/domain/speech/TextNormalizer.kt:32-37 | the entries after it leave the expanded text unchanged |
| TextNormalizer.ExpandedAmidPlainText | app/src/main/java/com/bear/englishlearning/domain/speech/TextNormalizer.kt:32-37 | in any well-formed table, a listed contraction standing alone in text with no other apostrophe is replaced by its expansion and nothing else changes |
| TextNormalizer.MatchLeftOfCut | app/src/main/java/com/bear/englishlearning/domain/speech/TextNormalizer.kt:33-36 | when x ends or y starts with a separator (neither a word character nor an apostrophe), a key matches x + y inside x exactly where it matches x alone |
| TextNormalizer.MatchRightOfCut | app/src/main/java/com/bear/englishlearning/domain/speech/TextNormalizer.kt:33-36 | at such a cut, a key matches x + y inside y exactly where it matches y alone |
| TextNormalizer.ReplaceAcrossCut | app/src/main/java/com/bear/englishlearning/domain/speech/TextNormalizer.kt:33-36 | at such a cut, one `\b`-bounded replacement of x + y is the replacement of x followed by that of y |
| TextNormalizer.ReplaceKeepsEnds | app/src/main/java/com/bear/englishlearning/domain/speech/TextNormalizer.kt:33-36 | a separator at either end of the text is still there, at the same end, after a replacement |
| TextNormalizer.ExpandAcrossCut | app/src/main/java/com/bear/englishlearning/domain/speech/TextNormalizer.kt:32-37 | at such a cut, the whole contraction table expands x + y as x expanded followed by y expanded |
| TextNormalizer.ExpandEmpty | app/src/main/java/com/bear/englishlearning/domain/speech/TextNormalizer.kt:32-37 | the table leaves the empty text empty |
| TextNormalizer.KeyAlone | app/src/main/java/com/bear/englishlearning/domain/speech/TextNormalizer.kt:32-37 | a key on its own expands to exactly its expansion |
| TextNormalizer.ContractionExpandedIn | app/src/main/java/com/bear/englishlearning/domain/speech/TextNormalizer.kt:32-37 | in any well-formed table, a listed contraction between text that ends with a separator (or is empty) and text that starts with one (or is empty) becomes its expansion, and the text on each side expands as it would on its own, other contractions included |
| TextNormalizer.ContractionExpanded | app/src/test/java/com/bear/englishlearning/domain/speech/TextNormalizerTest.kt:33-46 | the same for the app's 66-entry map (e.g. won't to will not, can't to cannot) |
| TextNormalizer.CollapseFixed | app/src/main/java/com/bear/englishlearning/domain/speech/TextNormalizer.kt:40 | text whose only whitespace is single spaces is unchanged by the collapse |
| TextNormalizer.CanonicalStripped | app/src/main/java/com/bear/englishlearning/domain/speech/TextNormalizer.kt:39 | canonical text is unchanged by stripping |
| TextNormalizer.CanonicalTrimmed | app/src/main/java/com/bear/englishlearning/domain/speech/TextNormalizer.kt:40 | canonical text is unchanged by trimming |
| TextNormalizer.CanonicalLower | app/src/main/java/com/bear/englishlearning/domain/speech/TextNormalizer.kt:30 | canonical text is unchanged by lower-casing |
| TextNormalizer.CanonicalCleanUpFixed | app/src/main/java/com/bear/englishlearning/domain/speech/TextNormalizer.kt:30-40 | canonical text is a fixed point of lower-casing, trimming and the clean-up |
| TextNormalizer.CanonicalExpandFixed | app/src/main/java/com/bear/englishlearning/domain/speech/TextNormalizer.kt:32-37 | canonical text is unchanged by any well-formed contraction table |
| TextNormalizer.CanonicalFixed | app/src/main/java/com/bear/englishlearning/domain/speech/TextNormalizer.kt:30-40 | canonical text is a fixed point of every stage before the split |
| TextNormalizer.NormalizeIdempotent | app/src/main/java/com/bear/englishlearning/domain/speech/TextNormalizer.kt:29-43 | normalising the space-joined tokens gives the same tokens |
| TextNormalizer.CaseInsensitive | app/src/test/java/com/bear/englishlearning/domain/speech/TextNormalizerTest.kt:8-11 | texts that differ only in letter case give the same tokens |
| TextNormalizer.NoWordsExpandAll | app/src/main/java/com/bear/englishlearning/domain/speech/TextNormalizer.kt:32-37 | text without letters or digits is unchanged by the table |
| TextNormalizer.NoWordsCleanUp | app/src/main/java/com/bear/englishlearning/domain/speech/TextNormalizer.kt:39-40 | text without letters or digits cleans up to the empty string |
| TextNormalizer.NoWordsNoTokens | app/src/main/java/com/bear/englishlearning/domain/speech/TextNormalizer.kt:39-42 | empty, whitespace-only and punctuation-only text gives the empty list |
| TextNormalizer.SplitJoin | app/src/main/java/com/bear/englishlearning/domain/speech/TextNormalizer.kt:42 | splitting space-joined words without spaces gives the words back |
| TextNormalizer.SeparatorSplitsWords | app/src/main/java/com/bear/englishlearning/domain/speech/TextNormalizer.kt:39-42 | any character of ICU's `\s` between two letters separates them: the text gives the two one-letter tokens |
| TextNormalizer.DroppedCharJoinsWords | app/src/main/java/com/bear/englishlearning/domain/speech/TextNormalizer.kt:39-42 | a character the strip deletes (neither a-z, 0-9, ICU's `\s`, an upper-case letter nor an apostrophe) between two letters joins them into one token |
| TextNormalizer.NoBreakSpaceSeparates | app/src/main/java/com/bear/englishlearning/domain/speech/TextNormalizer.kt:39-42 | "a", a no-break space and "b" normalise to the two tokens "a" and "b": ICU's `\s` keeps the separator and the collapse turns it into a space |
| TextNormalizer.VerticalTabJoins | app/src/main/java/com/bear/englishlearning/domain/speech/TextNormalizer.kt:39-42 | "a", a vertical tab and "b" normalise to the one token "ab": VT lies outside ICU's `\s`, so the strip deletes it |
| Text.Lower | app/src/main/java/com/bear/englishlearning/domain/speech/TextNormalizer.kt:30 | lower-casing keeps the length |
| Text.TrimStartSuffix | app/src/main/java/com/bear/englishlearning/domain/conversation/ConversationEngine.kt:80 | trimming the start keeps a suffix of the text |
| Text.TrimSlice | app/src/main/java/com/bear/englishlearning/data/repository/TranslationRepository.kt:33 | `trim` keeps the slice between leading and trailing whitespace (Kotlin's `Char.isWhitespace`, Unicode separators included), and only whitespace is dropped |
| Text.Trim | app/src/main/java/com/bear/englishlearning/data/repository/TranslationRepository.kt:33 | a trimmed string is empty or starts and ends with non-whitespace |
| Text.TrimStart | app/src/main/java/com/bear/englishlearning/data/repository/TranslationRepository.kt:33 | at most as long as the input, every dropped leading character is whitespace, and the result is empty or starts with a non-whitespace character |
| Text.TrimEnd | app/src/main/java/com/bear/englishlearning/data/repository/TranslationRepository.kt:33 | only trailing whitespace goes: the result is a prefix that is empty or ends with a non-whitespace character |
| Text.TrimOfTrimmed | app/src/main/java/com/bear/englishlearning/ui/screens/vocabulary/VocabularyViewModel.kt:91-98 | trimming is the identity on a trimmed string |
| Text.BlankIffTrimEmpty | app/src/main/java/com/bear/englishlearning/ui/screens/vocabulary/VocabularyViewModel.kt:89 | a string is blank (every character is Kotlin whitespace) exactly when trimming leaves nothing |
| Text.NatToString | app/src/main/java/com/bear/englishlearning/ui/screens/listening/ListeningQuizViewModel.kt:146 | the decimal rendering of an Int template value: non-empty, all digits |
| Lists.Take | app/src/main/java/com/bear/englishlearning/data/repository/TranslationRepository.kt:36 | `take(n)`: min(n, size) elements, each the element at the same index |
| Lists.Filter | app/src/main/java/com/bear/englishlearning/data/repository/TranslationRepository.kt:34 | `filter` never lengthens the list |
| Lists.FilterMembers | app/src/main/java/com/bear/englishlearning/data/repository/TranslationRepository.kt:34 | `filter` keeps exactly the elements passing the test |
| Lists.DistinctBy | app/src/main/java/com/bear/englishlearning/data/repository/TranslationRepository.kt:46 | `distinctBy` keeps elements of the input whose key was not met before |
| Lists.DistinctKeys | app/src/main/java/com/bear/englishlearning/data/repository/TranslationRepository.kt:46 | no two kept elements share a key |
| Lists.DistinctCovers | app/src/main/java/com/bear/englishlearning/data/repository/TranslationRepository.kt:46 | every key of the input not met before is kept |
| Lists.FilterIsSubseq | app/src/main/java/com/bear/englishlearning/data/repository/TranslationRepository.kt:34 | `filter` keeps the order of the input |
| Lists.DistinctIsSubseq | app/src/main/java/com/bear/englishlearning/data/repository/TranslationRepository.kt:46 | `distinctBy` keeps the order of the input |
| Lists.TakeSubMultiset | app/src/main/java/com/bear/englishlearning/domain/vocabulary/DailyVocabularyGenerator.kt:28 | `take` yields a sub-multiset of the list |
| Lists.DistinctTakeShape | app/src/main/java/com/bear/englishlearning/data/repository/TranslationRepository.kt:35-36 | `distinct` then `take(n)`: at most n elements of the input, no two with the same key |
| Lists.SelectInOrder | app/src/main/java/com/bear/englishlearning/data/repository/TranslationRepository.kt:32-36 | filter, distinct and take keep the input's order |
| Lists.SelectComplete | app/src/main/java/com/bear/englishlearning/data/repository/TranslationRepository.kt:32-36 | while fewer than n come back, every passing element's key is among them |
| Ordering.InsertDesc | app/src/main/java/com/bear/englishlearning/data/local/dao/MemoDao.kt:20-21 | inserting into the ordered rows adds exactly that row |
| Ordering.SortDesc | app/src/main/java/com/bear/englishlearning/data/local/dao/MemoDao.kt:20-21 | `ORDER BY ... DESC` returns the same rows (as a multiset) |
| Ordering.InsertKeepsOrder | app/src/main/java/com/bear/englishlearning/data/local/dao/MemoDao.kt:20-21 | inserting into rows ordered newest first keeps them ordered |
| Ordering.SortIsOrdered | app/src/main/java/com/bear/englishlearning/data/local/dao/MemoDao.kt:20-21 | the sort returns the rows newest first, as a permutation of the input |
| Translation.TrimmedTranslations | app/src/main/java/com/bear/englishlearning/data/repository/TranslationRepository.kt:33 | one trimmed translation per match, in order |
| Translation.ToExamples | app/src/main/java/com/bear/englishlearning/data/repository/TranslationRepository.kt:45 | one example per kept match, in order |
| Translation.TranslateOutcomes | app/src/main/java/com/bear/englishlearning/data/repository/TranslationRepository.kt:23-62 | success exactly when the reply carries a non-blank text, which is returned unmodified; a thrown exception's message is passed on; a missing or blank text fails with "Translation failed" |
| Translation.TranslateText | app/src/main/java/com/bear/englishlearning/data/repository/TranslationRepository.kt:23-62 | a success carries a non-blank text, at most 5 alternatives and at most 3 examples; a failure has no message only when the service threw without one (which outcome, in TranslateOutcomes) |
| Translation.TrimmedNonBlank | app/src/main/java/com/bear/englishlearning/data/repository/TranslationRepository.kt:33-34 | trimming is idempotent, and a trimmed string is non-blank iff non-empty |
| Translation.AlternativesShape | app/src/main/java/com/bear/englishlearning/data/repository/TranslationRepository.kt:32-36 | at most 5 alternatives, each trimmed, non-empty and not equal ignoring case to the trimmed main text, pairwise distinct, in match order |
| Translation.AlternativesComplete | app/src/main/java/com/bear/englishlearning/data/repository/TranslationRepository.kt:32-36 | with fewer than 5 alternatives, every qualifying trimmed translation is among them |
| Translation.DifferenceTestRedundant | app/src/main/java/com/bear/englishlearning/data/repository/TranslationRepository.kt:41-44 | the example filter holds iff the lowercased trimmed segment is longer than the input and the translation is non-blank |
| Translation.ExamplesShape | app/src/main/java/com/bear/englishlearning/data/repository/TranslationRepository.kt:39-47 | at most 3 examples, each a trimmed match whose source is longer than the trimmed input and whose translation is non-empty, no two with the same lowercased source (with ExamplesComplete and ExamplesInOrder: every qualifying match is kept up to its lowercased source while fewer than 3 come back, in match order) |
| Translation.ExamplesComplete | app/src/main/java/com/bear/englishlearning/data/repository/TranslationRepository.kt:39-47 | with fewer than 3 examples, every qualifying match has an example with its lowercased source: only the limit or an earlier match with the same lowercased source drops one |
| Translation.ExamplesInOrder | app/src/main/java/com/bear/englishlearning/data/repository/TranslationRepository.kt:39-47 | the examples are an order-preserving selection of the matches' examples |
| Translation.FirstPipe | app/src/main/java/com/bear/englishlearning/data/repository/TranslationRepository.kt:25 | the first '\|' of the language pair follows the source code |
| Translation.LangPairInjective | app/src/main/java/com/bear/englishlearning/data/repository/TranslationRepository.kt:25 | source and target codes without '\|' are recovered from the pair |
| TranslationScreen.Pushed | app/src/main/java/com/bear/englishlearning/ui/screens/translation/TranslationViewModel.kt:125 | the history after a push holds at most 20 items, one more when it held fewer than 20 |
| TranslationScreen.InitialLanguages | app/src/main/java/com/bear/englishlearning/ui/screens/translation/TranslationViewModel.kt:50-56 | the initial state has empty input, "en" to "zh-TW", Idle and no history |
| TranslationScreen.SwapTwice | app/src/main/java/com/bear/englishlearning/ui/screens/translation/TranslationViewModel.kt:87-97 | a swap exchanges the languages, sets Idle, keeps the history and takes the result text as input iff the screen showed a result; two swaps restore the languages |
| TranslationScreen.PushedKeepsNewest | app/src/main/java/com/bear/englishlearning/ui/screens/translation/TranslationViewModel.kt:125 | a push is the first 20 of the item followed by the old history |
| TranslationScreen.PushedAllKeepsNewest | app/src/main/java/com/bear/englishlearning/ui/screens/translation/TranslationViewModel.kt:125 | after many translations the history is the 20 newest items, newest first |
| TranslationScreen.TranslationViewModel.constructor | app/src/main/java/com/bear/englishlearning/ui/screens/translation/TranslationViewModel.kt:70 | the screen starts in the initial state |
| TranslationScreen.TranslationViewModel.UpdateInputText | app/src/main/java/com/bear/englishlearning/ui/screens/translation/TranslationViewModel.kt:75-77 | only the input text changes |
| TranslationScreen.TranslationViewModel.SetSourceLang | app/src/main/java/com/bear/englishlearning/ui/screens/translation/TranslationViewModel.kt:79-81 | only the source language changes |
| TranslationScreen.TranslationViewModel.SetTargetLang | app/src/main/java/com/bear/englishlearning/ui/screens/translation/TranslationViewModel.kt:83-85 | only the target language changes |
| TranslationScreen.TranslationViewModel.SwapLanguages | app/src/main/java/com/bear/englishlearning/ui/screens/translation/TranslationViewModel.kt:87-97 | the new state is the swap of the old one |
| TranslationScreen.TranslationViewModel.Translate | app/src/main/java/com/bear/englishlearning/ui/screens/translation/TranslationViewModel.kt:99-137 | blank input changes nothing; success shows the result and pushes the item to the history; failure shows the message or "Translation failed" and keeps the history; the history stays at most 20 |
| TranslationScreen.TranslationViewModel.ClearInput | app/src/main/java/com/bear/englishlearning/ui/screens/translation/TranslationViewModel.kt:139-144 | empties the input and sets Idle; languages and history are untouched |
| TranslationScreen.TranslationViewModel.LoadFromHistory | app/src/main/java/com/bear/englishlearning/ui/screens/translation/TranslationViewModel.kt:146-153 | takes the item's text and languages and shows its stored result with no alternatives or examples |
| ConversationEngine.Pick | app/src/main/java/com/bear/englishlearning/domain/conversation/ConversationEngine.kt:134-143 | `random()` with the choice passed in returns a member of the list |
| ConversationEngine.FirstMatch | app/src/main/java/com/bear/englishlearning/domain/conversation/ConversationEngine.kt:301-316 | the reply of the first rule with a keyword in the input; the fallback pick when no rule matches |
| ConversationEngine.Find | app/src/main/java/com/bear/englishlearning/domain/conversation/ConversationEngine.kt:69 | `find`: a topic with that id from the list, or none when no topic has it |
| ConversationEngine.TopicWithId | app/src/main/java/com/bear/englishlearning/domain/conversation/ConversationEngine.kt:68-70 | the selected topic is in the list; it has the id when one has it, and is the first topic ("cafe") otherwise |
| ConversationEngine.Engine.constructor | app/src/main/java/com/bear/englishlearning/domain/conversation/ConversationEngine.kt:61 | the engine starts on the chosen topic |
| ConversationEngine.Engine.GetRandomTopic | app/src/main/java/com/bear/englishlearning/domain/conversation/ConversationEngine.kt:63-66 | the chosen topic becomes current and is returned |
| ConversationEngine.Engine.SetTopic | app/src/main/java/com/bear/englishlearning/domain/conversation/ConversationEngine.kt:68-70 | the current topic becomes the topic selected for the id |
| ConversationEngine.Engine.GenerateReply | app/src/main/java/com/bear/englishlearning/domain/conversation/ConversationEngine.kt:76-90 | the reply for the lower-cased, trimmed input under the current topic, whatever the history; both halves are non-blank and end with a visible character |
| ConversationEngine.SolidNonBlank | app/src/main/java/com/bear/englishlearning/domain/conversation/ConversationEngine.kt:432 | a reply whose halves end in a visible character is non-blank |
| ConversationEngine.GreetingTablesSolid | app/src/main/java/com/bear/englishlearning/domain/conversation/ConversationEngine.kt:134-162 | every greeting, goodbye and thank-you reply has non-blank halves |
| ConversationEngine.YesListsSolid | app/src/main/java/com/bear/englishlearning/domain/conversation/ConversationEngine.kt:163-207 | the first four per-topic yes lists have non-blank replies |
| ConversationEngine.MoreYesListsSolid | app/src/main/java/com/bear/englishlearning/domain/conversation/ConversationEngine.kt:163-207 | the other yes lists and the defaults have non-blank replies |
| ConversationEngine.YesListSolid | app/src/main/java/com/bear/englishlearning/domain/conversation/ConversationEngine.kt:163-207 | each keyed yes list is non-empty with non-blank replies |
| ConversationEngine.YesFollowUpSolid | app/src/main/java/com/bear/englishlearning/domain/conversation/ConversationEngine.kt:163-207 | the yes follow-up for any topic id, keyed or default, is non-blank |
| ConversationEngine.NoFollowUpSolid | app/src/main/java/com/bear/englishlearning/domain/conversation/ConversationEngine.kt:209-221 | the no follow-up for any topic id is non-blank |
| ConversationEngine.PriceReplySolid | app/src/main/java/com/bear/englishlearning/domain/conversation/ConversationEngine.kt:244-253 | the price reply for any topic id is non-blank |
| ConversationEngine.TimeReplySolid | app/src/main/java/com/bear/englishlearning/domain/conversation/ConversationEngine.kt:255-265 | the time reply for any topic id is non-blank |
| ConversationEngine.LocationReplySolid | app/src/main/java/com/bear/englishlearning/domain/conversation/ConversationEngine.kt:267-276 | the location reply for any topic id is non-blank |
| ConversationEngine.RecommendReplySolid | app/src/main/java/com/bear/englishlearning/domain/conversation/ConversationEngine.kt:278-286 | the recommendation reply for any topic id is non-blank |
| ConversationEngine.GenericAnswersSolid | app/src/main/java/com/bear/englishlearning/domain/conversation/ConversationEngine.kt:223-243 | every generic answer to a question is non-blank |
| ConversationEngine.CafeRulesSolid | app/src/main/java/com/bear/englishlearning/domain/conversation/ConversationEngine.kt:301-316 | the cafe rules and fallbacks are non-blank |
| ConversationEngine.HotelRulesSolid | app/src/main/java/com/bear/englishlearning/domain/conversation/ConversationEngine.kt:317-329 | the hotel rules and fallbacks are non-blank |
| ConversationEngine.ShoppingRulesSolid | app/src/main/java/com/bear/englishlearning/domain/conversation/ConversationEngine.kt:330-342 | the shopping rules and fallbacks are non-blank |
| ConversationEngine.RestaurantRulesSolid | app/src/main/java/com/bear/englishlearning/domain/conversation/ConversationEngine.kt:343-358 | the restaurant rules and fallbacks are non-blank |
| ConversationEngine.DirectionsRulesSolid | app/src/main/java/com/bear/englishlearning/domain/conversation/ConversationEngine.kt:359-371 | the directions rules and fallbacks are non-blank |
| ConversationEngine.DoctorRulesSolid | app/src/main/java/com/bear/englishlearning/domain/conversation/ConversationEngine.kt:372-387 | the doctor rules and fallbacks are non-blank |
| ConversationEngine.AirportRulesSolid | app/src/main/java/com/bear/englishlearning/domain/conversation/ConversationEngine.kt:388-403 | the airport rules and fallbacks are non-blank |
| ConversationEngine.DailyRulesSolid | app/src/main/java/com/bear/englishlearning/domain/conversation/ConversationEngine.kt:404-431 | the daily-life rules and fallbacks are non-blank |
| ConversationEngine.FirstMatchSolid | app/src/main/java/com/bear/englishlearning/domain/conversation/ConversationEngine.kt:301-316 | first-match selection over non-blank rules gives a non-blank reply |
| ConversationEngine.QuestionReplySolid | app/src/main/java/com/bear/englishlearning/domain/conversation/ConversationEngine.kt:223-243 | every question reply is non-blank |
| ConversationEngine.TopicReplySolid | app/src/main/java/com/bear/englishlearning/domain/conversation/ConversationEngine.kt:288-300 | every topic reply, for any topic id, is non-blank |
| ConversationEngine.ReplyNonBlank | app/src/test/java/com/bear/englishlearning/domain/conversation/ConversationEngineTest.kt:201-216 | for every topic id, input and pick, both halves of the reply are non-blank |
| ConversationEngine.TopicIdsDistinct | app/src/main/java/com/bear/englishlearning/domain/conversation/ConversationEngine.kt:18-59 | there are 8 topics with pairwise distinct ids |
| ConversationEngine.TopicsNonBlank | app/src/main/java/com/bear/englishlearning/domain/conversation/ConversationEngine.kt:18-59 | no field of any topic is blank |
| ConversationEngine.TopicVisible | app/src/main/java/com/bear/englishlearning/domain/conversation/ConversationEngine.kt:18-59 | each topic's fields are non-blank |
| ConversationEngine.SelectById | app/src/test/java/com/bear/englishlearning/domain/conversation/ConversationEngineTest.kt:41-54 | selecting a topic's id selects that topic |
| ConversationEngine.ClassifyPriority | app/src/main/java/com/bear/englishlearning/domain/conversation/ConversationEngine.kt:83-89 | greeting, goodbye, thanks, yes, no, question, topic: each class holds iff its test passes and no earlier one does |
| ConversationEngine.Classify | app/src/main/java/com/bear/englishlearning/domain/conversation/ConversationEngine.kt:83-89 | the topic rules answer exactly when none of the six tests passes (the priority of the six in ClassifyPriority) |
| ConversationEngine.ReplyFor | app/src/main/java/com/bear/englishlearning/domain/conversation/ConversationEngine.kt:83-89 | greetings, goodbyes and thanks are answered from their own tables whatever the topic (every reply non-blank, in ReplyNonBlank) |
| ConversationEngine.ContainsHiIsGreeting | app/src/main/java/com/bear/englishlearning/domain/conversation/ConversationEngine.kt:92-98 | any input containing "hi" (such as "this") is classified as a greeting |
| ConversationEngine.KeyedTables | app/src/main/java/com/bear/englishlearning/domain/conversation/ConversationEngine.kt:163-286 | which topics have their own entry in each keyed table; the others fall back to the default |
| RandomConversation.ScenariosShape | app/src/main/java/com/bear/englishlearning/domain/conversation/RandomConversationGenerator.kt:21-474 | ten templates, each with eight non-empty pools |
| RandomConversation.Assemble | app/src/main/java/com/bear/englishlearning/domain/conversation/RandomConversationGenerator.kt:484-505 | the conversation row takes the template's titles and the tag "random"; there is one line per pool, and line k is a variant from pool k carrying the conversation id |
| RandomConversation.Generate | app/src/main/java/com/bear/englishlearning/domain/conversation/RandomConversationGenerator.kt:480-506 | the id lies in [-99999, -1]; the titles come from the chosen template; the tag is "random"; there are 8 lines, each a variant of its pool |
| RandomConversation.OrderAndSpeakers | app/src/main/java/com/bear/englishlearning/domain/conversation/RandomConversationGenerator.kt:493-501 | order indices run 1..n, and the speaker is "A" on even and "B" on odd positions |
| RandomConversation.LineIdsNegativeAndDistinct | app/src/main/java/com/bear/englishlearning/domain/conversation/RandomConversationGenerator.kt:495 | with a negative conversation id every line id is negative and no two are equal |
| RandomConversation.LineIdDecodes | app/src/main/java/com/bear/englishlearning/domain/conversation/RandomConversationGenerator.kt:495 | a line id gives back its conversation id and its position |
| RandomConversation.LineIdsNeverCollide | app/src/main/java/com/bear/englishlearning/domain/conversation/RandomConversationGenerator.kt:476-495 | lines of two generated conversations never share an id unless conversation and position agree |
| DailyScenario.GenerateForDate | app/src/main/java/com/bear/englishlearning/domain/scenario/DailyScenarioGenerator.kt:20-25 | the scenario of a date is one of the 20 templates and has 10 sentences, and depends only on the epoch day |
| DailyScenario.GenerateForToday | app/src/main/java/com/bear/englishlearning/domain/scenario/DailyScenarioGenerator.kt:16-18 | today's scenario is the scenario of today's date |
| DailyScenario.ScenariosShape | app/src/main/java/com/bear/englishlearning/domain/scenario/DailyScenarioGenerator.kt:27-288 | there are 20 templates of exactly 10 sentences each |
| DailyVocabulary.Shuffled | app/src/main/java/com/bear/englishlearning/domain/vocabulary/DailyVocabularyGenerator.kt:28 | a shuffle is a permutation of the list (same length, same multiset) |
| DailyVocabulary.Sheet | app/src/main/java/com/bear/englishlearning/domain/vocabulary/DailyVocabularyGenerator.kt:28 | a sheet holds min(10, list size) words and is a sub-multiset of the list |
| DailyVocabulary.GenerateForDate | app/src/main/java/com/bear/englishlearning/domain/vocabulary/DailyVocabularyGenerator.kt:24-29 | the sheet of a date has 10 entries drawn from the list without reuse of an entry, and depends only on the epoch day |
| DailyVocabulary.GenerateForToday | app/src/main/java/com/bear/englishlearning/domain/vocabulary/DailyVocabularyGenerator.kt:20-22 | today's sheet is the sheet of today's date |
| DailyVocabulary.AllWordsSize | app/src/main/java/com/bear/englishlearning/domain/vocabulary/DailyVocabularyGenerator.kt:31-225 | the list holds 158 entries |
| DailyVocabulary.RepeatedWords | app/src/main/java/com/bear/englishlearning/domain/vocabulary/DailyVocabularyGenerator.kt:46-155 | "temperature" and "opportunity" each occur twice, under different categories |
| DailyVocabulary.FirstTwoDraws | app/src/main/java/com/bear/englishlearning/domain/vocabulary/DailyVocabularyGenerator.kt:28 | two draws put two chosen entries at the head of the shuffle |
| DailyVocabulary.SheetFirstTwo | app/src/main/java/com/bear/englishlearning/domain/vocabulary/DailyVocabularyGenerator.kt:28 | the same two entries head the sheet |
| DailyVocabulary.SheetCanRepeatAWord | app/src/main/java/com/bear/englishlearning/domain/vocabulary/DailyVocabularyGenerator.kt:46-155 | a sheet can show the same word twice, so sheet words are not distinct |
| DailyProgress.Fresh | app/src/main/java/com/bear/englishlearning/data/local/entity/DailyProgress.kt:11-22 | the row inserted for a date carries that date and all counters at zero |
| DailyProgress.Bump | app/src/main/java/com/bear/englishlearning/data/local/dao/DailyProgressDao.kt:25-30 | an increment UPDATE raises its own counter by count and leaves the date and every other counter as they were |
| DailyProgress.EnsureRow | app/src/main/java/com/bear/englishlearning/data/repository/DailyProgressRepository.kt:27-32 | afterwards the date has a row; existing rows are untouched; a missing date gets the zero row |
| DailyProgress.Increment | app/src/main/java/com/bear/englishlearning/data/local/dao/DailyProgressDao.kt:25-72 | the UPDATE changes only the row of its date, and none when the date has no row |
| DailyProgress.EnsureIdempotent | app/src/main/java/com/bear/englishlearning/data/repository/DailyProgressRepository.kt:27-32 | ensuring a row twice is ensuring it once, and a date that has a row is left alone |
| DailyProgress.RecordAddsExactly | app/src/main/java/com/bear/englishlearning/data/repository/DailyProgressRepository.kt:34-74 | with one clock reading, a record never loses its increment: the date's row has its counter raised by count over the old or zero row, other counters and other dates unchanged |
| DailyProgress.SameCounters | app/src/main/java/com/bear/englishlearning/data/local/entity/DailyProgress.kt:11-20 | two rows with the same date and counters are the same row |
| DailyProgress.RecordedWrites | app/src/main/java/com/bear/englishlearning/data/repository/DailyProgressRepository.kt:34-74 | a record writes exactly one row: the date's row, or the zero row, with the counter raised |
| DailyProgress.BumpsCommute | app/src/main/java/com/bear/englishlearning/data/local/dao/DailyProgressDao.kt:25-72 | raising two counters of a row in either order gives the same row |
| DailyProgress.RecordsCommute | app/src/main/java/com/bear/englishlearning/data/repository/DailyProgressRepository.kt:34-74 | records on the same day commute, whichever counters they raise |
| DailyProgress.MidnightLosesIncrement | app/src/main/java/com/bear/englishlearning/data/repository/DailyProgressRepository.kt:34-37 | as written, the two clock readings can straddle midnight: the zero row goes to the new day and the increment is lost |
| DailyProgress.SameReadingAgrees | app/src/main/java/com/bear/englishlearning/data/repository/DailyProgressRepository.kt:34-37 | with equal clock readings the as-written record equals the corrected one |
| DailyProgress.TotalActiveDaysNarrower | app/src/main/java/com/bear/englishlearning/data/local/dao/DailyProgressDao.kt:74-75 | the active-day count never exceeds the number of days the calendar counts as practised, and a day with only a listening quiz is practised but not counted |
| DailyProgress.TotalActiveDays | app/src/main/java/com/bear/englishlearning/data/local/dao/DailyProgressDao.kt:74-75 | at most one per stored day, and zero exactly when no day passes the WHERE clause (compared with the calendar in TotalActiveDaysNarrower) |
| DailyProgress.ProgressRepository.constructor | app/src/main/java/com/bear/englishlearning/data/local/entity/DailyProgress.kt:7-10 | the table starts empty and keyed by date |
| DailyProgress.ProgressRepository.ProgressByDate | app/src/main/java/com/bear/englishlearning/data/local/dao/DailyProgressDao.kt:13-14 | the row of the date exactly when there is one |
| DailyProgress.ProgressRepository.EnsureTodayExists | app/src/main/java/com/bear/englishlearning/data/repository/DailyProgressRepository.kt:27-32 | the rows become the ensured rows for the clock's date; at most one row per date |
| DailyProgress.ProgressRepository.Record | app/src/main/java/com/bear/englishlearning/data/repository/DailyProgressRepository.kt:34-74 | ensure, then increment, on one date; at most one row per date |
| DailyProgress.ProgressRepository.RecordSentencePractice | app/src/main/java/com/bear/englishlearning/data/repository/DailyProgressRepository.kt:34-38 | a record of sentencesPracticed |
| DailyProgress.ProgressRepository.RecordVocabularyLearned | app/src/main/java/com/bear/englishlearning/data/repository/DailyProgressRepository.kt:40-44 | a record of vocabularyLearned |
| DailyProgress.ProgressRepository.RecordConversationTurn | app/src/main/java/com/bear/englishlearning/data/repository/DailyProgressRepository.kt:46-50 | a record of conversationTurns |
| DailyProgress.ProgressRepository.RecordListeningQuiz | app/src/main/java/com/bear/englishlearning/data/repository/DailyProgressRepository.kt:52-56 | a record of listeningQuizzes |
| DailyProgress.ProgressRepository.RecordMemoCreated | app/src/main/java/com/bear/englishlearning/data/repository/DailyProgressRepository.kt:58-62 | a record of memosCreated |
| DailyProgress.ProgressRepository.RecordTranslation | app/src/main/java/com/bear/englishlearning/data/repository/DailyProgressRepository.kt:64-68 | a record of translationsCount |
| DailyProgress.ProgressRepository.RecordStudyMinutes | app/src/main/java/com/bear/englishlearning/data/repository/DailyProgressRepository.kt:70-74 | a record of studyMinutes |
| DailyProgress.ProgressRepository.Upsert | app/src/main/java/com/bear/englishlearning/data/local/dao/DailyProgressDao.kt:22-23 | REPLACE on the unique date: the row takes its date's place |
| Calendar.PreviousOf | app/src/main/java/com/bear/englishlearning/ui/screens/calendar/CalendarViewModel.kt:76 | `minusMonths(1)` gives a valid month one earlier |
| Calendar.NextOf | app/src/main/java/com/bear/englishlearning/ui/screens/calendar/CalendarViewModel.kt:81 | `plusMonths(1)` gives a valid month one later |
| Calendar.MonthRoundTrip | app/src/main/java/com/bear/englishlearning/ui/screens/calendar/CalendarViewModel.kt:75-83 | going back a month and then forward again returns to the same month, and the other way round |
| Calendar.LengthOfMonth | app/src/main/java/com/bear/englishlearning/ui/screens/calendar/CalendarViewModel.kt:109 | a month has 28 to 31 days, and February has 29 exactly in leap years |
| Calendar.DayOfWeek | app/src/main/java/com/bear/englishlearning/ui/screens/calendar/CalendarViewModel.kt:112 | the day of the week is 1 (Monday) to 7 (Sunday) |
| Calendar.EpochOrigin | app/src/main/java/com/bear/englishlearning/ui/screens/calendar/CalendarViewModel.kt:112 | 1 January 1970 is epoch day 0, a Thursday |
| Calendar.NextWeekday | app/src/main/java/com/bear/englishlearning/ui/screens/calendar/CalendarViewModel.kt:112 | weekdays follow one another and repeat every 7 days |
| Calendar.MarchYearLength | app/src/main/java/com/bear/englishlearning/ui/screens/calendar/CalendarViewModel.kt:108-109 | a year counted from March has 366 days exactly when the February it ends with is a leap February |
| Calendar.MonthsAdjacent | app/src/main/java/com/bear/englishlearning/ui/screens/calendar/CalendarViewModel.kt:108-109 | the next month starts the day after this month ends |
| Calendar.DaysOfMonth | app/src/main/java/com/bear/englishlearning/ui/screens/calendar/CalendarViewModel.kt:108-109 | the days of a month are consecutive from its first |
| Calendar.ActivityLevel | app/src/main/java/com/bear/englishlearning/ui/screens/calendar/CalendarViewModel.kt:42-48 | the level lies in 0..3 |
| Calendar.ActivityBuckets | app/src/main/java/com/bear/englishlearning/ui/screens/calendar/CalendarViewModel.kt:33-48 | the total is not negative; level 0 exactly at total 0, 1 for 1 to 4, 2 for 5 to 14, 3 from 15 on |
| Calendar.ShadedIffActive | app/src/main/java/com/bear/englishlearning/ui/screens/calendar/CalendarViewModel.kt:23-48 | a day has activity iff its total is positive iff its level is positive |
| Calendar.LevelMonotone | app/src/main/java/com/bear/englishlearning/ui/screens/calendar/CalendarViewModel.kt:42-48 | more activity never gives a lower level |
| Calendar.ProgressRange | app/src/main/java/com/bear/englishlearning/ui/screens/calendar/CalendarViewModel.kt:119-122 | the rows whose date lies in the range, keyed by date |
| Calendar.GridStartMonday | app/src/main/java/com/bear/englishlearning/ui/screens/calendar/CalendarViewModel.kt:111-116 | the grid starts on the Monday on or before the 1st, and its 42 days reach past the month's last day |
| Calendar.MondayOnOrBefore | app/src/main/java/com/bear/englishlearning/ui/screens/calendar/CalendarViewModel.kt:112-113 | stepping back dayOfWeek - 1 days lands on the Monday of the same week |
| Calendar.GridShape | app/src/main/java/com/bear/englishlearning/ui/screens/calendar/CalendarViewModel.kt:104-133 | the grid is 42 consecutive days from that Monday; a cell is current-month iff its date is in the month, today iff it is today, and shows its date's own row |
| Calendar.MonthGrid | app/src/main/java/com/bear/englishlearning/ui/screens/calendar/CalendarViewModel.kt:104-133 | 42 cells, each showing its own date's stored row or none (the rest of its shape in GridShape) |
| Calendar.TodayAtMostOnce | app/src/main/java/com/bear/englishlearning/ui/screens/calendar/CalendarViewModel.kt:130 | at most one cell is today |
| Calendar.CurrentMonthRun | app/src/main/java/com/bear/englishlearning/ui/screens/calendar/CalendarViewModel.kt:125-133 | the current-month cells are one run of consecutive cells, one per day of the month, starting in the first week |
| Calendar.RunUnique | app/src/main/java/com/bear/englishlearning/ui/screens/calendar/CalendarViewModel.kt:166-169 | a streak ending at a given day has only one possible length |
| Calendar.CalculateStreak | app/src/main/java/com/bear/englishlearning/ui/screens/calendar/CalendarViewModel.kt:143-172 | the streak is the run of practised days ending today, or yesterday when today has no practice, with the day before it not practised; 0 without practised days |
| Calendar.CalendarViewModel.constructor | app/src/main/java/com/bear/englishlearning/ui/screens/calendar/CalendarViewModel.kt:70-73 | loads the current month's grid with no selection, the active-day count and the streak |
| Calendar.CalendarViewModel.LoadMonth | app/src/main/java/com/bear/englishlearning/ui/screens/calendar/CalendarViewModel.kt:104-141 | shows the month's grid, stops loading and clears the selection; the statistics stay |
| Calendar.CalendarViewModel.LoadStats | app/src/main/java/com/bear/englishlearning/ui/screens/calendar/CalendarViewModel.kt:93-102 | sets the active-day count and the streak and nothing else |
| Calendar.CalendarViewModel.PreviousMonth | app/src/main/java/com/bear/englishlearning/ui/screens/calendar/CalendarViewModel.kt:75-78 | moves to the previous month, shows its grid and clears the selection |
| Calendar.CalendarViewModel.NextMonth | app/src/main/java/com/bear/englishlearning/ui/screens/calendar/CalendarViewModel.kt:80-83 | moves to the next month, shows its grid and clears the selection |
| Calendar.CalendarViewModel.SelectDay | app/src/main/java/com/bear/englishlearning/ui/screens/calendar/CalendarViewModel.kt:85-87 | only the selection changes, to the day |
| Calendar.CalendarViewModel.ClearSelection | app/src/main/java/com/bear/englishlearning/ui/screens/calendar/CalendarViewModel.kt:89-91 | only the selection changes, to none |
| ConversationScreen.RevealStep | app/src/main/java/com/bear/englishlearning/ui/screens/conversation/ConversationViewModel.kt:103-110 | a reveal adds exactly one line while a line is hidden and changes nothing otherwise; the counter stays within the lines |
| ConversationScreen.RevealMany | app/src/main/java/com/bear/englishlearning/ui/screens/conversation/ConversationViewModel.kt:103-110 | n reveals show min(shown + n, all) lines |
| ConversationScreen.ToggleTwice | app/src/main/java/com/bear/englishlearning/ui/screens/conversation/ConversationViewModel.kt:112-117 | toggling twice restores the state; a toggle flips only the translation switch |
| ConversationScreen.ResetForgets | app/src/main/java/com/bear/englishlearning/ui/screens/conversation/ConversationViewModel.kt:119-124 | a reset hides every line and the translation, keeps conversation, lines and mode, and makes earlier reveals and toggles irrelevant |
| ConversationScreen.LoadsStartHidden | app/src/main/java/com/bear/englishlearning/ui/screens/conversation/ConversationViewModel.kt:57-94 | a load succeeds exactly when a conversation was found, and starts at line 0, translation hidden, in its own mode |
| ConversationScreen.ConversationViewModel.constructor | app/src/main/java/com/bear/englishlearning/ui/screens/conversation/ConversationViewModel.kt:45-47 | the screen starts in PRESET mode with a stored conversation loaded |
| ConversationScreen.ConversationViewModel.LoadRandomConversation | app/src/main/java/com/bear/englishlearning/ui/screens/conversation/ConversationViewModel.kt:57-78 | the conversation found, "no conversation" when there is none, or the load error |
| ConversationScreen.ConversationViewModel.LoadGeneratedConversation | app/src/main/java/com/bear/englishlearning/ui/screens/conversation/ConversationViewModel.kt:80-94 | the generated conversation of eight lines, in RANDOM mode |
| ConversationScreen.ConversationViewModel.SwitchMode | app/src/main/java/com/bear/englishlearning/ui/screens/conversation/ConversationViewModel.kt:49-55 | records the mode, then loads from that mode's source |
| ConversationScreen.ConversationViewModel.LoadNext | app/src/main/java/com/bear/englishlearning/ui/screens/conversation/ConversationViewModel.kt:96-101 | loads again from the current mode's source |
| ConversationScreen.ConversationViewModel.RevealNextLine | app/src/main/java/com/bear/englishlearning/ui/screens/conversation/ConversationViewModel.kt:103-110 | the state becomes the revealed state |
| ConversationScreen.ConversationViewModel.ToggleTranslation | app/src/main/java/com/bear/englishlearning/ui/screens/conversation/ConversationViewModel.kt:112-117 | the state becomes the toggled state |
| ConversationScreen.ConversationViewModel.ResetConversation | app/src/main/java/com/bear/englishlearning/ui/screens/conversation/ConversationViewModel.kt:119-124 | the state becomes the reset state |
| RealTimeConversation.BotTexts | app/src/main/java/com/bear/englishlearning/ui/screens/realtimeconversation/RealTimeConversationViewModel.kt:104 | the history has at most one entry per message |
| RealTimeConversation.LogStaysWellFormed | app/src/main/java/com/bear/englishlearning/ui/screens/realtimeconversation/RealTimeConversationViewModel.kt:59-113 | in every log the screen builds, each user message is followed at once by a bot reply |
| RealTimeConversation.SpeechAddsTwo | app/src/main/java/com/bear/englishlearning/ui/screens/realtimeconversation/RealTimeConversationViewModel.kt:94-113 | a sentence keeps the log and adds the user's message then the reply; the history the engine sees is the earlier bot texts, and afterwards also the reply |
| RealTimeConversation.RealTimeConversationViewModel.constructor | app/src/main/java/com/bear/englishlearning/ui/screens/realtimeconversation/RealTimeConversationViewModel.kt:36-49 | an empty log, Idle, no partial text, the engine's topic, translation shown |
| RealTimeConversation.RealTimeConversationViewModel.StartNewConversation | app/src/main/java/com/bear/englishlearning/ui/screens/realtimeconversation/RealTimeConversationViewModel.kt:59-71 | the log is the current topic's greeting alone, Idle, no partial text |
| RealTimeConversation.RealTimeConversationViewModel.SelectTopic | app/src/main/java/com/bear/englishlearning/ui/screens/realtimeconversation/RealTimeConversationViewModel.kt:53-57 | the engine's topic for the id becomes current and a new conversation starts |
| RealTimeConversation.RealTimeConversationViewModel.RandomTopic | app/src/main/java/com/bear/englishlearning/ui/screens/realtimeconversation/RealTimeConversationViewModel.kt:73-77 | the drawn topic becomes current and a new conversation starts |
| RealTimeConversation.RealTimeConversationViewModel.ToggleTranslation | app/src/main/java/com/bear/englishlearning/ui/screens/realtimeconversation/RealTimeConversationViewModel.kt:79-81 | only the translation switch flips |
| RealTimeConversation.RealTimeConversationViewModel.SetListening | app/src/main/java/com/bear/englishlearning/ui/screens/realtimeconversation/RealTimeConversationViewModel.kt:83-86 | Listening with the partial text cleared; the log is kept |
| RealTimeConversation.RealTimeConversationViewModel.OnSpeechResult | app/src/main/java/com/bear/englishlearning/ui/screens/realtimeconversation/RealTimeConversationViewModel.kt:88-114 | a blank sentence only returns to Idle; otherwise the sentence and the engine's reply to it join the log and the screen is Speaking |
| RealTimeConversation.RealTimeConversationViewModel.OnSpeakingDone | app/src/main/java/com/bear/englishlearning/ui/screens/realtimeconversation/RealTimeConversationViewModel.kt:116-118 | only the screen state changes, to Idle |
| RealTimeConversation.RealTimeConversationViewModel.OnListeningError | app/src/main/java/com/bear/englishlearning/ui/screens/realtimeconversation/RealTimeConversationViewModel.kt:120-123 | Idle with the partial text cleared; the log is kept |
| RealTimeConversation.RealTimeConversationViewModel.ClearConversation | app/src/main/java/com/bear/englishlearning/ui/screens/realtimeconversation/RealTimeConversationViewModel.kt:125-129 | an empty log, Idle, no partial text |
| RealTimeConversation.RealTimeConversationViewModel.OnReadyForSpeech | app/src/main/java/com/bear/englishlearning/ui/screens/realtimeconversation/RealTimeConversationViewModel.kt:144-146 | only the screen state changes, to Listening |
| RealTimeConversation.RealTimeConversationViewModel.OnEndOfSpeech | app/src/main/java/com/bear/englishlearning/ui/screens/realtimeconversation/RealTimeConversationViewModel.kt:152-154 | only the screen state changes, to Processing |
| RealTimeConversation.RealTimeConversationViewModel.OnPartialResults | app/src/main/java/com/bear/englishlearning/ui/screens/realtimeconversation/RealTimeConversationViewModel.kt:166-171 | only the partial text changes, to the first result or "" |
| RealTimeConversation.RealTimeConversationViewModel.OnResults | app/src/main/java/com/bear/englishlearning/ui/screens/realtimeconversation/RealTimeConversationViewModel.kt:160-164 | the first result, or "", is handled as a spoken sentence: blank leaves the log and partial text alone and goes Idle; otherwise the logged reply is the engine's reply to it, the partial text clears and the screen is Speaking; topic and translation switch are kept |
| MemoStore.DueRows | app/src/main/java/com/bear/englishlearning/data/local/dao/MemoDao.kt:23 | a row passes the review filter iff it is not reviewed and due by now |
| MemoStore.AllMemos | app/src/main/java/com/bear/englishlearning/data/local/dao/MemoDao.kt:20-21 | the listing holds the same rows as the table |
| MemoStore.MemosToReview | app/src/main/java/com/bear/englishlearning/data/local/dao/MemoDao.kt:23-24 | the review listing holds the same rows as the filter |
| MemoStore.Marked | app/src/main/java/com/bear/englishlearning/data/local/dao/MemoDao.kt:29-30 | the rows with the id become reviewed, every other row and the order stay |
| MemoStore.WithoutId | app/src/main/java/com/bear/englishlearning/data/local/dao/MemoDao.kt:35-36 | the rows kept are exactly the rows without the id |
| MemoStore.Ids | app/src/main/java/com/bear/englishlearning/ui/screens/review/ReviewViewModel.kt:47-49 | the ids of the listed memos, in list order |
| MemoStore.MarkedAll | app/src/main/java/com/bear/englishlearning/ui/screens/review/ReviewViewModel.kt:45-52 | marking a list of ids keeps the number of rows |
| MemoStore.CountDue | app/src/main/java/com/bear/englishlearning/ui/screens/memo/MemoViewModel.kt:68-70 | the count never exceeds the number of memos |
| MemoStore.ReviewListing | app/src/main/java/com/bear/englishlearning/data/local/dao/MemoDao.kt:23-24 | the review listing is newest first and holds exactly the due rows, once each |
| MemoStore.MarkedNotDue | app/src/main/java/com/bear/englishlearning/data/local/dao/MemoDao.kt:29-30 | after marking an id no memo with it is listed for review, and the other rows are kept |
| MemoStore.MarkedAllNotDue | app/src/main/java/com/bear/englishlearning/ui/screens/review/ReviewViewModel.kt:45-52 | after marking every listed id, each row with one of those ids is reviewed, so the review filter at any instant passes none of them |
| MemoStore.MarkedStaysMarked | app/src/main/java/com/bear/englishlearning/data/local/dao/MemoDao.kt:29-30 | later marks never clear a mark |
| MemoStore.WithoutIdKeepsOrder | app/src/main/java/com/bear/englishlearning/data/local/dao/MemoDao.kt:35-36 | the delete filter works piece by piece, keeping order |
| MemoStore.WithoutAbsentId | app/src/main/java/com/bear/englishlearning/data/local/dao/MemoDao.kt:35-36 | deleting an id no row has changes nothing |
| MemoStore.MarkedAllSnoc | app/src/main/java/com/bear/englishlearning/ui/screens/review/ReviewViewModel.kt:47-49 | marking a list then one more id is marking the longer list |
| MemoStore.CountDueSplit | app/src/main/java/com/bear/englishlearning/ui/screens/memo/MemoViewModel.kt:68-70 | counting due memos adds up over a concatenation |
| MemoStore.RemoveOne | app/src/main/java/com/bear/englishlearning/ui/screens/memo/MemoViewModel.kt:68-70 | a list is its element k plus the rest, in contents and in due count |
| MemoStore.CountDuePermutation | app/src/main/java/com/bear/englishlearning/ui/screens/memo/MemoViewModel.kt:68-70 | the count of due memos does not depend on the order of the list |
| MemoStore.CountIsFilter | app/src/main/java/com/bear/englishlearning/ui/screens/memo/MemoViewModel.kt:68-70 | the count of due memos is the length of the review filter |
| MemoStore.MemoDao.constructor | app/src/main/java/com/bear/englishlearning/data/local/entity/Memo.kt:6-15 | the table starts empty |
| MemoStore.MemoDao.InsertMemo | app/src/main/java/com/bear/englishlearning/data/local/dao/MemoDao.kt:14-15 | id 0 takes a fresh id above every earlier one; the row with the id is replaced by the new row, appended; ids stay unique |
| MemoStore.MemoDao.MarkAsReviewed | app/src/main/java/com/bear/englishlearning/data/local/dao/MemoDao.kt:29-30 | the rows become the marked rows |
| MemoStore.MemoDao.DeleteMemo | app/src/main/java/com/bear/englishlearning/data/local/dao/MemoDao.kt:35-36 | the rows become the rows without the id |
| MemoStore.WithoutIdKeepsKeys | app/src/main/java/com/bear/englishlearning/data/local/dao/MemoDao.kt:35-36 | a delete only removes rows and keeps the ids unique |
| MemoScreen.UnreviewedCount | app/src/main/java/com/bear/englishlearning/ui/screens/memo/MemoViewModel.kt:68-70 | the memo screen's count equals the length of the review screen's list at the same instant |
| MemoScreen.SavedMemoDueFrom | app/src/main/java/com/bear/englishlearning/ui/screens/memo/MemoViewModel.kt:36-45 | an unreviewed memo is listed for review exactly from its review instant on |
| MemoScreen.MemoViewModel.constructor | app/src/main/java/com/bear/englishlearning/ui/screens/memo/MemoViewModel.kt:28 | wraps the given valid repository, so the view model is valid, and no save is reported yet |
| MemoScreen.MemoViewModel.SaveMemo | app/src/main/java/com/bear/englishlearning/ui/screens/memo/MemoViewModel.kt:31-50 | blank content changes nothing; otherwise the new unreviewed memo, created now and due at 9:00 the next day, is appended under a fresh id and the save is reported |
| MemoScreen.MemoViewModel.MarkAsReviewed | app/src/main/java/com/bear/englishlearning/ui/screens/memo/MemoViewModel.kt:52-56 | the store marks the id |
| MemoScreen.MemoViewModel.DeleteMemo | app/src/main/java/com/bear/englishlearning/ui/screens/memo/MemoViewModel.kt:58-62 | the store deletes the id |
| MemoScreen.MemoViewModel.ResetSaveSuccess | app/src/main/java/com/bear/englishlearning/ui/screens/memo/MemoViewModel.kt:64-66 | the save report is cleared |
| ReviewScreen.ReviewViewModel.constructor | app/src/main/java/com/bear/englishlearning/ui/screens/review/ReviewViewModel.kt:19-27 | the list is the store's due memos, newest first, and loading is done |
| ReviewScreen.ReviewViewModel.LoadMemosToReview | app/src/main/java/com/bear/englishlearning/ui/screens/review/ReviewViewModel.kt:29-36 | the list is the store's due memos, newest first, and loading is done |
| ReviewScreen.ReviewViewModel.MarkAsReviewed | app/src/main/java/com/bear/englishlearning/ui/screens/review/ReviewViewModel.kt:38-43 | the store marks the id and the list drops it |
| ReviewScreen.ReviewViewModel.MarkAllAsReviewed | app/src/main/java/com/bear/englishlearning/ui/screens/review/ReviewViewModel.kt:45-52 | every listed memo is marked in the store, in list order, and the list empties |
| Preferences.FindByName | app/src/main/java/com/bear/englishlearning/data/preferences/AppPreferences.kt:26 | a found level has the name and comes from the entries; none found means no entry has the name |
| Preferences.CoerceIn | app/src/main/java/com/bear/englishlearning/data/preferences/AppPreferences.kt:54 | the result lies in [lo, hi], equals x when x does, and is the nearer bound otherwise |
| Preferences.FromNameIff | app/src/main/java/com/bear/englishlearning/data/preferences/AppPreferences.kt:25-26 | a name gives a level exactly when it is that level's name, or when it names no level and the level is BEGINNER |
| Preferences.FromName | app/src/main/java/com/bear/englishlearning/data/preferences/AppPreferences.kt:25-26 | the level has the given name, or no level has it and the level is BEGINNER (the converse in FromNameIff) |
| Preferences.FromNameOfName | app/src/main/java/com/bear/englishlearning/data/preferences/AppPreferences.kt:25-26 | a level's name reads back as that level |
| Preferences.SentenceCounts | app/src/main/java/com/bear/englishlearning/data/preferences/AppPreferences.kt:19-22 | the levels ask for 5, 10 and 20 sentences, increasing with the level |
| Preferences.AppPreferences.constructor | app/src/main/java/com/bear/englishlearning/data/preferences/AppPreferences.kt:17 | an empty store |
| Preferences.AppPreferences.SetDailyTaskCount | app/src/main/java/com/bear/englishlearning/data/preferences/AppPreferences.kt:52-56 | only the daily task count key changes, to the count clamped to [1, 20] |
| Preferences.AppPreferences.SetOnboardingCompleted | app/src/main/java/com/bear/englishlearning/data/preferences/AppPreferences.kt:58-62 | only the onboarding key changes, to the flag |
| Preferences.AppPreferences.SetDifficulty | app/src/main/java/com/bear/englishlearning/data/preferences/AppPreferences.kt:64-68 | only the difficulty key changes, to the level's name |
| Preferences.Defaults | app/src/main/java/com/bear/englishlearning/data/preferences/AppPreferences.kt:40-50 | an empty store reads as onboarding not done, BEGINNER and 5 tasks |
| Preferences.AppPreferences.OnboardingCompleted | app/src/main/java/com/bear/englishlearning/data/preferences/AppPreferences.kt:40-41 | true exactly when true is stored under the onboarding key |
| Preferences.AppPreferences.CurrentDifficulty | app/src/main/java/com/bear/englishlearning/data/preferences/AppPreferences.kt:43-47 | BEGINNER when nothing is stored; otherwise the level with the stored name, or BEGINNER |
| Preferences.AppPreferences.DailyTaskCount | app/src/main/java/com/bear/englishlearning/data/preferences/AppPreferences.kt:49-50 | 5 when nothing is stored, and always in [1, 20] in a valid store |
| Preferences.TaskCountInRange | app/src/main/java/com/bear/englishlearning/data/preferences/AppPreferences.kt:49-56 | the daily task count read back always lies in [1, 20] |
| Preferences.SettersReadBack | app/src/main/java/com/bear/englishlearning/data/preferences/AppPreferences.kt:40-68 | what each setter writes its reader reads back, the count clamped; the other two settings read as before |
| CustomWords.AllWords | app/src/main/java/com/bear/englishlearning/data/local/dao/CustomWordDao.kt:13-14 | the listing holds the same rows as the table |
| CustomWords.WithoutId | app/src/main/java/com/bear/englishlearning/data/local/dao/CustomWordDao.kt:22-23 | a delete never adds rows |
| CustomWords.WithoutIdRows | app/src/main/java/com/bear/englishlearning/data/local/dao/CustomWordDao.kt:19-23 | the rows kept are exactly the rows without the id, and ids stay unique |
| CustomWords.CustomWordDao.constructor | app/src/main/java/com/bear/englishlearning/data/local/entity/CustomWord.kt:6-18 | the table starts empty |
| CustomWords.CustomWordDao.Insert | app/src/main/java/com/bear/englishlearning/data/local/dao/CustomWordDao.kt:16-17 | id 0 takes a fresh id; the row with the id is replaced by the new row, appended; ids stay unique |
| CustomWords.CustomWordDao.Delete | app/src/main/java/com/bear/englishlearning/data/local/dao/CustomWordDao.kt:19-20 | the row with the word's key goes, the rest stay |
| CustomWords.CustomWordDao.DeleteById | app/src/main/java/com/bear/englishlearning/data/local/dao/CustomWordDao.kt:22-23 | the row with the id goes, the rest stay |
| VocabularyScreen.ToggleTwice | app/src/main/java/com/bear/englishlearning/ui/screens/vocabulary/VocabularyViewModel.kt:66-71 | a toggle opens the card unless it was the open one; toggling twice restores a closed or matching state |
| VocabularyScreen.NewWordTrimmed | app/src/main/java/com/bear/englishlearning/ui/screens/vocabulary/VocabularyViewModel.kt:89-100 | a stored word is non-empty and every field is trimmed, in the category "My Words" |
| VocabularyScreen.VocabularyViewModel.constructor | app/src/main/java/com/bear/englishlearning/ui/screens/vocabulary/VocabularyViewModel.kt:35-41 | today's sheet, the stored words newest first, no card open, the daily tab, no dialog |
| VocabularyScreen.VocabularyViewModel.LoadTodayWords | app/src/main/java/com/bear/englishlearning/ui/screens/vocabulary/VocabularyViewModel.kt:43-52 | the words become the day's sheet and every card closes; the rest stays |
| VocabularyScreen.VocabularyViewModel.CollectCustomWords | app/src/main/java/com/bear/englishlearning/ui/screens/vocabulary/VocabularyViewModel.kt:54-60 | the own words become the store's listing; the rest stays |
| VocabularyScreen.VocabularyViewModel.SwitchTab | app/src/main/java/com/bear/englishlearning/ui/screens/vocabulary/VocabularyViewModel.kt:62-64 | the tab changes and every card closes |
| VocabularyScreen.VocabularyViewModel.ToggleExpanded | app/src/main/java/com/bear/englishlearning/ui/screens/vocabulary/VocabularyViewModel.kt:66-71 | only the open card changes, as toggled |
| VocabularyScreen.VocabularyViewModel.ShowAddDialog | app/src/main/java/com/bear/englishlearning/ui/screens/vocabulary/VocabularyViewModel.kt:73-75 | only the dialog opens |
| VocabularyScreen.VocabularyViewModel.HideAddDialog | app/src/main/java/com/bear/englishlearning/ui/screens/vocabulary/VocabularyViewModel.kt:77-79 | only the dialog closes |
| VocabularyScreen.VocabularyViewModel.AddCustomWord | app/src/main/java/com/bear/englishlearning/ui/screens/vocabulary/VocabularyViewModel.kt:81-103 | a blank word changes nothing; otherwise the trimmed word is stored under a fresh id and the dialog closes |
| VocabularyScreen.VocabularyViewModel.DeleteCustomWord | app/src/main/java/com/bear/englishlearning/ui/screens/vocabulary/VocabularyViewModel.kt:105-109 | the store deletes the word's row |
| YouTube.Videos | app/src/main/java/com/bear/englishlearning/data/repository/YouTubeRepository.kt:68-79 | at most one result per item |
| YouTube.ThumbnailUrl | app/src/main/java/com/bear/englishlearning/data/repository/YouTubeRepository.kt:74-75 | the medium URL when there is one, otherwise the high one, otherwise empty |
| YouTube.ToVideo | app/src/main/java/com/bear/englishlearning/data/repository/YouTubeRepository.kt:70-78 | a result with the item's id, title, description and channel, and its chosen thumbnail URL |
| YouTube.VideosAreIdentifiedItems | app/src/main/java/com/bear/englishlearning/data/repository/YouTubeRepository.kt:68-79 | the results are the items with a video id, in order, each converted |
| YouTube.ToDomainModels | app/src/main/java/com/bear/englishlearning/data/repository/YouTubeRepository.kt:112-118 | one result per cached row |
| YouTube.ToDomainModel | app/src/main/java/com/bear/englishlearning/data/repository/YouTubeRepository.kt:112-118 | a cached row's video: every field but the query and the caching instant |
| YouTube.ToCachedEntity | app/src/main/java/com/bear/englishlearning/data/repository/YouTubeRepository.kt:120-127 | a row for the query and instant that reads back as the same video (for lists, CacheRoundTrip) |
| YouTube.Entities | app/src/main/java/com/bear/englishlearning/data/repository/YouTubeRepository.kt:84 | one cached row per result |
| YouTube.CacheRoundTrip | app/src/main/java/com/bear/englishlearning/data/repository/YouTubeRepository.kt:112-127 | a result written to the cache reads back as itself, under the query and the instant |
| YouTube.Oldest | app/src/main/java/com/bear/englishlearning/data/repository/YouTubeRepository.kt:49 | the oldest cache instant belongs to a row and is at most every row's |
| YouTube.VideosByQuery | app/src/main/java/com/bear/englishlearning/data/local/dao/CachedVideoDao.kt:12-13 | the query's rows, the same rows as the filter |
| YouTube.ContainsAppend | app/src/main/java/com/bear/englishlearning/data/repository/YouTubeRepository.kt:104 | text containing the word still does after a prefix |
| YouTube.LowerAppend | app/src/main/java/com/bear/englishlearning/data/repository/YouTubeRepository.kt:104 | lower-casing works piece by piece |
| YouTube.BuildSearchQueryIdempotent | app/src/main/java/com/bear/englishlearning/data/repository/YouTubeRepository.kt:103-109 | a built query mentions English in some case, building again changes nothing, and a query is kept as is exactly when it mentions English |
| YouTube.BuildSearchQuery | app/src/main/java/com/bear/englishlearning/data/repository/YouTubeRepository.kt:103-109 | the scenario is kept as the start of the query, and unchanged exactly when it mentions English in some case |
| YouTube.FreshIffAllYoung | app/src/main/java/com/bear/englishlearning/data/repository/YouTubeRepository.kt:45-51 | the cache answers exactly when not forced and every row for the query is younger than seven days |
| YouTube.SearchOutcomes | app/src/main/java/com/bear/englishlearning/data/repository/YouTubeRepository.kt:35-101 | never Loading; an error exactly when the API threw and the cache has nothing for the query; a forced refresh that reaches the API returns its videos and refreshes the cache; the cache changes only after an API answer |
| YouTube.InsertedFrom | app/src/main/java/com/bear/englishlearning/data/local/dao/CachedVideoDao.kt:15-16 | after inserts every row was there before or was inserted |
| YouTube.InsertedOverrides | app/src/main/java/com/bear/englishlearning/data/local/dao/CachedVideoDao.kt:15-16 | a row whose key was inserted is an inserted row |
| YouTube.InsertedCovers | app/src/main/java/com/bear/englishlearning/data/local/dao/CachedVideoDao.kt:15-16 | every inserted key has an inserted row |
| YouTube.RefreshedRowsForQuery | app/src/main/java/com/bear/englishlearning/data/repository/YouTubeRepository.kt:84-87 | after a fetch the query's rows are made from the fetched videos, and each fetched video has one |
| YouTube.FilterKeepsUniqueIds | app/src/main/java/com/bear/englishlearning/data/local/dao/CachedVideoDao.kt:18-22 | deletes keep the keys unique |
| YouTube.ReplacedKeepsUniqueIds | app/src/main/java/com/bear/englishlearning/data/local/dao/CachedVideoDao.kt:15-16 | a REPLACE insert keeps the keys unique |
| YouTube.CachedVideoDao.constructor | app/src/main/java/com/bear/englishlearning/data/local/entity/CachedVideo.kt:6-15 | the table starts empty |
| YouTube.CachedVideoDao.InsertAll | app/src/main/java/com/bear/englishlearning/data/local/dao/CachedVideoDao.kt:15-16 | the rows become the rows after one REPLACE per video, in order |
| YouTube.CachedVideoDao.DeleteByQuery | app/src/main/java/com/bear/englishlearning/data/local/dao/CachedVideoDao.kt:18-19 | the query's rows go, the rest stay in order |
| YouTube.CachedVideoDao.DeleteOlderThan | app/src/main/java/com/bear/englishlearning/data/local/dao/CachedVideoDao.kt:21-22 | the rows cached before the threshold go, the rest stay in order |
| YouTube.YouTubeRepository.constructor | app/src/main/java/com/bear/englishlearning/data/repository/YouTubeRepository.kt:20-24 | wraps a valid table |
| YouTube.YouTubeRepository.ClearCache | app/src/main/java/com/bear/englishlearning/data/repository/YouTubeRepository.kt:30-33 | every row cached before now goes |
| YouTube.YouTubeRepository.SearchVideos | app/src/main/java/com/bear/englishlearning/data/repository/YouTubeRepository.kt:35-101 | returns the search result and leaves the table as the search leaves it |
| ListeningQuiz.NextPlayableIsLeast | app/src/main/java/com/bear/englishlearning/ui/screens/listening/ListeningQuizViewModel.kt:129-130 | the next playable video is the first one after the current one not blacklisted, and there is none exactly when all are |
| ListeningQuiz.NextPlayable | app/src/main/java/com/bear/englishlearning/ui/screens/listening/ListeningQuizViewModel.kt:129-130 | an index found is a video at or after the start whose id is not blacklisted (the first such, in NextPlayableIsLeast) |
| ListeningQuiz.SkipsStayInRange | app/src/main/java/com/bear/englishlearning/ui/screens/listening/ListeningQuizViewModel.kt:179-196 | skipping keeps the index on a video; a step forward that moved is undone by a step back and the reverse |
| ListeningQuiz.ListeningQuizViewModel.constructor | app/src/main/java/com/bear/englishlearning/ui/screens/listening/ListeningQuizViewModel.kt:57-95 | the scenario is loaded, and with one its videos are searched for; without one the error is shown |
| ListeningQuiz.ListeningQuizViewModel.SearchYouTubeVideos | app/src/main/java/com/bear/englishlearning/ui/screens/listening/ListeningQuizViewModel.kt:97-114 | the videos found, or the repository's error |
| ListeningQuiz.ListeningQuizViewModel.SelectSentence | app/src/main/java/com/bear/englishlearning/ui/screens/listening/ListeningQuizViewModel.kt:116-118 | the sentence is selected and the last attempt cleared |
| ListeningQuiz.ListeningQuizViewModel.OnVideoError | app/src/main/java/com/bear/englishlearning/ui/screens/listening/ListeningQuizViewModel.kt:120-158 | the playing video is blacklisted; the player moves to the next video not blacklisted, or reports that none can play |
| ListeningQuiz.ListeningQuizViewModel.ClearCacheAndRetry | app/src/main/java/com/bear/englishlearning/ui/screens/listening/ListeningQuizViewModel.kt:160-177 | the blacklist and stale cache go; with a scenario the videos are dropped and searched again past the cache |
| ListeningQuiz.ListeningQuizViewModel.SkipToNextVideo | app/src/main/java/com/bear/englishlearning/ui/screens/listening/ListeningQuizViewModel.kt:179-187 | moves one video on when there is one, clearing the player error |
| ListeningQuiz.ListeningQuizViewModel.SkipToPreviousVideo | app/src/main/java/com/bear/englishlearning/ui/screens/listening/ListeningQuizViewModel.kt:189-196 | moves one video back when there is one, clearing the player error |
| ListeningQuiz.ListeningQuizViewModel.OnReadyForSpeech | app/src/main/java/com/bear/englishlearning/ui/screens/listening/ListeningQuizViewModel.kt:200-202 | listening, with the last attempt cleared |
| ListeningQuiz.ListeningQuizViewModel.OnEndOfSpeech | app/src/main/java/com/bear/englishlearning/ui/screens/listening/ListeningQuizViewModel.kt:208-214 | listening stops |
| ListeningQuiz.ListeningQuizViewModel.OnResults | app/src/main/java/com/bear/englishlearning/ui/screens/listening/ListeningQuizViewModel.kt:216-244 | with a selected sentence and some speech, the speech is scored against the sentence; otherwise listening just stops |
| ListeningQuiz.ListeningQuizViewModel.OnPartialResults | app/src/main/java/com/bear/englishlearning/ui/screens/listening/ListeningQuizViewModel.kt:246-251 | the first partial result, when there is one, is shown |
| ListeningQuiz.ListeningQuizViewModel.ClearResult | app/src/main/java/com/bear/englishlearning/ui/screens/listening/ListeningQuizViewModel.kt:266-268 | the last attempt is cleared |

## Left out

- The Python upload script, the Compose screens, navigation, theme, notifications, WorkManager and the Hilt modules: they render, schedule or wire, and hold none of the logic modelled here.
- Clocks and time zones: every `System.currentTimeMillis()` and `LocalDate.now()` read becomes a parameter. One call reads one value, except the double read of `DailyProgress.RecordedAsWritten` (see Findings). The "tomorrow at 9:00" instant of `saveMemo` is a parameter.
- Randomness: Kotlin's seeded `Random`, `shuffled` and `random()` are not reproduced. A shuffle is the permutation given by its draws, and a pick is an index passed in.
- Coroutines: `viewModelScope.launch`, the cancellation of the pending translation job, and the 300 ms and 1500 ms delays before `onVideoError` moves on. Each update is applied at once, in program order.
- StateFlow, `stateIn` and `WhileSubscribed`: a flow's current value is the field itself, and `collect` is one method call (`VocabularyScreen.VocabularyViewModel.CollectCustomWords`).
- Floating point: accuracy is the rational matched/target. The `accuracyPercent` string and its colour thresholds are not modelled.
- Unicode: lower-casing, `ignoreCase` and the regular expression `\b` are taken over ASCII. Android's ICU would also treat non-ASCII letters as word characters. Whitespace for `trim` and `isBlank` is Kotlin's full `Char.isWhitespace` set, Unicode space separators such as U+00A0 and U+3000 included. The regular-expression class `\s` of the normaliser is Android ICU's `[\t\n\f\r\p{Z}]`, which holds those separators and not VT (U+000B).
- Row order: SQLite leaves the order of rows with equal `ORDER BY` keys open. The model keeps them in stored order.
- Auto-generated values: the ids and creation timestamps of DailyProgress rows, and the clock-based ids and timestamps of chat messages. No uniqueness of message ids is claimed.
- Dates are epoch days, and DailyProgress keys them instead of "yyyy-MM-dd" strings. The two are in one-to-one correspondence, so lookups agree.
- Formatted labels: the vocabulary screen's date label and the calendar's month title.
- ListeningQuiz.ListeningQuizViewModel.OnResults: the practice-history row it saves through another repository is not modelled.
- ListeningQuiz.ListeningQuizViewModel.constructor: the scenario lookup (today's task, else a random scenario) is the parameter `load`; the scenario repository is not part of this model.
- ConversationScreen.ConversationViewModel.LoadGeneratedConversation: the generator never fails here, so the "生成對話失敗" error branch cannot be reached and is not modelled.
- YouTube.RefreshedRowsForQuery: stated by video id, weaker than "exactly the fresh results". `videoId` is the table's key, so a video repeated in one answer keeps one row, and a row of another query with the same id is replaced.
- YouTube.YouTubeRepository.SearchVideos: `maxResults` (20) only goes to the API, which is a parameter. Exceptions are taken to come from the API call only.
- Logging, `getAllTopics`, `refresh` (which only calls `loadTodayWords`), and the speech-recogniser callbacks that do nothing.
- Unused store operations: `updateMemo`, `getMemoById` and `getMemosToReviewFlow` of MemoDao, `getWordCount` and `getAllWordNames` of CustomWordDao, `countByQuery` of CachedVideoDao, and `getLatestProgress`/`getAllProgress` of DailyProgressDao.
- Content tables: the topics and reply tables are kept whole. The vocabulary list keeps every entry with its word, part of speech and category; the phonetic spelling, English and Chinese meanings, example sentence and its Chinese translation are dropped: only the Compose screens display them, and no modelled operation reads them. The daily scenarios keep their titles, category and the English text of their ten sentences. The random-conversation templates keep their titles and their eight pools, each cut down to its first variant.
- DailyTaskViewModel and the practice and scenario repositories: they orchestrate flows outside this core.

## Findings

| source | as written | input that shows it | evidently intended | confidence | as-written member | corrected member |
|---|---|---|---|---|---|---|
| app/src/main/java/com/bear/englishlearning/data/repository/DailyProgressRepository.kt:34-38 | each `record*` method reads the date once for its UPDATE and `ensureTodayExists` reads the clock again for the row it creates (lines 28 and 35) | an empty table, with the clock reading day 20000 first and day 20001 second, and a record of 1: the zero row is created for day 20001 and the UPDATE for day 20000 matches no row, so the increment is lost | one date per record, so the row the UPDATE targets always exists | not executed | DailyProgress.MidnightLosesIncrement | DailyProgress.RecordAddsExactly |
