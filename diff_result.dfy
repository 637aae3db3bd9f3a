// The result types of speech scoring (domain/model/DiffResult.kt).
module DiffResult {

  datatype WordStatus = Match | Missing | Extra

  /** One token of the comparison and how it was classified. */
  datatype DiffWord = DiffWord(word: string, status: WordStatus)

  /** `accuracy` is a Kotlin Float; here it is the exact ratio. */
  datatype SpeechDiffResult = SpeechDiffResult(
    diffWords: seq<DiffWord>,
    matchedCount: nat,
    targetWordCount: nat,
    spokenWordCount: nat,
    accuracy: real)

  /** The words of the entries that are not EXTRA: what the target said. */
  function TargetWords(ds: seq<DiffWord>): (r: seq<string>)
    ensures |r| <= |ds|
    decreases |ds|
  {
    if ds == [] then []
    else
      var last := ds[|ds| - 1];
      TargetWords(ds[..|ds| - 1]) + (if last.status != Extra then [last.word] else [])
  }

  /** The words of the entries that are not MISSING: what was spoken. */
  function SpokenWords(ds: seq<DiffWord>): (r: seq<string>)
    ensures |r| <= |ds|
    decreases |ds|
  {
    if ds == [] then []
    else
      var last := ds[|ds| - 1];
      SpokenWords(ds[..|ds| - 1]) + (if last.status != Missing then [last.word] else [])
  }

  /** The words of the MATCH entries. */
  function MatchedWords(ds: seq<DiffWord>): (r: seq<string>)
    ensures |r| <= |ds|
    decreases |ds|
  {
    if ds == [] then []
    else
      var last := ds[|ds| - 1];
      MatchedWords(ds[..|ds| - 1]) + (if last.status == Match then [last.word] else [])
  }

  /** `diffWords.count { it.status == WordStatus.MATCH }`. */
  function MatchCount(ds: seq<DiffWord>): (r: nat)
    ensures r <= |ds|
    decreases |ds|
  {
    if ds == [] then 0
    else MatchCount(ds[..|ds| - 1]) + (if ds[|ds| - 1].status == Match then 1 else 0)
  }

  /** Every word labelled with the same status (`words.map { DiffWord(it, s) }`). */
  function AllWith(words: seq<string>, s: WordStatus): (r: seq<DiffWord>)
    ensures |r| == |words|
    ensures forall k :: 0 <= k < |r| ==> r[k] == DiffWord(words[k], s)
  {
    seq(|words|, k requires 0 <= k < |words| => DiffWord(words[k], s))
  }
}
