// The translation call (data/repository/TranslationRepository.kt and the
// response shape of data/remote/dto/TranslationResponse.kt): the text and
// "source|target" language pair go to the translation service, which is a
// parameter here; a non-blank translated text is the result, and the service's
// memory matches are cleaned into up to five alternative meanings and up to
// three example sentences.
module Translation {
  import opened Wrappers
  import opened Text
  import opened Lists

  /** A translation-memory match: the other DTO fields are never read. */
  datatype TranslationMatch = TranslationMatch(segment: string, translation: string)

  /** The decoded response: `responseData?.translatedText` (None when the
    * response data is missing) and the optional match list. */
  datatype TranslationResponse = TranslationResponse(
    translatedText: Option<string>,
    matches: Option<seq<TranslationMatch>>)

  /** What the service call does: answers, or throws with an optional message. */
  datatype ApiReply = Answered(response: TranslationResponse) | Threw(message: Option<string>)

  datatype ExampleSentence = ExampleSentence(source: string, translation: string)

  datatype TranslationResult = TranslationResult(
    translatedText: string,
    alternativeMeanings: seq<string>,
    exampleSentences: seq<ExampleSentence>)

  /** `Result<TranslationResult>`: a failure carries its exception's message. */
  datatype TranslateOutcome = Translated(result: TranslationResult) | Failed(message: Option<string>)

  const MaxAlternatives: nat := 5
  const MaxExamples: nat := 3

  /** The `langpair` parameter. */
  function LangPair(sourceLang: string, targetLang: string): string {
    sourceLang + "|" + targetLang
  }

  /** `matches.map { it.translation.trim() }`. */
  function TrimmedTranslations(matches: seq<TranslationMatch>): (r: seq<string>)
    ensures |r| == |matches|
    ensures forall k :: 0 <= k < |r| ==> r[k] == Trim(matches[k].translation)
  {
    seq(|matches|, k requires 0 <= k < |matches| => Trim(matches[k].translation))
  }

  /** The alternative-meaning filter. */
  predicate IsAlternative(t: string, translated: string) {
    !IsBlank(t) && !EqualsIgnoreCase(t, Trim(translated))
  }

  function AlternativeTest(translated: string): string -> bool {
    t => IsAlternative(t, translated)
  }

  /** `distinct()` compares the strings themselves. */
  function Itself(t: string): string { t }

  function AlternativeMeanings(matches: seq<TranslationMatch>, translated: string): seq<string> {
    var kept := Filter(TrimmedTranslations(matches), AlternativeTest(translated));
    Take(DistinctBy(kept, Itself, {}), MaxAlternatives)
  }

  /** The example filter, against the trimmed, lowercased input. */
  predicate IsExample(m: TranslationMatch, inputLower: string) {
    var seg := Lower(Trim(m.segment));
    seg != inputLower && |seg| > |inputLower| && !IsBlank(m.translation)
  }

  function ExampleTest(inputLower: string): TranslationMatch -> bool {
    m => IsExample(m, inputLower)
  }

  function ToExample(m: TranslationMatch): ExampleSentence {
    ExampleSentence(Trim(m.segment), Trim(m.translation))
  }

  function ExampleKey(e: ExampleSentence): string {
    Lower(e.source)
  }

  /** `map { ExampleSentence(...) }`. */
  function ToExamples(ms: seq<TranslationMatch>): (r: seq<ExampleSentence>)
    ensures |r| == |ms|
    ensures forall k :: 0 <= k < |r| ==> r[k] == ToExample(ms[k])
  {
    seq(|ms|, k requires 0 <= k < |ms| => ToExample(ms[k]))
  }

  function ExampleSentences(matches: seq<TranslationMatch>, text: string): seq<ExampleSentence> {
    var inputLower := Lower(Trim(text));
    var kept := Filter(matches, ExampleTest(inputLower));
    Take(DistinctBy(ToExamples(kept), ExampleKey, {}), MaxExamples)
  }

  /** `translate(text, sourceLang, targetLang)` over the service `api`: a
    * success carries a non-blank text with at most five alternatives and
    * three examples; a failure carries a message unless the service threw
    * without one. */
  function TranslateText(text: string, sourceLang: string, targetLang: string,
                         api: (string, string) -> ApiReply): (r: TranslateOutcome)
    ensures r.Translated? ==>
      && !IsBlank(r.result.translatedText)
      && |r.result.alternativeMeanings| <= MaxAlternatives
      && |r.result.exampleSentences| <= MaxExamples
    ensures r.Failed? && r.message.None? ==> api(text, LangPair(sourceLang, targetLang)) == Threw(None)
  {
    match api(text, LangPair(sourceLang, targetLang))
    case Threw(message) => Failed(message)
    case Answered(response) =>
      if response.translatedText.None? || IsBlank(response.translatedText.value) then
        Failed(Some("Translation failed"))
      else
        var translated := response.translatedText.value;
        var matches := if response.matches.Some? then response.matches.value else [];
        Translated(TranslationResult(translated, AlternativeMeanings(matches, translated),
                                     ExampleSentences(matches, text)))
  }

  // ---------------------------------------------------------------------------
  // Properties

  /** A translation succeeds exactly when the service answers with a
    * non-blank text, which is returned as it came; a thrown exception's
    * message is passed on, and a missing or blank text fails with
    * "Translation failed". */
  lemma TranslateOutcomes(text: string, sourceLang: string, targetLang: string,
                          api: (string, string) -> ApiReply)
    ensures var reply := api(text, LangPair(sourceLang, targetLang));
      var r := TranslateText(text, sourceLang, targetLang, api);
      && (r.Translated? <==>
            reply.Answered? && reply.response.translatedText.Some? &&
            !IsBlank(reply.response.translatedText.value))
      && (r.Translated? ==> r.result.translatedText == reply.response.translatedText.value)
      && (reply.Threw? ==> r == Failed(reply.message))
      && (reply.Answered? && !r.Translated? ==> r == Failed(Some("Translation failed")))
  {
  }

  /** Trimming a non-blank string gives a non-empty string that trimming
    * leaves alone. */
  lemma TrimmedNonBlank(s: string)
    ensures Trim(Trim(s)) == Trim(s)
    ensures !IsBlank(Trim(s)) <==> Trim(s) != []
  {
    TrimOfTrimmed(Trim(s));
    BlankIffTrimEmpty(s);
  }

  /** The alternatives are at most five trimmed, non-empty translations of
    * matches, none equal (ignoring case) to the trimmed main translation,
    * pairwise distinct and in match order. */
  lemma AlternativesShape(matches: seq<TranslationMatch>, translated: string)
    ensures |AlternativeMeanings(matches, translated)| <= MaxAlternatives
    ensures forall i :: 0 <= i < |AlternativeMeanings(matches, translated)| ==>
      var a := AlternativeMeanings(matches, translated)[i];
      a != [] && Trim(a) == a && !EqualsIgnoreCase(a, Trim(translated))
    ensures forall i, j :: 0 <= i < j < |AlternativeMeanings(matches, translated)| ==>
      AlternativeMeanings(matches, translated)[i] != AlternativeMeanings(matches, translated)[j]
    ensures IsSubseq(AlternativeMeanings(matches, translated), TrimmedTranslations(matches))
  {
    var ts := TrimmedTranslations(matches);
    var r := AlternativeMeanings(matches, translated);
    DistinctTakeShape(Filter(ts, AlternativeTest(translated)), Itself, MaxAlternatives);
    SelectInOrder(ts, AlternativeTest(translated), Itself, MaxAlternatives);
    FilterMembers(ts, AlternativeTest(translated));
    forall i | 0 <= i < |r|
      ensures r[i] != [] && Trim(r[i]) == r[i] && !EqualsIgnoreCase(r[i], Trim(translated))
    {
      assert r[i] in Filter(ts, AlternativeTest(translated));
      var k :| 0 <= k < |ts| && ts[k] == r[i];
      TrimmedNonBlank(matches[k].translation);
    }
    forall i, j | 0 <= i < j < |r| ensures r[i] != r[j] {
      assert Itself(r[i]) != Itself(r[j]);
    }
  }

  /** When fewer than five alternatives come back, every qualifying
    * translation is among them: nothing is dropped but by the limit. */
  lemma AlternativesComplete(matches: seq<TranslationMatch>, translated: string, k: nat)
    requires k < |matches|
    requires IsAlternative(Trim(matches[k].translation), translated)
    requires |AlternativeMeanings(matches, translated)| < MaxAlternatives
    ensures Trim(matches[k].translation) in AlternativeMeanings(matches, translated)
  {
    var ts := TrimmedTranslations(matches);
    SelectComplete(ts, AlternativeTest(translated), Itself, MaxAlternatives, k);
  }

  /** The `seg != inputLower` test adds nothing: a segment longer than the
    * input already differs from it. */
  lemma DifferenceTestRedundant(m: TranslationMatch, inputLower: string)
    ensures IsExample(m, inputLower) <==>
      |Lower(Trim(m.segment))| > |inputLower| && !IsBlank(m.translation)
  {
  }

  /** The examples are at most three trimmed matches with a non-empty
    * translation and a source longer than the trimmed input, no two with the
    * same lowercased source. */
  lemma ExamplesShape(matches: seq<TranslationMatch>, text: string)
    ensures |ExampleSentences(matches, text)| <= MaxExamples
    ensures forall i :: 0 <= i < |ExampleSentences(matches, text)| ==>
      var e := ExampleSentences(matches, text)[i];
      && |e.source| > |Trim(text)| && e.translation != []
      && Trim(e.source) == e.source && Trim(e.translation) == e.translation
      && exists k :: 0 <= k < |matches| && e == ToExample(matches[k])
    ensures forall i, j :: 0 <= i < j < |ExampleSentences(matches, text)| ==>
      Lower(ExampleSentences(matches, text)[i].source) != Lower(ExampleSentences(matches, text)[j].source)
  {
    var inputLower := Lower(Trim(text));
    var kept := Filter(matches, ExampleTest(inputLower));
    var es := ToExamples(kept);
    var r := ExampleSentences(matches, text);
    DistinctTakeShape(es, ExampleKey, MaxExamples);
    FilterMembers(matches, ExampleTest(inputLower));
    forall i | 0 <= i < |r|
      ensures |r[i].source| > |Trim(text)| && r[i].translation != []
      ensures Trim(r[i].source) == r[i].source && Trim(r[i].translation) == r[i].translation
      ensures exists k :: 0 <= k < |matches| && r[i] == ToExample(matches[k])
    {
      assert r[i] in es;
      var q :| 0 <= q < |es| && es[q] == r[i];
      assert kept[q] in matches && IsExample(kept[q], inputLower);
      var k :| 0 <= k < |matches| && matches[k] == kept[q];
      TrimmedNonBlank(kept[q].segment);
      TrimmedNonBlank(kept[q].translation);
      BlankIffTrimEmpty(kept[q].translation);
    }
    forall i, j | 0 <= i < j < |r| ensures Lower(r[i].source) != Lower(r[j].source) {
      assert ExampleKey(r[i]) != ExampleKey(r[j]);
    }
  }

  /** When fewer than three examples come back, every qualifying match is
    * among them up to case of its source: only the limit, or an earlier
    * match with the same lowercased source, drops one. */
  lemma ExamplesComplete(matches: seq<TranslationMatch>, text: string, k: nat)
    requires k < |matches| && IsExample(matches[k], Lower(Trim(text)))
    requires |ExampleSentences(matches, text)| < MaxExamples
    ensures exists j ::
      0 <= j < |ExampleSentences(matches, text)| &&
      ExampleKey(ExampleSentences(matches, text)[j]) == ExampleKey(ToExample(matches[k]))
  {
    var inputLower := Lower(Trim(text));
    var kept := Filter(matches, ExampleTest(inputLower));
    var es := ToExamples(kept);
    var d := DistinctBy(es, ExampleKey, {});
    assert Take(d, MaxExamples) == d;
    FilterMembers(matches, ExampleTest(inputLower));
    assert matches[k] in kept;
    var x :| 0 <= x < |kept| && kept[x] == matches[k];
    DistinctCovers(es, ExampleKey, {}, x);
  }

  /** Mapping matches to examples keeps an order-preserving selection one. */
  lemma {:induction false} ToExamplesSubseq(a: seq<TranslationMatch>, s: seq<TranslationMatch>)
    requires IsSubseq(a, s)
    ensures IsSubseq(ToExamples(a), ToExamples(s))
    decreases |s|
  {
    if a != [] {
      assert ToExamples(s)[1..] == ToExamples(s[1..]);
      if a[0] == s[0] && IsSubseq(a[1..], s[1..]) {
        ToExamplesSubseq(a[1..], s[1..]);
        assert ToExamples(a)[1..] == ToExamples(a[1..]);
      } else {
        ToExamplesSubseq(a, s[1..]);
      }
    }
  }

  /** The examples keep the order of the matches they come from. */
  lemma ExamplesInOrder(matches: seq<TranslationMatch>, text: string)
    ensures IsSubseq(ExampleSentences(matches, text), ToExamples(matches))
  {
    var inputLower := Lower(Trim(text));
    var kept := Filter(matches, ExampleTest(inputLower));
    var es := ToExamples(kept);
    var d := DistinctBy(es, ExampleKey, {});
    var r := Take(d, MaxExamples);
    FilterIsSubseq(matches, ExampleTest(inputLower));
    ToExamplesSubseq(kept, matches);
    DistinctIsSubseq(es, ExampleKey, {});
    PrefixIsSubseq(r, d);
    SubseqTrans(d, es, ToExamples(matches));
    SubseqTrans(r, d, ToExamples(matches));
  }

  /** In the pair, the first '|' follows the source code. */
  lemma FirstPipe(s: string, t: string)
    requires '|' !in s
    ensures LangPair(s, t)[|s|] == '|'
    ensures forall i :: 0 <= i < |s| ==> LangPair(s, t)[i] != '|'
  {
    forall i | 0 <= i < |s| ensures LangPair(s, t)[i] != '|' {
      assert LangPair(s, t)[i] == s[i];
    }
  }

  /** Language codes without '|' are recovered from the pair. */
  lemma LangPairInjective(s1: string, t1: string, s2: string, t2: string)
    requires '|' !in s1 && '|' !in s2
    requires LangPair(s1, t1) == LangPair(s2, t2)
    ensures s1 == s2 && t1 == t2
  {
    var p := LangPair(s1, t1);
    FirstPipe(s1, t1);
    FirstPipe(s2, t2);
    assert |s1| == |s2|;
    assert s1 == p[..|s1|] && s2 == LangPair(s2, t2)[..|s2|];
    assert t1 == p[|s1| + 1..] && t2 == LangPair(s2, t2)[|s2| + 1..];
  }
}
