// The text normaliser of the speech-scoring pipeline
// (domain/speech/TextNormalizer.kt): lower-case, trim, expand contractions at
// word boundaries, keep only [a-z0-9] and whitespace, collapse whitespace runs
// and split on single spaces.
module TextNormalizer {
  import opened Text

  // The contraction table, in the order the Kotlin map literal declares it.
  // It is written as three consecutive slices so that facts about every entry
  // can be checked slice by slice; `Contractions` is their concatenation.

  /** Pronoun contractions (i, you, he, she, it, we, they). */
  const PronounContractions: seq<(string, string)> := [
    ("i'm", "i am"), ("i'll", "i will"), ("i'd", "i would"), ("i've", "i have"),
    ("you're", "you are"), ("you'll", "you will"), ("you'd", "you would"), ("you've", "you have"),
    ("he's", "he is"), ("he'll", "he will"), ("he'd", "he would"),
    ("she's", "she is"), ("she'll", "she will"), ("she'd", "she would"),
    ("it's", "it is"), ("it'll", "it will"), ("it'd", "it would"),
    ("we're", "we are"), ("we'll", "we will"), ("we'd", "we would"), ("we've", "we have"),
    ("they're", "they are"), ("they'll", "they will"), ("they'd", "they would"), ("they've", "they have")
  ]

  /** Contractions of that, who, what, where, when, why and how. */
  const QuestionWordContractions: seq<(string, string)> := [
    ("that's", "that is"), ("that'll", "that will"), ("that'd", "that would"),
    ("who's", "who is"), ("who'll", "who will"), ("who'd", "who would"),
    ("what's", "what is"), ("what'll", "what will"), ("what'd", "what would"),
    ("where's", "where is"), ("where'll", "where will"), ("where'd", "where would"),
    ("when's", "when is"), ("when'll", "when will"), ("when'd", "when would"),
    ("why's", "why is"), ("why'll", "why will"), ("why'd", "why would"),
    ("how's", "how is"), ("how'll", "how will"), ("how'd", "how would")
  ]

  /** Negated auxiliaries, then let's, there's and here's. */
  const NegationContractions: seq<(string, string)> := [
    ("isn't", "is not"), ("aren't", "are not"), ("wasn't", "was not"), ("weren't", "were not"),
    ("hasn't", "has not"), ("haven't", "have not"), ("hadn't", "had not"),
    ("doesn't", "does not"), ("don't", "do not"), ("didn't", "did not"),
    ("won't", "will not"), ("wouldn't", "would not"),
    ("shan't", "shall not"), ("shouldn't", "should not"),
    ("mustn't", "must not"), ("can't", "cannot"), ("couldn't", "could not"),
    ("let's", "let us"), ("there's", "there is"), ("here's", "here is")
  ]

  const Contractions: seq<(string, string)> :=
    PronounContractions + QuestionWordContractions + NegationContractions

  // ---------------------------------------------------------------------------
  // Shapes of strings

  predicate IsTokenChar(c: char) { IsLowerLetter(c) || IsDigit(c) }

  /** A token of the normaliser's output: non-empty, only a-z and 0-9. */
  predicate IsToken(w: string) {
    w != [] && forall i :: 0 <= i < |w| ==> IsTokenChar(w[i])
  }

  /** Text in final form: tokens separated by single spaces. */
  predicate Canonical(t: string) {
    && (forall i :: 0 <= i < |t| ==> IsTokenChar(t[i]) || t[i] == ' ')
    && (t != [] ==> t[0] != ' ' && t[|t| - 1] != ' ')
    && (forall i :: 0 <= i < |t| - 1 ==> !(t[i] == ' ' && t[i + 1] == ' '))
  }

  /** A contraction key: lower-case letters around exactly one apostrophe. */
  predicate IsContractionWord(w: string) {
    && |w| >= 3
    && IsLowerLetter(w[0]) && IsLowerLetter(w[|w| - 1])
    && (forall i :: 0 <= i < |w| ==> IsLowerLetter(w[i]) || w[i] == '\'')
    && '\'' in w
    && (forall i, j :: 0 <= i < j < |w| && w[i] == '\'' ==> w[j] != '\'')
  }

  /** An expansion: non-empty, made of letters, digits and spaces only. */
  predicate IsExpansion(e: string) {
    e != [] && forall i :: 0 <= i < |e| ==> IsTokenChar(e[i]) || e[i] == ' '
  }

  predicate WellFormedTable(cs: seq<(string, string)>) {
    && (forall i :: 0 <= i < |cs| ==> IsContractionWord(cs[i].0))
    && (forall i :: 0 <= i < |cs| ==> IsExpansion(cs[i].1))
    && (forall i, j :: 0 <= i < j < |cs| ==> cs[i].0 != cs[j].0)
  }

  // ---------------------------------------------------------------------------
  // Regex replacement `\b<p>\b` -> e

  /** Java's `\b` at position i of s. */
  predicate IsBoundary(s: string, i: nat)
    requires i <= |s|
  {
    (i > 0 && IsWordChar(s[i - 1])) != (i < |s| && IsWordChar(s[i]))
  }

  /** The pattern `\b<p>\b` matches s at position k. */
  predicate WholeWordAt(s: string, p: string, k: nat) {
    && k + |p| <= |s|
    && s[k..k + |p|] == p
    && IsBoundary(s, k) && IsBoundary(s, k + |p|)
  }

  /** `Matcher.replaceAll` from position k: matches are found left to right on
    * the original text and do not overlap. */
  function ReplaceFrom(s: string, p: string, e: string, k: nat): string
    requires |p| > 0 && k <= |s|
    decreases |s| - k
  {
    if k == |s| then []
    else if WholeWordAt(s, p, k) then e + ReplaceFrom(s, p, e, k + |p|)
    else [s[k]] + ReplaceFrom(s, p, e, k + 1)
  }

  function ReplaceWholeWord(s: string, p: string, e: string): string
    requires |p| > 0
  {
    ReplaceFrom(s, p, e, 0)
  }

  /** The `contractions.forEach` loop: each entry in turn rewrites the text. */
  function ExpandAll(s: string, cs: seq<(string, string)>): string
    requires forall i :: 0 <= i < |cs| ==> |cs[i].0| > 0
    decreases |cs|
  {
    if cs == [] then s else ExpandAll(ReplaceWholeWord(s, cs[0].0, cs[0].1), cs[1..])
  }

  // ---------------------------------------------------------------------------
  // Character clean-up

  predicate IsKept(c: char) { IsTokenChar(c) || IsRegexSpace(c) }

  /** `replace(Regex("[^a-z0-9\\s]"), "")`. */
  function Strip(s: string): (r: string)
    ensures |r| <= |s|
    ensures forall i :: 0 <= i < |r| ==> IsKept(r[i]) && r[i] in s
    ensures (forall i :: 0 <= i < |s| ==> IsKept(s[i])) ==> r == s
    decreases |s|
  {
    if s == [] then []
    else (if IsKept(s[0]) then [s[0]] else []) + Strip(s[1..])
  }

  function DropSpaces(s: string): (r: string)
    ensures |r| <= |s| && r == s[|s| - |r|..]
    ensures r == [] || !IsRegexSpace(r[0])
    ensures forall i :: 0 <= i < |s| - |r| ==> IsRegexSpace(s[i])
    decreases |s|
  {
    if s == [] || !IsRegexSpace(s[0]) then s else DropSpaces(s[1..])
  }

  /** `replace(Regex("\\s+"), " ")`: every run of whitespace becomes one space. */
  function Collapse(s: string): (r: string)
    ensures (r == []) == (s == [])
    ensures r != [] ==> (r[0] == ' ') == IsRegexSpace(s[0])
    ensures forall i :: 0 <= i < |r| ==> r[i] == ' ' || (!IsRegexSpace(r[i]) && r[i] in s)
    ensures forall i :: 0 <= i < |r| - 1 ==> !(r[i] == ' ' && r[i + 1] == ' ')
    decreases |s|
  {
    if s == [] then []
    else if !IsRegexSpace(s[0]) then [s[0]] + Collapse(s[1..])
    else [' '] + Collapse(DropSpaces(s))
  }

  /** `normalize`: strip, collapse, trim (TextNormalizer.kt lines 39-40). */
  function CleanUp(s: string): string {
    Trim(Collapse(Strip(s)))
  }

  /** Kotlin `split(" ")`: the pieces between single spaces. */
  function Split(s: string): (r: seq<string>)
    ensures |r| >= 1
    decreases |s|
  {
    if s == [] then [[]]
    else
      var rest := Split(s[1..]);
      if s[0] == ' ' then [[]] + rest else [[s[0]] + rest[0]] + rest[1..]
  }

  // ---------------------------------------------------------------------------
  // The normaliser

  /** The text after contraction expansion and clean-up, before splitting. */
  function Cleaned(text: string): string {
    ContractionsWellFormed();
    CleanUp(ExpandAll(Trim(Lower(text)), Contractions))
  }

  /** What `normalize(text)` returns. */
  function NormalizeSpec(text: string): seq<string> {
    var t := Cleaned(text);
    if t == [] then [] else Split(t)
  }

  /** `TextNormalizer.normalize`. */
  method Normalize(text: string) returns (tokens: seq<string>)
    ensures tokens == NormalizeSpec(text)
    ensures forall i :: 0 <= i < |tokens| ==> IsToken(tokens[i])
    ensures Join(tokens, " ") == Cleaned(text)
  {
    ContractionsWellFormed();
    var normalized := Trim(Lower(text));
    ghost var start := normalized;
    var k := 0;
    while k < |Contractions|
      invariant k <= |Contractions|
      invariant ExpandAll(normalized, Contractions[k..]) == ExpandAll(start, Contractions)
    {
      assert Contractions[k..][0] == Contractions[k] && Contractions[k..][1..] == Contractions[k + 1..];
      normalized := ReplaceWholeWord(normalized, Contractions[k].0, Contractions[k].1);
      k := k + 1;
    }
    normalized := Strip(normalized);
    normalized := Trim(Collapse(normalized));
    if normalized == [] {
      tokens := [];
    } else {
      tokens := Split(normalized);
    }
    TokensOfCleaned(text);
  }

  // ---------------------------------------------------------------------------
  // The table

  lemma PronounKeysShaped()
    ensures forall i :: 0 <= i < |PronounContractions| ==> IsContractionWord(PronounContractions[i].0)
  {
  }

  lemma PronounExpansionsShaped()
    ensures forall i :: 0 <= i < |PronounContractions| ==> IsExpansion(PronounContractions[i].1)
  {
  }

  lemma PronounKeysDistinct()
    ensures forall i, j :: 0 <= i < j < |PronounContractions| ==> PronounContractions[i].0 != PronounContractions[j].0
  {
  }

  lemma QuestionWordKeysShaped()
    ensures forall i :: 0 <= i < |QuestionWordContractions| ==> IsContractionWord(QuestionWordContractions[i].0)
  {
  }

  lemma QuestionWordExpansionsShaped()
    ensures forall i :: 0 <= i < |QuestionWordContractions| ==> IsExpansion(QuestionWordContractions[i].1)
  {
  }

  lemma QuestionWordKeysDistinct()
    ensures forall i, j :: 0 <= i < j < |QuestionWordContractions| ==> QuestionWordContractions[i].0 != QuestionWordContractions[j].0
  {
  }

  lemma NegationKeysShaped()
    ensures forall i :: 0 <= i < |NegationContractions| ==> IsContractionWord(NegationContractions[i].0)
  {
    NegatedAuxiliaryKeysShaped();
  }

  lemma NegatedAuxiliaryKeysShaped()
    ensures forall i :: 0 <= i < 10 ==> IsContractionWord(NegationContractions[i].0)
  {
  }

  lemma NegationExpansionsShaped()
    ensures forall i :: 0 <= i < |NegationContractions| ==> IsExpansion(NegationContractions[i].1)
  {
  }

  lemma NegationKeysDistinct()
    ensures forall i, j :: 0 <= i < j < |NegationContractions| ==> NegationContractions[i].0 != NegationContractions[j].0
  {
  }

  lemma PronounQuestionWordDisjoint()
    ensures forall i, j :: 0 <= i < |PronounContractions| && 0 <= j < |QuestionWordContractions| ==>
      PronounContractions[i].0 != QuestionWordContractions[j].0
  {
    assert forall i, j :: 0 <= i < 13 && 0 <= j < |QuestionWordContractions| ==>
      PronounContractions[i].0 != QuestionWordContractions[j].0;
  }

  lemma PronounNegationDisjoint()
    ensures forall i, j :: 0 <= i < |PronounContractions| && 0 <= j < |NegationContractions| ==>
      PronounContractions[i].0 != NegationContractions[j].0
  {
    assert forall i, j :: 0 <= i < 13 && 0 <= j < |NegationContractions| ==>
      PronounContractions[i].0 != NegationContractions[j].0;
  }

  lemma QuestionWordNegationDisjoint()
    ensures forall i, j :: 0 <= i < |QuestionWordContractions| && 0 <= j < |NegationContractions| ==>
      QuestionWordContractions[i].0 != NegationContractions[j].0
  {
    assert forall i, j :: 0 <= i < 11 && 0 <= j < |NegationContractions| ==>
      QuestionWordContractions[i].0 != NegationContractions[j].0;
  }

  lemma {:induction false} ConcatWellFormed(a: seq<(string, string)>, b: seq<(string, string)>)
    requires WellFormedTable(a) && WellFormedTable(b)
    requires forall i, j :: 0 <= i < |a| && 0 <= j < |b| ==> a[i].0 != b[j].0
    ensures WellFormedTable(a + b)
  {
    var c := a + b;
    forall i, j | 0 <= i < j < |c| ensures c[i].0 != c[j].0 {
      if j < |a| {
        assert c[i] == a[i] && c[j] == a[j];
      } else if i < |a| {
        assert c[i] == a[i] && c[j] == b[j - |a|];
      } else {
        assert c[i] == b[i - |a|] && c[j] == b[j - |a|];
      }
    }
    forall i | 0 <= i < |c| ensures IsContractionWord(c[i].0) && IsExpansion(c[i].1) {
      if i < |a| { assert c[i] == a[i]; } else { assert c[i] == b[i - |a|]; }
    }
  }

  /** The 66 keys are distinct contraction words and every expansion is
    * canonical text. */
  lemma ContractionsWellFormed()
    ensures WellFormedTable(Contractions)
    ensures |Contractions| == 66
    ensures forall i :: 0 <= i < |Contractions| ==> |Contractions[i].0| > 0
  {
    PronounKeysShaped();
    PronounExpansionsShaped();
    PronounKeysDistinct();
    QuestionWordKeysShaped();
    QuestionWordExpansionsShaped();
    QuestionWordKeysDistinct();
    NegationKeysShaped();
    NegationExpansionsShaped();
    NegationKeysDistinct();
    PronounQuestionWordDisjoint();
    PronounNegationDisjoint();
    QuestionWordNegationDisjoint();
    ConcatWellFormed(PronounContractions, QuestionWordContractions);
    var ab := PronounContractions + QuestionWordContractions;
    forall i, j | 0 <= i < |ab| && 0 <= j < |NegationContractions|
      ensures ab[i].0 != NegationContractions[j].0
    {
      if i < |PronounContractions| {
        assert ab[i] == PronounContractions[i];
      } else {
        assert ab[i] == QuestionWordContractions[i - |PronounContractions|];
      }
    }
    ConcatWellFormed(ab, NegationContractions);
  }

  // ---------------------------------------------------------------------------
  // Clean-up and splitting

  /** A slice of text without double spaces has none either. */
  lemma SliceSingleSpaced(c: string, lo: nat, hi: nat)
    requires lo <= hi <= |c|
    requires forall i :: 0 <= i < |c| - 1 ==> !(c[i] == ' ' && c[i + 1] == ' ')
    ensures forall i :: 0 <= i < hi - lo - 1 ==> !(c[lo..hi][i] == ' ' && c[lo..hi][i + 1] == ' ')
  {
    forall i | 0 <= i < hi - lo - 1 ensures !(c[lo..hi][i] == ' ' && c[lo..hi][i + 1] == ' ') {
      assert c[lo..hi][i] == c[lo + i] && c[lo..hi][i + 1] == c[lo + i + 1];
    }
  }

  lemma TrimCanonical(c: string)
    requires forall i :: 0 <= i < |c| ==> IsTokenChar(c[i]) || c[i] == ' '
    requires forall i :: 0 <= i < |c| - 1 ==> !(c[i] == ' ' && c[i + 1] == ' ')
    ensures Canonical(Trim(c))
  {
    var t := Trim(c);
    var off := TrimSlice(c);
    assert t == c[off..off + |t|];
    SliceSingleSpaced(c, off, off + |t|);
    forall i | 0 <= i < |t|
      ensures IsTokenChar(t[i]) || t[i] == ' '
    {
      assert t[i] == c[off + i];
    }
    assert t != [] ==> t[0] != ' ' && t[|t| - 1] != ' ';
  }

  /** The clean-up leaves tokens separated by single spaces. */
  lemma {:induction false} CleanUpCanonical(s: string)
    ensures Canonical(CleanUp(s))
  {
    var st := Strip(s);
    var c := Collapse(st);
    forall i | 0 <= i < |c| ensures IsTokenChar(c[i]) || c[i] == ' ' {
      if c[i] != ' ' {
        assert c[i] in st;
        var j :| 0 <= j < |st| && st[j] == c[i];
      }
    }
    TrimCanonical(c);
  }

  lemma {:induction false} SplitPieces(s: string)
    requires forall i :: 0 <= i < |s| - 1 ==> !(s[i] == ' ' && s[i + 1] == ' ')
    requires s != [] ==> s[|s| - 1] != ' '
    ensures forall k :: 1 <= k < |Split(s)| ==> Split(s)[k] != []
    ensures (Split(s)[0] == []) == (s == [] || s[0] == ' ')
    ensures forall k, i :: 0 <= k < |Split(s)| && 0 <= i < |Split(s)[k]| ==> Split(s)[k][i] != ' ' && Split(s)[k][i] in s
    decreases |s|
  {
    if s != [] {
      SplitPieces(s[1..]);
      var rest := Split(s[1..]);
      forall k, i | 0 <= k < |rest| && 0 <= i < |rest[k]| ensures rest[k][i] in s {
        assert rest[k][i] in s[1..];
      }
    }
  }

  /** Joining the pieces with single spaces gives back the text. */
  lemma {:induction false} JoinSplit(s: string)
    ensures Join(Split(s), " ") == s
    decreases |s|
  {
    if s != [] {
      JoinSplit(s[1..]);
      var rest := Split(s[1..]);
      if s[0] == ' ' {
        assert Split(s) == [[]] + rest;
        assert ([[]] + rest)[1..] == rest;
      } else if |rest| == 1 {
        assert Split(s) == [[s[0]] + rest[0]];
      } else {
        var r := [[s[0]] + rest[0]] + rest[1..];
        assert r[1..] == rest[1..];
        assert Join(rest, " ") == rest[0] + " " + Join(rest[1..], " ");
      }
    }
  }

  /** Splitting canonical text yields tokens. */
  lemma {:induction false} SplitCanonical(t: string)
    requires Canonical(t) && t != []
    ensures forall k :: 0 <= k < |Split(t)| ==> IsToken(Split(t)[k])
  {
    SplitPieces(t);
    forall k, i | 0 <= k < |Split(t)| && 0 <= i < |Split(t)[k]| ensures IsTokenChar(Split(t)[k][i]) {
      var c := Split(t)[k][i];
      assert c in t;
      var j :| 0 <= j < |t| && t[j] == c;
    }
  }

  /** The output tokens are the maximal non-space runs of the cleaned text. */
  lemma TokensOfCleaned(text: string)
    ensures forall k :: 0 <= k < |NormalizeSpec(text)| ==> IsToken(NormalizeSpec(text)[k])
    ensures Join(NormalizeSpec(text), " ") == Cleaned(text)
  {
    ContractionsWellFormed();
    var t := Cleaned(text);
    CleanUpCanonical(ExpandAll(Trim(Lower(text)), Contractions));
    if t != [] {
      SplitCanonical(t);
      JoinSplit(t);
    }
  }

  // ---------------------------------------------------------------------------
  // Replacement facts

  lemma {:induction false} ReplaceFromNoMatch(s: string, p: string, e: string, k: nat)
    requires |p| > 0 && k <= |s|
    requires forall j :: k <= j < |s| ==> !WholeWordAt(s, p, j)
    ensures ReplaceFrom(s, p, e, k) == s[k..]
    decreases |s| - k
  {
    if k < |s| {
      ReplaceFromNoMatch(s, p, e, k + 1);
      assert s[k..] == [s[k]] + s[k + 1..];
    }
  }

  lemma ReplaceFromStep(s: string, p: string, e: string, j: nat)
    requires |p| > 0 && j < |s| && !WholeWordAt(s, p, j)
    ensures ReplaceFrom(s, p, e, j) == [s[j]] + ReplaceFrom(s, p, e, j + 1)
  {
  }

  lemma ReplaceFromMatch(s: string, p: string, e: string, j: nat)
    requires |p| > 0 && j < |s| && WholeWordAt(s, p, j)
    ensures ReplaceFrom(s, p, e, j) == e + ReplaceFrom(s, p, e, j + |p|)
  {
  }

  lemma {:induction false} ReplaceFromUpTo(s: string, p: string, e: string, k0: nat, j: nat)
    requires |p| > 0 && j <= k0 && WholeWordAt(s, p, k0)
    requires forall i :: j <= i < |s| && i != k0 ==> !WholeWordAt(s, p, i)
    ensures ReplaceFrom(s, p, e, j) == s[j..k0] + e + s[k0 + |p|..]
    decreases k0 - j
  {
    if j == k0 {
      ReplaceFromNoMatch(s, p, e, k0 + |p|);
      ReplaceFromMatch(s, p, e, k0);
      var tail := s[k0 + |p|..];
      assert s[j..k0] + e + tail == e + tail;
    } else {
      ReplaceFromUpTo(s, p, e, k0, j + 1);
      UpToStep(s, p, e, k0, j);
    }
  }

  lemma UpToStep(s: string, p: string, e: string, k0: nat, j: nat)
    requires |p| > 0 && j < k0 && WholeWordAt(s, p, k0) && !WholeWordAt(s, p, j)
    requires ReplaceFrom(s, p, e, j + 1) == s[j + 1..k0] + e + s[k0 + |p|..]
    ensures ReplaceFrom(s, p, e, j) == s[j..k0] + e + s[k0 + |p|..]
  {
    ReplaceFromStep(s, p, e, j);
    var tail := s[k0 + |p|..];
    assert s[j..k0] == [s[j]] + s[j + 1..k0];
    assert [s[j]] + (s[j + 1..k0] + e + tail) == ([s[j]] + s[j + 1..k0]) + e + tail;
  }

  /** A pattern with no whole-word occurrence leaves the text unchanged; this is
    * why a contraction inside a longer word is not expanded. */
  lemma ReplaceWithoutWholeWord(s: string, p: string, e: string)
    requires |p| > 0
    requires forall j :: 0 <= j < |s| ==> !WholeWordAt(s, p, j)
    ensures ReplaceWholeWord(s, p, e) == s
  {
    ReplaceFromNoMatch(s, p, e, 0);
  }

  /** A single whole-word occurrence is replaced and the rest is kept. */
  lemma ReplaceSingleWholeWord(s: string, p: string, e: string, k0: nat)
    requires |p| > 0 && WholeWordAt(s, p, k0)
    requires forall i :: 0 <= i < |s| && i != k0 ==> !WholeWordAt(s, p, i)
    ensures ReplaceWholeWord(s, p, e) == s[..k0] + e + s[k0 + |p|..]
  {
    ReplaceFromUpTo(s, p, e, k0, 0);
  }

  lemma {:induction false} ExpandAllNoMatch(s: string, cs: seq<(string, string)>)
    requires forall i :: 0 <= i < |cs| ==> |cs[i].0| > 0
    requires forall i, j :: 0 <= i < |cs| && 0 <= j < |s| ==> !WholeWordAt(s, cs[i].0, j)
    ensures ExpandAll(s, cs) == s
    decreases |cs|
  {
    if cs != [] {
      ReplaceWithoutWholeWord(s, cs[0].0, cs[0].1);
      ExpandAllNoMatch(s, cs[1..]);
    }
  }

  lemma {:induction false} ExpandAllAppend(s: string, a: seq<(string, string)>, b: seq<(string, string)>)
    requires forall i :: 0 <= i < |a| ==> |a[i].0| > 0
    requires forall i :: 0 <= i < |b| ==> |b[i].0| > 0
    ensures ExpandAll(s, a + b) == ExpandAll(ExpandAll(s, a), b)
    decreases |a|
  {
    if a == [] {
      assert a + b == b;
    } else {
      var r := ReplaceWholeWord(s, a[0].0, a[0].1);
      assert (a + b)[0] == a[0] && (a + b)[1..] == a[1..] + b;
      ExpandAllAppend(r, a[1..], b);
      calc {
        ExpandAll(s, a + b);
        ExpandAll(r, a[1..] + b);
        ExpandAll(ExpandAll(r, a[1..]), b);
        ExpandAll(ExpandAll(s, a), b);
      }
    }
  }

  /** No contraction key occurs in text without an apostrophe. */
  lemma NoApostropheNoMatch(s: string, p: string, j: nat)
    requires forall i :: 0 <= i < |s| ==> s[i] != '\''
    requires IsContractionWord(p)
    ensures !WholeWordAt(s, p, j)
  {
    var ap :| 0 <= ap < |p| && p[ap] == '\'';
    if j + |p| <= |s| {
      assert s[j..j + |p|][ap] == s[j + ap];
    }
  }

  lemma ExpandAllNoApostrophe(s: string, cs: seq<(string, string)>)
    requires forall i :: 0 <= i < |cs| ==> |cs[i].0| > 0 && IsContractionWord(cs[i].0)
    requires forall i :: 0 <= i < |s| ==> s[i] != '\''
    ensures ExpandAll(s, cs) == s
  {
    forall i, j | 0 <= i < |cs| && 0 <= j < |s| ensures !WholeWordAt(s, cs[i].0, j) {
      NoApostropheNoMatch(s, cs[i].0, j);
    }
    ExpandAllNoMatch(s, cs);
  }

  lemma MatchChar(s: string, p: string, k: nat, i: nat)
    requires WholeWordAt(s, p, k) && k <= i < k + |p|
    ensures s[i] == p[i - k]
  {
    assert s[k..k + |p|][i - k] == s[i];
  }

  /** w is letters on both sides of a single apostrophe at q. */
  predicate LettersAround(w: string, q: nat) {
    && 0 < q < |w| - 1 && w[q] == '\''
    && (forall i :: 0 <= i < |w| && i != q ==> IsLowerLetter(w[i]))
  }

  /** The position of the apostrophe of a contraction word. */
  lemma ApostropheOf(w: string) returns (q: nat)
    requires IsContractionWord(w)
    ensures LettersAround(w, q)
  {
    q :| 0 <= q < |w| && w[q] == '\'';
  }

  /** Every character a match covers is a letter or an apostrophe. */
  lemma MatchCovers(s: string, p: string, k: nat, ap: nat, i: int)
    requires WholeWordAt(s, p, k) && LettersAround(p, ap)
    ensures k <= i < k + |p| ==> IsLowerLetter(s[i]) || s[i] == '\''
  {
    if k <= i < k + |p| {
      MatchChar(s, p, k, i);
    }
  }

  lemma CharOf(a: string, w: string, b: string, i: int)
    ensures 0 <= i < |a| ==> (a + w + b)[i] == a[i]
    ensures |a| <= i < |a| + |w| ==> (a + w + b)[i] == w[i - |a|]
    ensures |a| + |w| <= i < |a| + |w| + |b| ==> (a + w + b)[i] == b[i - |a| - |w|]
  {
  }

  /** Text before and after a word that holds no apostrophe and ends, and
    * starts, with a separator. */
  predicate Separates(a: string, b: string) {
    && (forall i :: 0 <= i < |a| ==> a[i] != '\'')
    && (forall i :: 0 <= i < |b| ==> b[i] != '\'')
    && (a != [] ==> !IsWordChar(a[|a| - 1]) && a[|a| - 1] != '\'')
    && (b != [] ==> !IsWordChar(b[0]) && b[0] != '\'')
  }

  /** The text a + w + b with w standing alone, as `ExpandedAmidPlainText`
    * requires it. */
  predicate StandsAlone(a: string, w: string, b: string) {
    IsContractionWord(w) && Separates(a, b)
  }

  /** A match in a + w + b lies within w, since it covers an apostrophe and
    * only letters and apostrophes. */
  lemma {:induction false} MatchWithinWord(a: string, w: string, b: string, p: string, k: nat, ap: nat)
    requires Separates(a, b) && LettersAround(p, ap)
    requires WholeWordAt(a + w + b, p, k)
    ensures |a| <= k && k + |p| <= |a| + |w|
    ensures p == w[k - |a|..k - |a| + |p|]
  {
    var s := a + w + b;
    MatchChar(s, p, k, k + ap);
    CharOf(a, w, b, k + ap);
    assert |a| <= k + ap < |a| + |w|;
    if a != [] {
      MatchCovers(s, p, k, ap, |a| - 1);
      CharOf(a, w, b, |a| - 1);
    }
    if b != [] {
      MatchCovers(s, p, k, ap, |a| + |w|);
      CharOf(a, w, b, |a| + |w|);
    }
    forall j | 0 <= j < |p| ensures p[j] == w[k - |a| + j] {
      MatchChar(s, p, k, k + j);
      CharOf(a, w, b, k + j);
    }
  }

  lemma {:induction false} OnlyMatchAt(a: string, w: string, b: string, p: string, k: nat, q: nat, ap: nat)
    requires Separates(a, b) && LettersAround(w, q) && LettersAround(p, ap)
    ensures WholeWordAt(a + w + b, p, k) ==> k == |a| && p == w
  {
    var s := a + w + b;
    if WholeWordAt(s, p, k) {
      MatchWithinWord(a, w, b, p, k, ap);
      var d := k - |a|;
      // The apostrophes line up.
      assert p[ap] == w[d + ap];
      assert d + ap == q;
      // A letter of w right before or right after the match would contradict
      // the word boundaries.
      MatchChar(s, p, k, k);
      MatchChar(s, p, k, k + |p| - 1);
      CharOf(a, w, b, k - 1);
      CharOf(a, w, b, k + |p|);
      assert d == 0 && |p| == |w|;
    }
  }

  /** Inside text of the form a + w + b, where w is a contraction word standing
    * alone, the only whole-word occurrence of a contraction word is w itself. */
  lemma OnlyMatchIsTheWord(a: string, w: string, b: string, p: string, k: nat)
    requires StandsAlone(a, w, b) && IsContractionWord(p)
    ensures WholeWordAt(a + w + b, p, k) ==> k == |a| && p == w
  {
    var q := ApostropheOf(w);
    var ap := ApostropheOf(p);
    OnlyMatchAt(a, w, b, p, k, q, ap);
  }

  lemma BeforeEntryUnchanged(cs: seq<(string, string)>, a: string, k: nat, b: string)
    requires WellFormedTable(cs) && k < |cs| && StandsAlone(a, cs[k].0, b)
    ensures forall i :: 0 <= i < |cs[..k]| ==> |cs[..k][i].0| > 0
    ensures ExpandAll(a + cs[k].0 + b, cs[..k]) == a + cs[k].0 + b
  {
    var w := cs[k].0;
    var s := a + w + b;
    var before := cs[..k];
    forall i, j | 0 <= i < |before| && 0 <= j < |s| ensures !WholeWordAt(s, before[i].0, j) {
      OnlyMatchIsTheWord(a, w, b, before[i].0, j);
    }
    ExpandAllNoMatch(s, before);
  }

  lemma EntryReplaces(w: string, e: string, a: string, b: string)
    requires StandsAlone(a, w, b)
    ensures ReplaceWholeWord(a + w + b, w, e) == a + e + b
  {
    var s := a + w + b;
    assert s[|a|..|a| + |w|] == w;
    assert WholeWordAt(s, w, |a|);
    forall j | 0 <= j < |s| && j != |a| ensures !WholeWordAt(s, w, j) {
      OnlyMatchIsTheWord(a, w, b, w, j);
    }
    ReplaceSingleWholeWord(s, w, e, |a|);
    assert s[..|a|] == a && s[|a| + |w|..] == b;
  }

  /** Running the table is running the entries before k, entry k, then the
    * entries after it. */
  lemma ExpandAllAround(s: string, cs: seq<(string, string)>, k: nat)
    requires forall i :: 0 <= i < |cs| ==> |cs[i].0| > 0
    requires k < |cs|
    ensures ExpandAll(s, cs)
      == ExpandAll(ReplaceWholeWord(ExpandAll(s, cs[..k]), cs[k].0, cs[k].1), cs[k + 1..])
  {
    var before, rest := cs[..k], cs[k..];
    assert cs == before + rest;
    assert rest[0] == cs[k] && rest[1..] == cs[k + 1..];
    ExpandAllAppend(s, before, rest);
  }

  /** Text of the form a + e + b, with e an expansion, has no apostrophe, so
    * no entry changes it. */
  lemma AfterEntryUnchanged(cs: seq<(string, string)>, k: nat, a: string, b: string)
    requires WellFormedTable(cs) && k < |cs| && Separates(a, b)
    ensures ExpandAll(a + cs[k].1 + b, cs[k + 1..]) == a + cs[k].1 + b
  {
    var e := cs[k].1;
    var r := a + e + b;
    assert forall i :: 0 <= i < |e| ==> e[i] != '\'';
    assert forall i :: 0 <= i < |r| ==> r[i] != '\'';
    ExpandAllNoApostrophe(r, cs[k + 1..]);
  }

  /** A listed contraction standing as a whole word, in text without other
    * apostrophes, is replaced by its expansion and nothing else changes. */
  lemma ExpandedAmidPlainText(cs: seq<(string, string)>, a: string, k: nat, b: string)
    requires WellFormedTable(cs) && k < |cs| && StandsAlone(a, cs[k].0, b)
    ensures forall i :: 0 <= i < |cs| ==> |cs[i].0| > 0
    ensures ExpandAll(a + cs[k].0 + b, cs) == a + cs[k].1 + b
  {
    BeforeEntryUnchanged(cs, a, k, b);
    EntryReplaces(cs[k].0, cs[k].1, a, b);
    AfterEntryUnchanged(cs, k, a, b);
    ExpandAllAround(a + cs[k].0 + b, cs, k);
  }

  // ---------------------------------------------------------------------------
  // Expansion splits at a separator

  /** A character no contraction key can cover and no `\b` sees as a word
    * character: neither a word character nor an apostrophe. */
  predicate IsSeparator(c: char) { !IsWordChar(c) && c != '\'' }

  /** x ends, or y starts, with a separator, so no match straddles x + y. */
  predicate CutAt(x: string, y: string) {
    (x != [] && IsSeparator(x[|x| - 1])) || (y != [] && IsSeparator(y[0]))
  }

  predicate KeysAreWords(cs: seq<(string, string)>) {
    forall i :: 0 <= i < |cs| ==> IsContractionWord(cs[i].0)
  }

  /** A character a match covers is a letter or an apostrophe. */
  lemma CoveredNotSeparator(s: string, p: string, k: nat, i: nat)
    requires IsContractionWord(p) && WholeWordAt(s, p, k) && k <= i < k + |p|
    ensures !IsSeparator(s[i])
  {
    MatchChar(s, p, k, i);
  }

  /** Left of the cut, x + y matches where x alone does. */
  lemma MatchLeftOfCut(x: string, y: string, p: string, k: nat)
    requires IsContractionWord(p) && CutAt(x, y) && k < |x|
    ensures WholeWordAt(x + y, p, k) <==> WholeWordAt(x, p, k)
  {
    var s := x + y;
    if WholeWordAt(s, p, k) {
      if k + |p| > |x| {
        CoveredNotSeparator(s, p, k, |x| - 1);
        CoveredNotSeparator(s, p, k, |x|);
        assert false;
      }
      assert s[k..k + |p|] == x[k..k + |p|];
      if k + |p| == |x| {
        CoveredNotSeparator(s, p, k, |x| - 1);
        assert s[|x| - 1] == x[|x| - 1];
      }
    }
    if WholeWordAt(x, p, k) {
      assert s[k..k + |p|] == x[k..k + |p|];
      if k + |p| == |x| {
        CoveredNotSeparator(x, p, k, |x| - 1);
      }
    }
  }

  /** Right of the cut, x + y matches where y alone does. */
  lemma MatchRightOfCut(x: string, y: string, p: string, i: nat)
    requires IsContractionWord(p) && CutAt(x, y) && i < |y|
    ensures WholeWordAt(x + y, p, |x| + i) <==> WholeWordAt(y, p, i)
  {
    var s := x + y;
    if WholeWordAt(s, p, |x| + i) {
      assert s[|x| + i..|x| + i + |p|] == y[i..i + |p|];
      if i == 0 {
        CoveredNotSeparator(s, p, |x|, |x|);
        assert s[|x|] == y[0];
      }
    }
    if WholeWordAt(y, p, i) {
      assert s[|x| + i..|x| + i + |p|] == y[i..i + |p|];
      if i == 0 {
        CoveredNotSeparator(y, p, 0, 0);
      }
    }
  }

  /** One step of `ReplaceFrom` on s at k mirrors one step on t at j when
    * both see the same match decision and the same character, and the rests
    * agree. */
  lemma ReplaceStepAgrees(s: string, t: string, p: string, e: string, k: nat, j: nat)
    requires |p| > 0 && k < |s| && j < |t| && s[k] == t[j]
    requires WholeWordAt(s, p, k) <==> WholeWordAt(t, p, j)
    requires WholeWordAt(t, p, j) ==> ReplaceFrom(s, p, e, k + |p|) == ReplaceFrom(t, p, e, j + |p|)
    requires !WholeWordAt(t, p, j) ==> ReplaceFrom(s, p, e, k + 1) == ReplaceFrom(t, p, e, j + 1)
    ensures ReplaceFrom(s, p, e, k) == ReplaceFrom(t, p, e, j)
  {
  }

  /** Where one step right of the cut goes next. */
  function NextFrom(y: string, p: string, i: nat): nat
    requires i < |y|
  {
    if WholeWordAt(y, p, i) then i + |p| else i + 1
  }

  lemma RightOfCutStep(x: string, y: string, p: string, e: string, i: nat)
    requires IsContractionWord(p) && CutAt(x, y) && i < |y|
    requires NextFrom(y, p, i) <= |y|
    requires ReplaceFrom(x + y, p, e, |x| + NextFrom(y, p, i)) == ReplaceFrom(y, p, e, NextFrom(y, p, i))
    ensures ReplaceFrom(x + y, p, e, |x| + i) == ReplaceFrom(y, p, e, i)
  {
    if WholeWordAt(y, p, i) {
      RightOfCutMatch(x, y, p, e, i, i + |p|);
    } else {
      RightOfCutMatch(x, y, p, e, i, i + 1);
    }
  }

  /** The same step, with the next index `j` given. */
  lemma RightOfCutMatch(x: string, y: string, p: string, e: string, i: nat, j: nat)
    requires IsContractionWord(p) && CutAt(x, y) && i < |y|
    requires j == (if WholeWordAt(y, p, i) then i + |p| else i + 1)
    requires ReplaceFrom(x + y, p, e, |x| + j) == ReplaceFrom(y, p, e, j)
    ensures ReplaceFrom(x + y, p, e, |x| + i) == ReplaceFrom(y, p, e, i)
  {
    MatchRightOfCut(x, y, p, i);
    var s := x + y;
    assert s[|x| + i] == y[i];
    ReplaceStepAgrees(s, y, p, e, |x| + i, i);
  }

  lemma {:induction false} ReplaceRightOfCut(x: string, y: string, p: string, e: string, i: nat)
    requires IsContractionWord(p) && CutAt(x, y) && i <= |y|
    ensures ReplaceFrom(x + y, p, e, |x| + i) == ReplaceFrom(y, p, e, i)
    decreases |y| - i
  {
    if i < |y| {
      ReplaceRightOfCut(x, y, p, e, NextFrom(y, p, i));
      RightOfCutStep(x, y, p, e, i);
    }
  }

  /** One step of `ReplaceFrom` on x + y at k, left of the cut, adds what one
    * step on x adds. */
  lemma ReplaceStepPrefix(s: string, x: string, p: string, e: string, k: nat, ry: string)
    requires |p| > 0 && k < |x| && k < |s| && s[k] == x[k]
    requires WholeWordAt(s, p, k) <==> WholeWordAt(x, p, k)
    requires WholeWordAt(x, p, k) ==>
      k + |p| <= |s| && ReplaceFrom(s, p, e, k + |p|) == ReplaceFrom(x, p, e, k + |p|) + ry
    requires !WholeWordAt(x, p, k) ==> ReplaceFrom(s, p, e, k + 1) == ReplaceFrom(x, p, e, k + 1) + ry
    ensures ReplaceFrom(s, p, e, k) == ReplaceFrom(x, p, e, k) + ry
  {
    if WholeWordAt(x, p, k) {
      var rx := ReplaceFrom(x, p, e, k + |p|);
      assert e + (rx + ry) == (e + rx) + ry;
    } else {
      var rx := ReplaceFrom(x, p, e, k + 1);
      assert [x[k]] + (rx + ry) == ([x[k]] + rx) + ry;
    }
  }

  lemma LeftOfCutStep(x: string, y: string, p: string, e: string, k: nat)
    requires IsContractionWord(p) && CutAt(x, y) && k < |x|
    requires NextFrom(x, p, k) <= |x|
    requires ReplaceFrom(x + y, p, e, NextFrom(x, p, k))
      == ReplaceFrom(x, p, e, NextFrom(x, p, k)) + ReplaceFrom(y, p, e, 0)
    ensures ReplaceFrom(x + y, p, e, k) == ReplaceFrom(x, p, e, k) + ReplaceFrom(y, p, e, 0)
  {
    MatchLeftOfCut(x, y, p, k);
    ReplaceStepPrefix(x + y, x, p, e, k, ReplaceFrom(y, p, e, 0));
  }

  lemma {:induction false} ReplaceAcrossCut(x: string, y: string, p: string, e: string, k: nat)
    requires IsContractionWord(p) && CutAt(x, y) && k <= |x|
    ensures ReplaceFrom(x + y, p, e, k) == ReplaceFrom(x, p, e, k) + ReplaceFrom(y, p, e, 0)
    decreases |x| - k
  {
    if k == |x| {
      ReplaceRightOfCut(x, y, p, e, 0);
      assert |x| + 0 == k;
    } else {
      ReplaceAcrossCut(x, y, p, e, NextFrom(x, p, k));
      LeftOfCutStep(x, y, p, e, k);
    }
  }

  lemma ReplaceOneChar(c: char, p: string, e: string)
    requires |p| > 1
    ensures ReplaceWholeWord([c], p, e) == [c]
  {
    assert !WholeWordAt([c], p, 0);
    ReplaceFromStep([c], p, e, 0);
    assert [c] + [] == [c];
  }

  /** A separator is not part of any match, so it survives a replacement at
    * either end of the text. */
  lemma ReplaceKeepsEnds(x: string, p: string, e: string)
    requires IsContractionWord(p) && x != []
    ensures IsSeparator(x[|x| - 1]) ==>
      ReplaceWholeWord(x, p, e) != [] &&
      ReplaceWholeWord(x, p, e)[|ReplaceWholeWord(x, p, e)| - 1] == x[|x| - 1]
    ensures IsSeparator(x[0]) ==>
      ReplaceWholeWord(x, p, e) != [] && ReplaceWholeWord(x, p, e)[0] == x[0]
  {
    var c, d := x[|x| - 1], x[0];
    ReplaceOneChar(c, p, e);
    ReplaceOneChar(d, p, e);
    if IsSeparator(c) {
      var x0 := x[..|x| - 1];
      assert x == x0 + [c];
      ReplaceAcrossCut(x0, [c], p, e, 0);
    }
    if IsSeparator(d) {
      var x1 := x[1..];
      assert x == [d] + x1;
      ReplaceAcrossCut([d], x1, p, e, 0);
    }
  }

  /** A cut survives a replacement on both sides. */
  lemma ReplaceKeepsCut(x: string, y: string, p: string, e: string)
    requires IsContractionWord(p) && CutAt(x, y)
    ensures CutAt(ReplaceWholeWord(x, p, e), ReplaceWholeWord(y, p, e))
  {
    if x != [] {
      ReplaceKeepsEnds(x, p, e);
    }
    if y != [] {
      ReplaceKeepsEnds(y, p, e);
    }
  }

  /** The whole table works on each side of a cut on its own. */
  lemma {:induction false} ExpandAcrossCut(x: string, y: string, cs: seq<(string, string)>)
    requires KeysAreWords(cs) && CutAt(x, y)
    ensures forall i :: 0 <= i < |cs| ==> |cs[i].0| > 0
    ensures ExpandAll(x + y, cs) == ExpandAll(x, cs) + ExpandAll(y, cs)
    decreases |cs|
  {
    if cs != [] {
      var p, e := cs[0].0, cs[0].1;
      ReplaceAcrossCut(x, y, p, e, 0);
      ReplaceKeepsCut(x, y, p, e);
      ExpandAcrossCut(ReplaceWholeWord(x, p, e), ReplaceWholeWord(y, p, e), cs[1..]);
    }
  }

  lemma {:induction false} ExpandEmpty(cs: seq<(string, string)>)
    requires forall i :: 0 <= i < |cs| ==> |cs[i].0| > 0
    ensures ExpandAll([], cs) == []
    decreases |cs|
  {
    if cs != [] {
      assert ReplaceWholeWord([], cs[0].0, cs[0].1) == [];
      ExpandEmpty(cs[1..]);
    }
  }

  /** The key of entry k, alone, becomes its expansion. */
  lemma KeyAlone(cs: seq<(string, string)>, k: nat)
    requires WellFormedTable(cs) && k < |cs|
    ensures forall i :: 0 <= i < |cs| ==> |cs[i].0| > 0
    ensures ExpandAll(cs[k].0, cs) == cs[k].1
  {
    var w, e := cs[k].0, cs[k].1;
    ExpandedAmidPlainText(cs, [], k, []);
    PlainTextAlone(cs, w, e);
  }

  lemma PlainTextAlone(cs: seq<(string, string)>, w: string, e: string)
    requires forall i :: 0 <= i < |cs| ==> |cs[i].0| > 0
    requires ExpandAll([] + w + [], cs) == [] + e + []
    ensures ExpandAll(w, cs) == e
  {
    assert [] + w + [] == w;
    assert [] + e + [] == e;
  }

  /** A word that expands to e, after text that ends with a separator (or is
    * empty), expands to what that text expands to followed by e. */
  lemma AfterText(cs: seq<(string, string)>, a: string, w: string, e: string)
    requires KeysAreWords(cs) && ExpandAll(w, cs) == e
    requires a == [] || IsSeparator(a[|a| - 1])
    ensures ExpandAll(a + w, cs) == ExpandAll(a, cs) + e
  {
    if a == [] {
      ExpandEmpty(cs);
      assert a + w == w;
    } else {
      ExpandAcrossCut(a, w, cs);
    }
  }

  /** The same with text after the word that starts with a separator (or is
    * empty). */
  lemma WordAmid(cs: seq<(string, string)>, a: string, w: string, e: string, b: string)
    requires KeysAreWords(cs) && ExpandAll(w, cs) == e
    requires a == [] || IsSeparator(a[|a| - 1])
    requires b == [] || IsSeparator(b[0])
    ensures ExpandAll(a + w + b, cs) == ExpandAll(a, cs) + e + ExpandAll(b, cs)
  {
    AfterText(cs, a, w, e);
    if b == [] {
      ExpandEmpty(cs);
      assert a + w + b == a + w;
    } else {
      ExpandAcrossCut(a + w, b, cs);
    }
  }

  /** A listed contraction standing as a whole word, between text that ends
    * and text that starts with a separator (or nothing), is replaced by its
    * expansion; the text around it expands as it would on its own. */
  lemma ContractionExpandedIn(cs: seq<(string, string)>, a: string, k: nat, b: string)
    requires WellFormedTable(cs) && k < |cs|
    requires a == [] || IsSeparator(a[|a| - 1])
    requires b == [] || IsSeparator(b[0])
    ensures forall i :: 0 <= i < |cs| ==> |cs[i].0| > 0
    ensures ExpandAll(a + cs[k].0 + b, cs) == ExpandAll(a, cs) + cs[k].1 + ExpandAll(b, cs)
  {
    KeyAlone(cs, k);
    assert KeysAreWords(cs);
    WordAmid(cs, a, cs[k].0, cs[k].1, b);
  }

  /** The same, for the app's table. */
  lemma ContractionExpanded(a: string, k: nat, b: string)
    requires k < |Contractions|
    requires a == [] || IsSeparator(a[|a| - 1])
    requires b == [] || IsSeparator(b[0])
    ensures ExpandAll(a + Contractions[k].0 + b, Contractions)
      == ExpandAll(a, Contractions) + Contractions[k].1 + ExpandAll(b, Contractions)
  {
    ContractionsWellFormed();
    ContractionExpandedIn(Contractions, a, k, b);
  }

  // ---------------------------------------------------------------------------
  // Properties of the whole normaliser

  lemma {:induction false} CollapseFixed(s: string)
    requires forall i :: 0 <= i < |s| ==> IsRegexSpace(s[i]) ==> s[i] == ' '
    requires forall i :: 0 <= i < |s| - 1 ==> !(s[i] == ' ' && s[i + 1] == ' ')
    ensures Collapse(s) == s
    decreases |s|
  {
    if s != [] {
      var t := s[1..];
      assert forall i :: 0 <= i < |t| ==> t[i] == s[i + 1];
      CollapseFixed(t);
      assert s == [s[0]] + t;
      if IsRegexSpace(s[0]) {
        assert t != [] ==> t[0] == s[1] && s[1] != ' ' && !IsRegexSpace(t[0]);
        assert DropSpaces(t) == t;
        assert DropSpaces(s) == t;
        assert Collapse(s) == [' '] + Collapse(t);
      } else {
        assert Collapse(s) == [s[0]] + Collapse(t);
      }
    }
  }

  lemma CanonicalCleanUpFixed(t: string)
    requires Canonical(t)
    ensures Lower(t) == t && Trim(t) == t && CleanUp(t) == t
  {
    CanonicalLower(t);
    CanonicalStripped(t);
    CollapseFixed(t);
    CanonicalTrimmed(t);
  }

  lemma CanonicalStripped(t: string)
    requires Canonical(t)
    ensures Strip(t) == t
    ensures forall i :: 0 <= i < |t| ==> IsRegexSpace(t[i]) ==> t[i] == ' '
    ensures forall i :: 0 <= i < |t| - 1 ==> !(t[i] == ' ' && t[i + 1] == ' ')
  {
    assert forall i :: 0 <= i < |t| ==> IsKept(t[i]);
  }

  lemma CanonicalTrimmed(t: string)
    requires Canonical(t)
    ensures Trim(t) == t
  {
    assert t != [] ==> !IsWhitespace(t[0]) && !IsWhitespace(t[|t| - 1]);
    TrimOfTrimmed(t);
  }

  lemma CanonicalLower(t: string)
    requires Canonical(t)
    ensures Lower(t) == t
  {
    assert forall i :: 0 <= i < |t| ==> Lower(t)[i] == LowerChar(t[i]) == t[i];
  }

  lemma CanonicalExpandFixed(t: string, cs: seq<(string, string)>)
    requires Canonical(t) && WellFormedTable(cs)
    ensures forall i :: 0 <= i < |cs| ==> |cs[i].0| > 0
    ensures ExpandAll(t, cs) == t
  {
    ExpandAllNoApostrophe(t, cs);
  }

  /** Canonical text is a fixed point of every stage before the split. */
  lemma CanonicalFixed(t: string)
    requires Canonical(t)
    ensures Cleaned(t) == t
  {
    ContractionsWellFormed();
    CanonicalCleanUpFixed(t);
    CanonicalExpandFixed(t, Contractions);
  }

  /** Re-normalising the space-joined tokens gives the same tokens. */
  lemma NormalizeIdempotent(text: string)
    ensures NormalizeSpec(Join(NormalizeSpec(text), " ")) == NormalizeSpec(text)
  {
    ContractionsWellFormed();
    TokensOfCleaned(text);
    CleanUpCanonical(ExpandAll(Trim(Lower(text)), Contractions));
    CanonicalFixed(Cleaned(text));
  }

  /** Texts that differ only in the case of letters give the same tokens. */
  lemma CaseInsensitive(x: string, y: string)
    requires |x| == |y|
    requires forall i :: 0 <= i < |x| ==> LowerChar(x[i]) == LowerChar(y[i])
    ensures NormalizeSpec(x) == NormalizeSpec(y)
  {
    assert Lower(x) == Lower(y);
  }

  lemma NoWordsExpandAll(t: string, cs: seq<(string, string)>)
    requires WellFormedTable(cs)
    requires forall i :: 0 <= i < |t| ==> !IsTokenChar(t[i])
    ensures ExpandAll(t, cs) == t
  {
    forall i, j | 0 <= i < |cs| && 0 <= j < |t| ensures !WholeWordAt(t, cs[i].0, j) {
      var p := cs[i].0;
      if j + |p| <= |t| {
        assert t[j..j + |p|][0] == t[j];
      }
    }
    ExpandAllNoMatch(t, cs);
  }

  lemma NoWordsCleanUp(t: string)
    requires forall i :: 0 <= i < |t| ==> !IsTokenChar(t[i])
    ensures CleanUp(t) == []
  {
    var st := Strip(t);
    forall i | 0 <= i < |st| ensures IsRegexSpace(st[i]) {
      var c := st[i];
      assert c in t;
      var j :| 0 <= j < |t| && t[j] == c;
    }
    var c := Collapse(st);
    assert forall i :: 0 <= i < |c| ==> c[i] == ' ';
    TrimAllBlank(c);
  }

  /** Empty, whitespace-only and punctuation-only text gives no tokens. */
  lemma NoWordsNoTokens(text: string)
    requires forall i :: 0 <= i < |text| ==> !IsUpper(text[i]) && !IsTokenChar(text[i])
    ensures NormalizeSpec(text) == []
  {
    ContractionsWellFormed();
    assert Lower(text) == text;
    var s := TrimStart(text);
    var t := TrimEnd(s);
    TrimStartSuffix(text);
    assert t == s[..|t|] && s == text[|text| - |s|..];
    assert forall i :: 0 <= i < |t| ==> !IsTokenChar(t[i]);
    NoWordsExpandAll(t, Contractions);
    NoWordsCleanUp(t);
  }

  // ---------------------------------------------------------------------------
  // Which characters separate words

  /** A character of ICU's `\s` between two letters separates them into two tokens. */
  lemma SeparatorSplitsWords(x: char, c: char, y: char)
    requires IsLowerLetter(x) && IsRegexSpace(c) && IsLowerLetter(y)
    ensures NormalizeSpec([x, c, y]) == [[x], [y]]
  {
    SeparatorCleaned(x, c, y);
    NormalizeTwoWords([x, c, y], x, y);
  }

  lemma SeparatorCleaned(x: char, c: char, y: char)
    requires IsLowerLetter(x) && IsRegexSpace(c) && IsLowerLetter(y)
    ensures Cleaned([x, c, y]) == [x, ' ', y]
  {
    LettersAroundPlain(x, c, y);
    SeparatorCleanUp(x, c, y);
  }

  lemma SeparatorCleanUp(x: char, c: char, y: char)
    requires IsLowerLetter(x) && IsRegexSpace(c) && IsLowerLetter(y)
    ensures CleanUp([x, c, y]) == [x, ' ', y]
  {
    SeparatorStripCollapse(x, c, y);
    TrimBetweenLetters([x, ' ', y]);
  }

  lemma SeparatorStripCollapse(x: char, c: char, y: char)
    requires IsLowerLetter(x) && IsRegexSpace(c) && IsLowerLetter(y)
    ensures Collapse(Strip([x, c, y])) == [x, ' ', y]
  {
    SeparatorKept(x, c, y);
    SeparatorCollapsed(x, c, y);
  }

  lemma SeparatorKept(x: char, c: char, y: char)
    requires IsLowerLetter(x) && IsRegexSpace(c) && IsLowerLetter(y)
    ensures Strip([x, c, y]) == [x, c, y]
  {
    StripKeepsAll([x, c, y]);
  }

  lemma SeparatorCollapsed(x: char, c: char, y: char)
    requires IsLowerLetter(x) && IsRegexSpace(c) && IsLowerLetter(y)
    ensures Collapse([x, c, y]) == [x, ' ', y]
  {
    CollapseOneSpace(x, c, y);
  }

  /** Text cleaned to two one-letter words gives those two tokens. */
  lemma NormalizeTwoWords(t: string, x: char, y: char)
    requires Cleaned(t) == [x, ' ', y] && x != ' ' && y != ' '
    ensures NormalizeSpec(t) == [[x], [y]]
  {
    SplitJoin([[x], [y]]);
    assert Join([[x], [y]], " ") == [x, ' ', y];
  }

  /** A character neither kept by the strip nor an upper-case letter or an
    * apostrophe is deleted between two letters, which then form one token. */
  lemma DroppedCharJoinsWords(x: char, c: char, y: char)
    requires IsLowerLetter(x) && !IsKept(c) && !IsUpper(c) && c != '\'' && IsLowerLetter(y)
    ensures NormalizeSpec([x, c, y]) == [[x, y]]
  {
    DroppedCharCleaned(x, c, y);
    NormalizeOneWord([x, c, y], x, y);
  }

  lemma DroppedCharCleaned(x: char, c: char, y: char)
    requires IsLowerLetter(x) && !IsKept(c) && !IsUpper(c) && c != '\'' && IsLowerLetter(y)
    ensures Cleaned([x, c, y]) == [x, y]
  {
    LettersAroundPlain(x, c, y);
    DroppedCharCleanUp(x, c, y);
  }

  lemma DroppedCharCleanUp(x: char, c: char, y: char)
    requires IsLowerLetter(x) && !IsKept(c) && IsLowerLetter(y)
    ensures CleanUp([x, c, y]) == [x, y]
  {
    DroppedCharStripped(x, c, y);
    TwoLettersCollapsed(x, y);
    TrimBetweenLetters([x, y]);
  }

  lemma DroppedCharStripped(x: char, c: char, y: char)
    requires IsLowerLetter(x) && !IsKept(c) && IsLowerLetter(y)
    ensures Strip([x, c, y]) == [x, y]
  {
    assert Strip([x, c, y]) == [x, y];
  }

  lemma TwoLettersCollapsed(x: char, y: char)
    requires IsLowerLetter(x) && IsLowerLetter(y)
    ensures Collapse([x, y]) == [x, y]
  {
    CollapseOneChar(y);
    CollapseKeepsFirst(x, [y]);
    assert [x] + [y] == [x, y];
  }

  /** Text cleaned to one two-letter word gives that token. */
  lemma NormalizeOneWord(t: string, x: char, y: char)
    requires Cleaned(t) == [x, y] && x != ' ' && y != ' '
    ensures NormalizeSpec(t) == [[x, y]]
  {
    SplitJoin([[x, y]]);
  }

  /** A no-break space separates two words, since ICU's `\s` holds it. */
  lemma NoBreakSpaceSeparates()
    ensures NormalizeSpec("a\U{A0}b") == ["a", "b"]
  {
    SeparatorSplitsWords('a', '\U{A0}', 'b');
  }

  /** A vertical tab is outside ICU's `\s`, so it is deleted and the words join. */
  lemma VerticalTabJoins()
    ensures NormalizeSpec("a\U{B}b") == ["ab"]
  {
    DroppedCharJoinsWords('a', '\U{B}', 'b');
  }

  lemma StripKeepsAll(s: string)
    requires |s| == 3 && IsKept(s[0]) && IsKept(s[1]) && IsKept(s[2])
    ensures Strip(s) == s
  {
  }

  /** One separator between two other characters becomes a plain space. */
  lemma CollapseOneSpace(x: char, c: char, y: char)
    requires !IsRegexSpace(x) && IsRegexSpace(c) && !IsRegexSpace(y)
    ensures Collapse([x, c, y]) == [x, ' ', y]
  {
    CollapseSpaceThenChar(c, y);
    CollapseKeepsFirst(x, [c, y]);
    assert [x] + [c, y] == [x, c, y];
  }

  lemma CollapseKeepsFirst(x: char, t: string)
    requires !IsRegexSpace(x)
    ensures Collapse([x] + t) == [x] + Collapse(t)
  {
    assert ([x] + t)[1..] == t;
  }

  lemma CollapseSpaceThenChar(c: char, y: char)
    requires IsRegexSpace(c) && !IsRegexSpace(y)
    ensures Collapse([c, y]) == [' ', y]
  {
    assert [c, y][1..] == [y];
    assert DropSpaces([y]) == [y];
    assert DropSpaces([c, y]) == [y];
    CollapseOneChar(y);
  }

  lemma CollapseOneChar(y: char)
    requires !IsRegexSpace(y)
    ensures Collapse([y]) == [y]
  {
    assert [y][1..] == [];
  }

  /** A letter, a character that is neither upper-case nor an apostrophe and
    * a letter reach the clean-up unchanged. */
  lemma LettersAroundPlain(x: char, c: char, y: char)
    requires IsLowerLetter(x) && !IsUpper(c) && c != '\'' && IsLowerLetter(y)
    ensures Cleaned([x, c, y]) == CleanUp([x, c, y])
  {
    ShortTextUnchanged([x, c, y]);
    PlainLowerText([x, c, y]);
  }

  /** Three characters, lower-case letters at both ends, pass lower-casing and trimming. */
  lemma ShortTextUnchanged(s: string)
    requires |s| == 3 && IsLowerLetter(s[0]) && IsLowerLetter(s[2]) && !IsUpper(s[1])
    ensures Lower(s) == s && Trim(s) == s
  {
    assert Lower(s) == s;
    TrimBetweenLetters(s);
  }

  lemma TrimBetweenLetters(s: string)
    requires |s| >= 1 && IsLowerLetter(s[0]) && IsLowerLetter(s[|s| - 1])
    ensures Trim(s) == s
  {
    assert TrimStart(s) == s;
  }

  /** Trimmed lower-case text without an apostrophe reaches the clean-up unchanged. */
  lemma PlainLowerText(s: string)
    requires Lower(s) == s && Trim(s) == s
    requires forall i :: 0 <= i < |s| ==> s[i] != '\''
    ensures Cleaned(s) == CleanUp(s)
  {
    ContractionsWellFormed();
    ExpandAllNoApostrophe(s, Contractions);
  }

  lemma {:induction false} SplitPrefix(w: string, s: string)
    requires forall i :: 0 <= i < |w| ==> w[i] != ' '
    ensures Split(w + s) == [w + Split(s)[0]] + Split(s)[1..]
    decreases |w|
  {
    if w == [] {
      assert w + s == s && w + Split(s)[0] == Split(s)[0];
      assert Split(s) == [Split(s)[0]] + Split(s)[1..];
    } else {
      SplitPrefix(w[1..], s);
      var r := Split(w[1..] + s);
      assert (w + s)[0] == w[0] && (w + s)[1..] == w[1..] + s;
      assert Split(w + s) == [[w[0]] + r[0]] + r[1..];
      assert r[0] == w[1..] + Split(s)[0];
      assert [w[0]] + (w[1..] + Split(s)[0]) == w + Split(s)[0];
    }
  }

  /** Splitting space-joined words without spaces gives the words back. */
  lemma {:induction false} SplitJoin(ws: seq<string>)
    requires |ws| >= 1
    requires forall k, i :: 0 <= k < |ws| && 0 <= i < |ws[k]| ==> ws[k][i] != ' '
    ensures Split(Join(ws, " ")) == ws
    decreases |ws|
  {
    if |ws| == 1 {
      SplitPrefix(ws[0], []);
      assert ws[0] + [] == ws[0];
    } else {
      SplitJoin(ws[1..]);
      assert Join(ws, " ") == ws[0] + " " + Join(ws[1..], " ");
      SplitJoinCons(ws[0], ws[1..], Join(ws[1..], " "));
      assert ws == [ws[0]] + ws[1..];
    }
  }

  /** One more word in front of a space-joined text that splits back. */
  lemma SplitJoinCons(w: string, ws: seq<string>, rest: string)
    requires forall i :: 0 <= i < |w| ==> w[i] != ' '
    requires Split(rest) == ws
    ensures Split(w + " " + rest) == [w] + ws
  {
    SplitPrefix(w, " " + rest);
    assert (" " + rest)[0] == ' ' && (" " + rest)[1..] == rest;
    var sp := Split(" " + rest);
    assert sp == [[]] + ws;
    assert sp[0] == [] && sp[1..] == ws;
    assert w + sp[0] == w;
    assert w + " " + rest == w + (" " + rest);
  }
}
