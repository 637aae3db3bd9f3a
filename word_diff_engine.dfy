// Word-level comparison of a target sentence with recognised speech
// (domain/speech/WordDiffEngine.kt): a longest-common-subsequence table over
// the two token lists, and a backtrack from its corner that labels each token
// MATCH, MISSING or EXTRA.
module WordDiffEngine {
  import opened DiffResult
  import TextNormalizer

  function Max(x: int, y: int): int { if x >= y then x else y }

  function Init<T>(s: seq<T>): seq<T>
    requires s != []
  {
    s[..|s| - 1]
  }

  function Last<T>(s: seq<T>): T
    requires s != []
  {
    s[|s| - 1]
  }

  // ---------------------------------------------------------------------------
  // Specification

  /** The recurrence the table implements: the length of a longest common
    * subsequence, computed from the last tokens. */
  function Lcs(a: seq<string>, b: seq<string>): (r: nat)
    decreases |a| + |b|
  {
    if a == [] || b == [] then 0
    else if Last(a) == Last(b) then Lcs(Init(a), Init(b)) + 1
    else Max(Lcs(Init(a), b), Lcs(a, Init(b)))
  }

  /** One step of the backtrack from the corner (|a|, |b|): a match on equal
    * last tokens; otherwise EXTRA for the last spoken token when dropping it
    * keeps at least as long a common subsequence (or the target is used up);
    * otherwise MISSING for the last target token. The result is the entry and
    * the two lists that remain. */
  function Step(a: seq<string>, b: seq<string>): (r: (seq<string>, seq<string>, DiffWord))
    requires a != [] || b != []
    ensures r.2.status != Extra ==> r.0 + [r.2.word] == a
    ensures r.2.status == Extra ==> r.0 == a
    ensures r.2.status != Missing ==> r.1 + [r.2.word] == b
    ensures r.2.status == Missing ==> r.1 == b
    ensures |r.0| + |r.1| < |a| + |b|
  {
    if a != [] && b != [] && Last(a) == Last(b) then (Init(a), Init(b), DiffWord(Last(a), Match))
    else if b != [] && (a == [] || Lcs(a, Init(b)) >= Lcs(Init(a), b)) then (a, Init(b), DiffWord(Last(b), Extra))
    else (Init(a), b, DiffWord(Last(a), Missing))
  }

  /** What the backtrack produces, put back in reading order. */
  function Diff(a: seq<string>, b: seq<string>): seq<DiffWord>
    decreases |a| + |b|
  {
    if a == [] && b == [] then []
    else
      var (a', b', e) := Step(a, b);
      Diff(a', b') + [e]
  }

  /** c occurs in s in order, possibly with gaps (matched from the end). */
  predicate IsSubsequence(c: seq<string>, s: seq<string>)
    decreases |s|
  {
    if c == [] then true
    else if s == [] then false
    else if Last(c) == Last(s) then IsSubsequence(Init(c), Init(s))
    else IsSubsequence(c, Init(s))
  }

  /** What `compare` returns for the two token lists. */
  function CompareTokens(a: seq<string>, b: seq<string>): SpeechDiffResult {
    if a == [] && b == [] then SpeechDiffResult([], 0, 0, 0, 1.0)
    else if a == [] then SpeechDiffResult(AllWith(b, Extra), 0, 0, |b|, 0.0)
    else if b == [] then SpeechDiffResult(AllWith(a, Missing), 0, |a|, 0, 0.0)
    else
      var d := Diff(a, b);
      var m := MatchCount(d);
      SpeechDiffResult(d, m, |a|, |b|, m as real / |a| as real)
  }

  // ---------------------------------------------------------------------------
  // The engine

  /** `buildLcsTable`: dp[i, j] is the longest common subsequence length of
    * the first i target and the first j spoken tokens. */
  method BuildLcsTable(a: seq<string>, b: seq<string>) returns (dp: array2<int>)
    ensures fresh(dp)
    ensures dp.Length0 == |a| + 1 && dp.Length1 == |b| + 1
    ensures forall i, j :: 0 <= i <= |a| && 0 <= j <= |b| ==> dp[i, j] == Lcs(a[..i], b[..j])
  {
    var m, n := |a|, |b|;
    dp := new int[m + 1, n + 1]((i, j) => 0);
    forall j | 0 <= j <= n ensures dp[0, j] == Lcs(a[..0], b[..j]) {
      assert a[..0] == [];
    }
    var i := 1;
    while i <= m
      invariant 1 <= i <= m + 1
      invariant forall i', j' :: 0 <= i' < i && 0 <= j' <= n ==> dp[i', j'] == Lcs(a[..i'], b[..j'])
      invariant forall i' :: i <= i' <= m ==> dp[i', 0] == 0
    {
      assert b[..0] == [];
      var j := 1;
      while j <= n
        invariant 1 <= j <= n + 1
        invariant forall i', j' :: 0 <= i' < i && 0 <= j' <= n ==> dp[i', j'] == Lcs(a[..i'], b[..j'])
        invariant forall j' :: 0 <= j' < j ==> dp[i, j'] == Lcs(a[..i], b[..j'])
        invariant forall i' :: i < i' <= m ==> dp[i', 0] == 0
      {
        LcsOfPrefixes(a, b, i, j);
        dp[i, j] := if a[i - 1] == b[j - 1] then dp[i - 1, j - 1] + 1 else Max(dp[i - 1, j], dp[i, j - 1]);
        j := j + 1;
      }
      i := i + 1;
    }
  }

  /** One turn of `backtrackDiff`'s loop at (i, j): the entry it appends and
    * the position it moves to, which is exactly the specification's step on
    * the two prefixes. */
  method NextEntry(a: seq<string>, b: seq<string>, dp: array2<int>, i: nat, j: nat) returns (i': nat, j': nat, entry: DiffWord)
    requires dp.Length0 == |a| + 1 && dp.Length1 == |b| + 1
    requires forall i, j :: 0 <= i <= |a| && 0 <= j <= |b| ==> dp[i, j] == Lcs(a[..i], b[..j])
    requires i <= |a| && j <= |b| && (i > 0 || j > 0)
    ensures i' <= i && j' <= j
    ensures Step(a[..i], b[..j]) == (a[..i'], b[..j'], entry)
  {
    if i > 0 && j > 0 && a[i - 1] == b[j - 1] {
      assert Init(a[..i]) == a[..i - 1] && Init(b[..j]) == b[..j - 1];
      return i - 1, j - 1, DiffWord(a[i - 1], Match);
    } else if j > 0 && (i == 0 || dp[i, j - 1] >= dp[i - 1, j]) {
      assert Init(b[..j]) == b[..j - 1];
      assert i > 0 ==> Init(a[..i]) == a[..i - 1];
      return i, j - 1, DiffWord(b[j - 1], Extra);
    } else {
      assert Init(a[..i]) == a[..i - 1];
      assert j > 0 ==> Init(b[..j]) == b[..j - 1];
      return i - 1, j, DiffWord(a[i - 1], Missing);
    }
  }

  /** `backtrackDiff`: walks from (|a|, |b|) to (0, 0), appending one entry
    * per step, and reverses the list at the end. */
  method BacktrackDiff(a: seq<string>, b: seq<string>, dp: array2<int>) returns (result: seq<DiffWord>)
    requires dp.Length0 == |a| + 1 && dp.Length1 == |b| + 1
    requires forall i, j :: 0 <= i <= |a| && 0 <= j <= |b| ==> dp[i, j] == Lcs(a[..i], b[..j])
    ensures result == Diff(a, b)
  {
    var rev: seq<DiffWord> := [];
    var i, j := |a|, |b|;
    assert a[..i] == a && b[..j] == b;
    while i > 0 || j > 0
      invariant 0 <= i <= |a| && 0 <= j <= |b|
      invariant Diff(a, b) == Diff(a[..i], b[..j]) + Reversed(rev)
      decreases i + j
    {
      var i', j', entry := NextEntry(a, b, dp, i, j);
      DiffUnfold(a[..i], b[..j]);
      ReversedAppend(rev, entry);
      Regroup(Diff(a[..i'], b[..j']), entry, Reversed(rev));
      rev := rev + [entry];
      i, j := i', j';
    }
    assert a[..0] == [] && b[..0] == [];
    result := Reversed(rev);
  }

  /** Diff unfolded once. */
  lemma DiffUnfold(x: seq<string>, y: seq<string>)
    requires x != [] || y != []
    ensures Diff(x, y) == Diff(Step(x, y).0, Step(x, y).1) + [Step(x, y).2]
  {
  }

  /** `compare`: normalise both texts, handle the empty cases, otherwise
    * build the table, backtrack and count the matches. */
  method Compare(targetSentence: string, spokenText: string) returns (r: SpeechDiffResult)
    ensures r == CompareTokens(TextNormalizer.NormalizeSpec(targetSentence), TextNormalizer.NormalizeSpec(spokenText))
  {
    var targetWords := TextNormalizer.Normalize(targetSentence);
    var spokenWords := TextNormalizer.Normalize(spokenText);
    if targetWords == [] && spokenWords == [] {
      return SpeechDiffResult([], 0, 0, 0, 1.0);
    }
    if targetWords == [] {
      return SpeechDiffResult(AllWith(spokenWords, Extra), 0, 0, |spokenWords|, 0.0);
    }
    if spokenWords == [] {
      return SpeechDiffResult(AllWith(targetWords, Missing), 0, |targetWords|, 0, 0.0);
    }
    var lcsTable := BuildLcsTable(targetWords, spokenWords);
    var diffWords := BacktrackDiff(targetWords, spokenWords, lcsTable);
    var matchedCount := MatchCount(diffWords);
    r := SpeechDiffResult(diffWords, matchedCount, |targetWords|, |spokenWords|,
      matchedCount as real / |targetWords| as real);
  }

  // ---------------------------------------------------------------------------
  // Prefix and reversal steps used by the two loops

  function Reversed<T>(s: seq<T>): (r: seq<T>)
    ensures |r| == |s|
    ensures forall k :: 0 <= k < |s| ==> r[k] == s[|s| - 1 - k]
  {
    seq(|s|, k requires 0 <= k < |s| => s[|s| - 1 - k])
  }

  lemma ReversedAppend<T>(s: seq<T>, x: T)
    ensures Reversed(s + [x]) == [x] + Reversed(s)
  {
  }

  lemma LcsOfPrefixes(a: seq<string>, b: seq<string>, i: nat, j: nat)
    requires 1 <= i <= |a| && 1 <= j <= |b|
    ensures Lcs(a[..i], b[..j]) == if a[i - 1] == b[j - 1] then Lcs(a[..i - 1], b[..j - 1]) + 1
      else Max(Lcs(a[..i - 1], b[..j]), Lcs(a[..i], b[..j - 1]))
  {
    assert Init(a[..i]) == a[..i - 1] && Init(b[..j]) == b[..j - 1];
  }

  /** Moving one element across a concatenation. */
  lemma Regroup<T>(d: seq<T>, e: T, r: seq<T>)
    ensures (d + [e]) + r == d + ([e] + r)
  {
  }

  // ---------------------------------------------------------------------------
  // Properties of the specification

  /** A common subsequence is no longer than either list. */
  lemma {:induction false} LcsBounded(a: seq<string>, b: seq<string>)
    ensures Lcs(a, b) <= |a| && Lcs(a, b) <= |b|
    decreases |a| + |b|
  {
    if a != [] && b != [] {
      LcsBounded(Init(a), Init(b));
      LcsBounded(Init(a), b);
      LcsBounded(a, Init(b));
    }
  }

  lemma AppendEntry(ds: seq<DiffWord>, d: DiffWord)
    ensures TargetWords(ds + [d]) == TargetWords(ds) + (if d.status != Extra then [d.word] else [])
    ensures SpokenWords(ds + [d]) == SpokenWords(ds) + (if d.status != Missing then [d.word] else [])
    ensures MatchedWords(ds + [d]) == MatchedWords(ds) + (if d.status == Match then [d.word] else [])
    ensures MatchCount(ds + [d]) == MatchCount(ds) + (if d.status == Match then 1 else 0)
  {
    assert (ds + [d])[..|ds|] == ds;
  }

  /** A step keeps the longest common subsequence length, less one for a
    * match. */
  lemma StepLcs(a: seq<string>, b: seq<string>)
    requires a != [] || b != []
    ensures Lcs(a, b) == Lcs(Step(a, b).0, Step(a, b).1) + (if Step(a, b).2.status == Match then 1 else 0)
  {
    if a == [] {
      assert Lcs(a, Init(b)) == 0;
    } else if b == [] {
      assert Lcs(Init(a), b) == 0;
    }
  }

  /** Deleting the EXTRA entries gives back the target tokens, and deleting the
    * MISSING entries gives back the spoken tokens. */
  lemma {:induction false} DiffProjections(a: seq<string>, b: seq<string>)
    ensures TargetWords(Diff(a, b)) == a
    ensures SpokenWords(Diff(a, b)) == b
    decreases |a| + |b|
  {
    if a != [] || b != [] {
      var (a', b', e) := Step(a, b);
      DiffProjections(a', b');
      AppendEntry(Diff(a', b'), e);
    }
  }

  /** The backtrack finds exactly Lcs(a, b) matches, so the diff has one
    * entry per token except that a match stands for two. */
  lemma {:induction false} DiffCounts(a: seq<string>, b: seq<string>)
    ensures MatchCount(Diff(a, b)) == Lcs(a, b)
    ensures |MatchedWords(Diff(a, b))| == Lcs(a, b)
    ensures |Diff(a, b)| == |a| + |b| - Lcs(a, b)
    decreases |a| + |b|
  {
    if a != [] || b != [] {
      var (a', b', e) := Step(a, b);
      DiffCounts(a', b');
      AppendEntry(Diff(a', b'), e);
      StepLcs(a, b);
    }
  }

  lemma {:induction false} SubsequenceDropLast(c: seq<string>, s: seq<string>)
    requires c != [] && IsSubsequence(c, s)
    ensures IsSubsequence(Init(c), s)
    decreases |c| + |s|, 0
  {
    if Last(c) == Last(s) {
      SubsequenceAppend(Init(c), Init(s), Last(s));
      assert Init(s) + [Last(s)] == s;
    } else {
      SubsequenceDropLast(c, Init(s));
      SubsequenceAppend(Init(c), Init(s), Last(s));
      assert Init(s) + [Last(s)] == s;
    }
  }

  /** A subsequence of s is a subsequence of any extension of s. */
  lemma {:induction false} SubsequenceAppend(c: seq<string>, s: seq<string>, x: string)
    requires IsSubsequence(c, s)
    ensures IsSubsequence(c, s + [x])
    decreases |c| + |s|, 1
  {
    assert Init(s + [x]) == s && Last(s + [x]) == x;
    if c != [] && Last(c) == x {
      SubsequenceDropLast(c, s);
    }
  }

  /** The MATCH entries spell a subsequence of the target. */
  lemma {:induction false} MatchesInTarget(a: seq<string>, b: seq<string>)
    ensures IsSubsequence(MatchedWords(Diff(a, b)), a)
    decreases |a| + |b|
  {
    if a != [] || b != [] {
      var (a', b', e) := Step(a, b);
      var d := Diff(a', b');
      MatchesInTarget(a', b');
      AppendEntry(d, e);
      assert Diff(a, b) == d + [e];
      var m := MatchedWords(d);
      if e.status == Match {
        assert a' + [e.word] == a;
        SubsequenceExtend(m, a', e.word);
        assert MatchedWords(Diff(a, b)) == m + [e.word];
      } else if e.status == Extra {
        assert a' == a;
        assert MatchedWords(Diff(a, b)) == m;
      } else {
        assert a' + [e.word] == a;
        SubsequenceAppend(m, a', e.word);
        assert MatchedWords(Diff(a, b)) == m;
      }
    }
  }

  /** The MATCH entries spell a subsequence of the spoken tokens. */
  lemma {:induction false} MatchesInSpoken(a: seq<string>, b: seq<string>)
    ensures IsSubsequence(MatchedWords(Diff(a, b)), b)
    decreases |a| + |b|
  {
    if a != [] || b != [] {
      var (a', b', e) := Step(a, b);
      var d := Diff(a', b');
      MatchesInSpoken(a', b');
      AppendEntry(d, e);
      assert Diff(a, b) == d + [e];
      var m := MatchedWords(d);
      if e.status == Match {
        assert b' + [e.word] == b;
        SubsequenceExtend(m, b', e.word);
        assert MatchedWords(Diff(a, b)) == m + [e.word];
      } else if e.status == Missing {
        assert b' == b;
        assert MatchedWords(Diff(a, b)) == m;
      } else {
        assert b' + [e.word] == b;
        SubsequenceAppend(m, b', e.word);
        assert MatchedWords(Diff(a, b)) == m;
      }
    }
  }

  /** No common subsequence is longer than Lcs(a, b). */
  lemma {:induction false} LcsIsLongest(a: seq<string>, b: seq<string>, c: seq<string>)
    requires IsSubsequence(c, a) && IsSubsequence(c, b)
    ensures |c| <= Lcs(a, b)
    decreases |a| + |b|
  {
    if c != [] {
      if Last(a) == Last(b) {
        if Last(c) == Last(a) {
          LcsIsLongest(Init(a), Init(b), Init(c));
        } else {
          LcsIsLongest(Init(a), Init(b), c);
        }
      } else if Last(c) != Last(a) {
        LcsIsLongest(Init(a), b, c);
      } else {
        LcsIsLongest(a, Init(b), c);
      }
    }
  }

  /** Lcs(a, b) is the length of a longest common subsequence. */
  lemma LcsIsLongestCommon(a: seq<string>, b: seq<string>)
    ensures IsSubsequence(MatchedWords(Diff(a, b)), a) && IsSubsequence(MatchedWords(Diff(a, b)), b)
    ensures |MatchedWords(Diff(a, b))| == Lcs(a, b)
    ensures forall c :: IsSubsequence(c, a) && IsSubsequence(c, b) ==> |c| <= Lcs(a, b)
  {
    MatchesInTarget(a, b);
    MatchesInSpoken(a, b);
    DiffCounts(a, b);
    forall c | IsSubsequence(c, a) && IsSubsequence(c, b) ensures |c| <= Lcs(a, b) {
      LcsIsLongest(a, b, c);
    }
  }

  lemma AllWithLast(words: seq<string>, s: WordStatus)
    requires words != []
    ensures AllWith(words, s) == AllWith(Init(words), s) + [DiffWord(Last(words), s)]
  {
  }

  lemma {:induction false} DiffWithEmptyTarget(b: seq<string>)
    ensures Diff([], b) == AllWith(b, Extra)
    decreases |b|
  {
    if b != [] {
      DiffWithEmptyTarget(Init(b));
      assert Step([], b) == ([], Init(b), DiffWord(Last(b), Extra));
      DiffUnfold([], b);
      AllWithLast(b, Extra);
    }
  }

  lemma {:induction false} DiffWithEmptySpoken(a: seq<string>)
    ensures Diff(a, []) == AllWith(a, Missing)
    decreases |a|
  {
    if a != [] {
      DiffWithEmptySpoken(Init(a));
      assert Step(a, []) == (Init(a), [], DiffWord(Last(a), Missing));
      DiffUnfold(a, []);
      AllWithLast(a, Missing);
    }
  }

  /** The early returns of `compare` agree with the table and backtrack, so
    * every result has the shape of the general case. */
  lemma CompareIsDiff(a: seq<string>, b: seq<string>)
    ensures CompareTokens(a, b).diffWords == Diff(a, b)
    ensures CompareTokens(a, b).matchedCount == Lcs(a, b) == MatchCount(Diff(a, b))
    ensures CompareTokens(a, b).targetWordCount == |a|
    ensures CompareTokens(a, b).spokenWordCount == |b|
  {
    DiffWithEmptyTarget(b);
    DiffWithEmptySpoken(a);
    DiffCounts(a, b);
  }

  lemma RatioInUnit(m: nat, n: nat)
    requires 0 < n && m <= n
    ensures 0.0 <= m as real / n as real <= 1.0
  {
  }

  /** Accuracy is matched/target in [0, 1]: 1 when both are empty and 0 when
    * only the target is. */
  lemma CompareAccuracy(a: seq<string>, b: seq<string>)
    ensures 0.0 <= CompareTokens(a, b).accuracy <= 1.0
    ensures a == [] ==> CompareTokens(a, b).accuracy == if b == [] then 1.0 else 0.0
    ensures a != [] ==> CompareTokens(a, b).accuracy == Lcs(a, b) as real / |a| as real
  {
    CompareIsDiff(a, b);
    LcsBounded(a, b);
    if a != [] {
      var m := Lcs(a, b);
      RatioInUnit(m, |a|);
      if b == [] {
        assert m == 0;
        ZeroRatio(|a|);
      } else {
        assert CompareTokens(a, b).accuracy == MatchCount(Diff(a, b)) as real / |a| as real;
      }
    }
  }

  lemma ZeroRatio(n: nat)
    requires 0 < n
    ensures 0 as real / n as real == 0.0
  {
  }

  /** Identical token lists give only MATCH entries. */
  lemma {:induction false} IdenticalAllMatch(a: seq<string>)
    ensures Diff(a, a) == AllWith(a, Match)
    decreases |a|
  {
    if a != [] {
      IdenticalAllMatch(Init(a));
      assert Step(a, a) == (Init(a), Init(a), DiffWord(Last(a), Match));
      assert AllWith(a, Match) == AllWith(Init(a), Match) + [DiffWord(Last(a), Match)];
    }
  }

  lemma {:induction false} LcsOfIdentical(a: seq<string>)
    ensures Lcs(a, a) == |a|
    decreases |a|
  {
    if a != [] {
      LcsOfIdentical(Init(a));
    }
  }

  /** ... and accuracy 1. */
  lemma IdenticalAccuracy(a: seq<string>)
    ensures CompareTokens(a, a).accuracy == 1.0
  {
    CompareAccuracy(a, a);
    LcsOfIdentical(a);
    if a != [] {
      RatioOfSelf(|a|);
    }
  }

  lemma RatioOfSelf(n: nat)
    requires 0 < n
    ensures n as real / n as real == 1.0
  {
  }

  lemma {:induction false} SubsequenceOfItself(s: seq<string>)
    ensures IsSubsequence(s, s)
    decreases |s|
  {
    if s != [] {
      SubsequenceOfItself(Init(s));
    }
  }

  /** A common last token extends a subsequence. */
  lemma SubsequenceExtend(c: seq<string>, s: seq<string>, x: string)
    requires IsSubsequence(c, s)
    ensures IsSubsequence(c + [x], s + [x])
  {
    assert Init(c + [x]) == c && Init(s + [x]) == s;
  }

  /** "one two three four five" against "one two four": 3 of 5 tokens match,
    * accuracy 0.6. */
  lemma ThreeOfFive(a: seq<string>, b: seq<string>)
    requires a == ["one", "two", "three", "four", "five"] && b == ["one", "two", "four"]
    ensures CompareTokens(a, b).matchedCount == 3
    ensures CompareTokens(a, b).accuracy == 0.6
  {
    var ab: seq<string> := ["one", "two"];
    SubsequenceOfItself(ab);
    SubsequenceAppend(ab, ab, "three");
    SubsequenceExtend(ab, ab + ["three"], "four");
    SubsequenceAppend(ab + ["four"], ab + ["three"] + ["four"], "five");
    assert ab + ["four"] == b && ab + ["three"] + ["four"] + ["five"] == a;
    SubsequenceOfItself(b);
    LcsIsLongest(a, b, b);
    LcsBounded(a, b);
    CompareIsDiff(a, b);
  }
}
