/** Standalone words (core_engine/src/agent.rs, `has_word`): a scan that skips overlapping occurrences,
    and the words for which that loses nothing. */
module WordMatch {
  import opened Wrappers
  import opened Text

  predicate IsAlphanumeric(c: char) {
    '0' <= c <= '9' || 'A' <= c <= 'Z' || 'a' <= c <= 'z'
  }

  predicate StandsAloneAt(text: string, word: string, i: int) {
    && OccursAt(text, word, i)
    && (i == 0 || !IsAlphanumeric(text[i - 1]))
    && (i + |word| == |text| || !IsAlphanumeric(text[i + |word|]))
  }

  predicate StandsAlone(text: string, word: string) {
    exists i :: 0 <= i <= |text| && StandsAloneAt(text, word, i)
  }

  /** Whether the scan that goes on at `from` finds a standalone occurrence. */
  predicate ScanFinds(text: string, word: string, from: nat)
    requires word != "" && from <= |text|
    decreases |text| - from
  {
    match FindFrom(text, word, from)
    case None => false
    case Some(i) => StandsAloneAt(text, word, i) || ScanFinds(text, word, i + |word|)
  }

  method HasWord(text: string, word: string) returns (found: bool)
    requires word != ""
    ensures found == ScanFinds(text, word, 0)
  {
    var from := 0;
    while true
      invariant from <= |text|
      invariant ScanFinds(text, word, 0) == ScanFinds(text, word, from)
      decreases |text| - from
    {
      var next := FindFrom(text, word, from);
      if next.None? {
        return false;
      }
      var idx := next.value;
      var beforeOk := idx == 0 || !IsAlphanumeric(text[idx - 1]);
      var afterIdx := idx + |word|;
      var afterOk := afterIdx >= |text| || !IsAlphanumeric(text[afterIdx]);
      if beforeOk && afterOk {
        return true;
      }
      from := afterIdx;
    }
    found := false;
  }

  // ---- when nothing is lost ----

  /** Shifted by `d` the word agrees with itself. */
  predicate IsPeriod(word: string, d: int) {
    1 <= d < |word| && word[d..] == word[..|word| - d]
  }

  /** An occurrence that overlaps an earlier one comes right after a letter or digit. */
  predicate OverlapsInsideWords(word: string) {
    forall d :: 1 <= d < |word| && IsPeriod(word, d) ==> IsAlphanumeric(word[d - 1])
  }

  lemma OverlapIsPeriod(text: string, word: string, i: int, j: int)
    requires OccursAt(text, word, i) && OccursAt(text, word, j) && i < j < i + |word|
    ensures IsPeriod(word, j - i) && text[j - 1] == word[j - i - 1]
  {
    var d := j - i;
    forall k | 0 <= k < |word| - d ensures word[d + k] == word[k] {
      assert word[d + k] == text[i..i + |word|][d + k] && word[k] == text[j..j + |word|][k];
    }
    assert word[d - 1] == text[i..i + |word|][d - 1];
  }

  lemma {:induction false} ScanSkipsNothing(text: string, word: string, from: nat)
    requires word != "" && from <= |text| && OverlapsInsideWords(word)
    ensures ScanFinds(text, word, from) <==> exists i :: from <= i <= |text| && StandsAloneAt(text, word, i)
    decreases |text| - from
  {
    match FindFrom(text, word, from)
    case None =>
    case Some(i) =>
      if !StandsAloneAt(text, word, i) {
        ScanSkipsNothing(text, word, i + |word|);
        forall j | from <= j < i + |word| && StandsAloneAt(text, word, j) ensures false {
          assert i < j;
          OverlapIsPeriod(text, word, i, j);
        }
      }
  }

  /** A text in which the scan overlooks a standalone word. */
  function Overlooked(word: string, d: nat): string
    requires IsPeriod(word, d)
  {
    [if word[0] == 'x' then 'y' else 'x'] + word[..d] + word
  }

  lemma OverlookedOccurrences(word: string, d: nat)
    requires IsPeriod(word, d)
    ensures var text := Overlooked(word, d);
            && !OccursAt(text, word, 0) && OccursAt(text, word, 1)
            && OccursAt(text, word, 1 + d) && |text| == 1 + d + |word| && text[d] == word[d - 1]
  {
    var text := Overlooked(word, d);
    assert text[0] != word[0];
    assert text[1 + d..1 + d + |word|] == word;
    assert text[1..1 + |word|] == word by {
      forall k | 0 <= k < |word| ensures text[1 + k] == word[k] {
        if k >= d {
          assert word[d..][k - d] == word[..|word| - d][k - d];
        }
      }
    }
  }

  lemma ScanOverlooks(word: string, d: nat)
    requires IsPeriod(word, d) && !IsAlphanumeric(word[d - 1])
    ensures StandsAlone(Overlooked(word, d), word) && !ScanFinds(Overlooked(word, d), word, 0)
  {
    var text := Overlooked(word, d);
    OverlookedOccurrences(word, d);
    assert StandsAloneAt(text, word, 1 + d);
    assert !StandsAloneAt(text, word, 1);
    assert FindFrom(text, word, 0) == Some(1);
    var rest := FindFrom(text, word, 1 + |word|);
    assert rest.None?;
  }

  /** The scan is exact on every text just if overlapping occurrences lie inside words. */
  lemma ScanIsExactIff(word: string)
    requires word != ""
    ensures (forall text: string :: ScanFinds(text, word, 0) <==> StandsAlone(text, word)) <==> OverlapsInsideWords(word)
  {
    if OverlapsInsideWords(word) {
      forall text: string ensures ScanFinds(text, word, 0) <==> StandsAlone(text, word) {
        ScanSkipsNothing(text, word, 0);
      }
    } else {
      var d: nat :| IsPeriod(word, d) && !IsAlphanumeric(word[d - 1]);
      ScanOverlooks(word, d);
    }
  }

  predicate AllAlphanumeric(word: string) {
    forall i :: 0 <= i < |word| ==> IsAlphanumeric(word[i])
  }

  predicate FirstDoesNotRecur(word: string) {
    forall i :: 1 <= i < |word| ==> word[i] != word[0]
  }

  /** Words of letters and digits, and words whose first character does not recur. */
  lemma PlainWordsAreExact(word: string)
    requires AllAlphanumeric(word) || FirstDoesNotRecur(word)
    ensures OverlapsInsideWords(word)
  {
    forall d | IsPeriod(word, d) ensures IsAlphanumeric(word[d - 1]) {
      assert word[d] == word[d..][0] == word[..|word| - d][0] == word[0];
    }
  }
}
