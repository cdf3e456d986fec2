/** Word counting and the word-limit colour bands of the message composer. */
module WordCounter {
  import opened Strings

  /** The limit both helpers use when the caller gives none. */
  const DefaultLimit: int := 200

  /** `s.split(/\s+/)`: the pieces between the leftmost, longest whitespace runs.
      Like JavaScript, a leading or trailing run yields an empty piece. */
  function SplitOnSpaceRuns(s: string): (r: seq<string>)
    ensures |r| >= 1
    decreases |s|
  {
    var w := LeadingNonSpaces(s);
    if w == |s| then [s]
    else
      var rest := s[w..];
      [s[..w]] + SplitOnSpaceRuns(rest[LeadingSpaces(rest)..])
  }

  /** `countWords`: 0 for empty or blank text, else the number of pieces of
      the trimmed text split on whitespace runs. */
  function CountWords(text: string): nat {
    var t := Trim(text);
    if t == [] then 0 else |SplitOnSpaceRuns(t)|
  }

  /** Position `i` begins a maximal run of non-whitespace characters. */
  predicate StartsRun(s: string, i: nat)
    requires i < |s|
  {
    !IsSpace(s[i]) && (i == 0 || IsSpace(s[i - 1]))
  }

  /** Reference count of words: the number of positions that begin a maximal
      non-whitespace run. */
  function Runs(s: string): nat {
    if s == [] then 0 else Runs(s[..|s| - 1]) + (if StartsRun(s, |s| - 1) then 1 else 0)
  }

  /** Two texts glued together lose one word exactly when a word straddles the seam. */
  lemma {:induction false} RunsConcat(a: string, b: string)
    ensures Runs(a + b) == Runs(a) + Runs(b)
      - (if a != [] && b != [] && !IsSpace(a[|a| - 1]) && !IsSpace(b[0]) then 1 else 0)
  {
    if b == [] {
      assert a + b == a;
    } else {
      var b' := b[..|b| - 1];
      assert (a + b)[..|a + b| - 1] == a + b';
      RunsConcat(a, b');
      if b' == [] {
        assert a + b' == a;
      } else {
        assert b'[0] == b[0];
      }
    }
  }

  lemma {:induction false} RunsOfSpaces(s: string)
    requires AllSpace(s)
    ensures Runs(s) == 0
  {
    if s != [] {
      assert AllSpace(s[..|s| - 1]);
      RunsOfSpaces(s[..|s| - 1]);
    }
  }

  lemma {:induction false} RunsOfWord(w: string)
    requires w != [] && forall i :: 0 <= i < |w| ==> !IsSpace(w[i])
    ensures Runs(w) == 1
  {
    if |w| > 1 {
      RunsOfWord(w[..|w| - 1]);
    }
  }

  /** A text without whitespace at either end has the words of any text that
      pads it with whitespace. */
  lemma RunsOfPadded(lead: string, t: string, trail: string)
    requires AllSpace(lead) && AllSpace(trail)
    ensures Runs(lead + t + trail) == Runs(t)
  {
    RunsOfSpaces(lead);
    RunsOfSpaces(trail);
    RunsConcat(t, trail);
    RunsConcat(lead, t + trail);
    assert lead + t + trail == lead + (t + trail);
    if t + trail != [] && lead != [] {
      assert IsSpace(lead[|lead| - 1]);
    }
    if t != [] && trail != [] {
      assert IsSpace(trail[0]);
    }
  }

  /** A text that opens with a word followed by whitespace has that word
      and the words after it. */
  lemma RunsAfterWord(t: string, w: nat)
    requires 0 < w < |t| && IsSpace(t[w]) && forall i :: 0 <= i < w ==> !IsSpace(t[i])
    ensures Runs(t) == 1 + Runs(t[w..])
  {
    var word := t[..w];
    assert forall i :: 0 <= i < |word| ==> word[i] == t[i];
    RunsOfWord(word);
    assert t == word + t[w..];
    RunsConcat(word, t[w..]);
  }

  /** Leading whitespace holds no word. */
  lemma RunsAfterSpaces(rest: string, k: nat)
    requires k <= |rest| && forall i :: 0 <= i < k ==> IsSpace(rest[i])
    ensures Runs(rest) == Runs(rest[k..])
  {
    SpacePrefix(rest, k);
    RunsOfSpaces(rest[..k]);
    assert rest == rest[..k] + rest[k..];
    RunsConcat(rest[..k], rest[k..]);
    if k > 0 {
      assert IsSpace(rest[..k][k - 1]);
    }
  }

  /** Splitting a text that does not begin with whitespace yields one piece per
      word, plus one empty piece when the text is empty or ends in whitespace. */
  lemma {:induction false} SplitCountsRuns(t: string)
    requires t == [] || !IsSpace(t[0])
    ensures |SplitOnSpaceRuns(t)| == Runs(t) + (if t == [] || IsSpace(t[|t| - 1]) then 1 else 0)
    decreases |t|
  {
    var w := LeadingNonSpaces(t);
    if w == |t| {
      if t != [] { RunsOfWord(t); }
    } else {
      var rest := t[w..];
      var k := LeadingSpaces(rest);
      var u := rest[k..];
      assert |SplitOnSpaceRuns(t)| == 1 + |SplitOnSpaceRuns(u)|;
      SplitCountsRuns(u);
      assert w > 0;
      RunsAfterWord(t, w);
      RunsAfterSpaces(rest, k);
      if u != [] {
        assert t[|t| - 1] == u[|u| - 1];
      } else {
        assert k > 0 && t[|t| - 1] == rest[k - 1];
      }
    }
  }

  /** `countWords` counts exactly the maximal non-whitespace runs of its input. */
  lemma CountWordsIsRuns(text: string)
    ensures CountWords(text) == Runs(text)
  {
    var t := Trim(text);
    var k := LeadingSpaces(text);
    TrimIsPadded(text);
    RunsOfPadded(text[..k], t, text[k + |t|..]);
    if t != [] {
      SplitCountsRuns(t);
    }
  }

  /** Blank text, and only blank text, has no words. */
  lemma CountWordsZeroIffBlank(text: string)
    ensures CountWords(text) == 0 <==> AllSpace(text)
  {
    TrimEmptyIffAllSpace(text);
    if Trim(text) != [] {
      assert |SplitOnSpaceRuns(Trim(text))| >= 1;
    }
  }

  /** Adding or removing whitespace at either end leaves the count unchanged. */
  lemma CountWordsPadInvariant(lead: string, text: string, trail: string)
    requires AllSpace(lead) && AllSpace(trail)
    ensures CountWords(lead + text + trail) == CountWords(text)
  {
    CountWordsIsRuns(lead + text + trail);
    CountWordsIsRuns(text);
    RunsOfPadded(lead, text, trail);
  }

  /** In particular, trimming leaves the count unchanged. */
  lemma CountWordsTrimInvariant(text: string)
    ensures CountWords(Trim(text)) == CountWords(text)
  {
    var t := Trim(text);
    var k := LeadingSpaces(text);
    TrimIsPadded(text);
    CountWordsPadInvariant(text[..k], t, text[k + |t|..]);
  }

  /** Internal whitespace runs collapse: two words surrounded by blanks count two. */
  lemma CountWordsExample()
    ensures CountWords("  a   b ") == 2
  {
    var lead, a, gap, b, trail := "  ", "a", "   ", "b", " ";
    assert AllSpace(lead) && AllSpace(gap) && AllSpace(trail);
    assert !IsSpace(a[0]) && !IsSpace(b[0]);
    RunsOfWord(a);
    RunsOfWord(b);
    RunsOfSpaces(gap);
    RunsConcat(gap, b);
    RunsConcat(a, gap + b);
    RunsOfPadded(lead, a + (gap + b), trail);
    assert "  a   b " == lead + (a + (gap + b)) + trail;
    CountWordsIsRuns("  a   b ");
  }

  /** `isOverWordLimit`: the text has more words than the limit. */
  function IsOverWordLimit(text: string, limit: int := DefaultLimit): (r: bool)
    ensures r <==> Runs(text) > limit
  {
    CountWordsIsRuns(text);
    CountWords(text) > limit
  }

  datatype Color = Green | Orange | Red

  datatype WordCountStatus = WordCountStatus(color: Color, isOverLimit: bool)

  /** `getWordCountStatus`. The source compares the floating percentage
      `count / limit * 100` with 90 and 100; here the same comparisons are made
      exactly on integers (`10 * count` against `9 * limit`, `count` against
      `limit`). For `limit <= 0` they agree with the source's `NaN` and
      `Infinity` outcomes as well, so no precondition is needed. The orange test
      comes first, so a count exactly at the limit is green. */
  function GetWordCountStatus(count: nat, limit: int := DefaultLimit): (st: WordCountStatus)
    ensures st.isOverLimit <==> count > limit
    ensures st.color == Red <==> st.isOverLimit
    ensures st.color == Orange <==> 9 * limit <= 10 * count < 10 * limit
    ensures st.color == Green <==> 10 * count < 9 * limit || count == limit
  {
    var isOverLimit := count > limit;
    var atLeastNinetyPercent := 10 * count >= 9 * limit;
    var belowHundredPercent := count < limit;
    var color :=
      if atLeastNinetyPercent && belowHundredPercent then Orange
      else if isOverLimit then Red
      else Green;
    WordCountStatus(color, isOverLimit)
  }
}
