/** The vowel-run syllable heuristic of `count_syllables` (main.py:43-56). */
module SyllableCounter {
  import opened Chars

  /** Position `i` of `w` begins a group of vowels: it is a vowel and either it
      is the first character or the character before it is not a vowel. */
  predicate IsRunStart(w: string, i: nat)
    requires i < |w|
    ensures IsRunStart(w, i) ==> IsVowel(w[i])
    ensures IsRunStart(w, i) && i > 0 ==> !IsVowel(w[i - 1])
  {
    IsVowel(w[i]) && (i == 0 || !IsVowel(w[i - 1]))
  }

  /** How many positions of `w` begin a group of vowels, counted over the
      prefixes of `w` in the order the counting loop visits them. */
  function RunStarts(w: string): (n: nat)
  {
    if |w| == 0 then 0
    else RunStarts(w[..|w| - 1]) + (if IsRunStart(w, |w| - 1) then 1 else 0)
  }

  /** Length of the group of vowels that ends `w` (0 when `w` ends in a consonant). */
  function TrailingVowels(w: string): (k: nat)
    ensures k <= |w|
    ensures forall i :: |w| - k <= i < |w| ==> IsVowel(w[i])
    ensures k < |w| ==> !IsVowel(w[|w| - 1 - k])
  {
    if |w| == 0 || !IsVowel(w[|w| - 1]) then 0
    else 1 + TrailingVowels(w[..|w| - 1])
  }

  /** Reference definition: the number of maximal groups of consecutive vowels
      in `w`, obtained by peeling off the last whole group one at a time. */
  function Runs(w: string): (n: nat)
    decreases |w|
  {
    if |w| == 0 then 0
    else if !IsVowel(w[|w| - 1]) then Runs(w[..|w| - 1])
    else 1 + Runs(w[..|w| - TrailingVowels(w)])
  }

  /** Whether the word ends in "es" or in "ed" (main.py:52). Both suffixes
      put the vowel 'e' second to last. */
  predicate HasSilentSuffix(w: string)
    ensures HasSilentSuffix(w) ==> |w| >= 2 && w[|w| - 2] == 'e' && IsVowel(w[|w| - 2])
  {
    EndsWith(w, "es") || EndsWith(w, "ed")
  }

  /** The value `count_syllables` returns, as a function of its argument:
      count of vowel-group starts in the lower-cased word, minus one for a
      silent suffix, with a result of 0 replaced by 1. Every word gets at
      least one and at most |word| syllables: the silent-suffix decrement
      never takes the count below zero, because both suffixes contain the
      vowel 'e', so the `== 0` test acts as a minimum of 1. */
  function Syllables(word: string): (n: nat)
    requires |word| > 0
    ensures 1 <= n <= |word|
  {
    var w := Lower(word);
    RunStartsAtMostLength(w);
    SilentSuffixStartsGroup(w);
    var c := RunStarts(w) - (if HasSilentSuffix(w) then 1 else 0);
    if c == 0 then 1 else c
  }

  /** A word with a silent suffix has a vowel group, so the decrement leaves
      a non-negative count. */
  lemma SilentSuffixStartsGroup(w: string)
    ensures HasSilentSuffix(w) ==> RunStarts(w) >= 1
  {
    if HasSilentSuffix(w) {
      VowelGivesRunStart(w, |w| - 2);
    }
  }

  // ---------------------------------------------------------------------------
  // Properties of the vowel-group count

  /** Taking one more character for the counting loop adds exactly the
      contribution of that character. */
  lemma RunStartsStep(w: string, i: nat)
    requires i < |w|
    ensures RunStarts(w[..i + 1]) == RunStarts(w[..i]) + (if IsRunStart(w, i) then 1 else 0)
  {
    var p := w[..i + 1];
    assert p[..|p| - 1] == w[..i];
    assert IsRunStart(p, i) == IsRunStart(w, i);
  }

  /** The loop's count agrees with the reference count of maximal vowel groups. */
  lemma {:induction false} RunStartsCountsRuns(w: string)
    ensures RunStarts(w) == Runs(w)
    decreases |w|
  {
    if |w| > 0 {
      var n := |w|;
      if !IsVowel(w[n - 1]) {
        RunStartsCountsRuns(w[..n - 1]);
      } else {
        TrailingGroupCountsOnce(w);
        RunStartsCountsRuns(w[..n - TrailingVowels(w)]);
      }
    }
  }

  /** The trailing group of vowels contributes exactly one start. */
  lemma {:induction false} TrailingGroupCountsOnce(w: string)
    requires |w| > 0 && IsVowel(w[|w| - 1])
    ensures RunStarts(w) == RunStarts(w[..|w| - TrailingVowels(w)]) + 1
    decreases |w|
  {
    var n := |w|;
    var u := w[..n - 1];
    if n == 1 || !IsVowel(w[n - 2]) {
      assert TrailingVowels(u) == 0;
      assert u[..|u| - 0] == u;
    } else {
      assert u[|u| - 1] == w[n - 2];
      assert !IsRunStart(w, n - 1);
      TrailingGroupCountsOnce(u);
      assert TrailingVowels(w) == 1 + TrailingVowels(u);
      assert u[..|u| - TrailingVowels(u)] == w[..n - TrailingVowels(w)];
    }
  }

  /** Each character starts at most one group, so the count is at most the length. */
  lemma {:induction false} RunStartsAtMostLength(w: string)
    ensures RunStarts(w) <= |w|
    decreases |w|
  {
    if |w| > 0 {
      RunStartsAtMostLength(w[..|w| - 1]);
    }
  }

  /** A word containing a vowel has at least one group of vowels. */
  lemma {:induction false} VowelGivesRunStart(w: string, i: nat)
    requires i < |w| && IsVowel(w[i])
    ensures RunStarts(w) >= 1
    decreases |w|
  {
    var n := |w|;
    if !IsRunStart(w, n - 1) {
      if i == n - 1 {
        // w[n-2] is then a vowel too
        VowelGivesRunStart(w[..n - 1], n - 2);
      } else {
        VowelGivesRunStart(w[..n - 1], i);
      }
    }
  }

  /** A word without vowels has no groups of vowels. */
  lemma {:induction false} NoVowelNoRunStart(w: string)
    requires forall i :: 0 <= i < |w| ==> !IsVowel(w[i])
    ensures RunStarts(w) == 0
    decreases |w|
  {
    if |w| > 0 {
      NoVowelNoRunStart(w[..|w| - 1]);
    }
  }

  // ---------------------------------------------------------------------------
  // Properties of the syllable estimate

  /** A word none of whose characters lower-cases to a vowel has exactly one syllable. */
  lemma NoVowelsOneSyllable(word: string)
    requires |word| > 0
    requires forall i :: 0 <= i < |word| ==> !IsVowel(LowerChar(word[i]))
    ensures Syllables(word) == 1
  {
    var w := Lower(word);
    NoVowelNoRunStart(w);
  }

  /** Before the suffix and minimum adjustment the count is the number of
      maximal vowel groups of the lower-cased word. */
  lemma SyllablesFromRuns(word: string)
    requires |word| > 0
    ensures var w := Lower(word);
            var c := Runs(w) - (if HasSilentSuffix(w) then 1 else 0);
            Syllables(word) == if c == 0 then 1 else c
  {
    RunStartsCountsRuns(Lower(word));
  }

  /** Concrete values of the heuristic. */
  lemma SyllablesOfThe()
    ensures Syllables("the") == 1
  {
    assert Lower("the") == "the";
    assert "the"[..2] == "th";
    assert "th"[..1] == "t";
    assert "t"[..0] == "";
  }

  lemma SyllablesOfHello()
    ensures Syllables("hello") == 2
  {
    assert Lower("hello") == "hello";
    assert "hello"[..4] == "hell";
    assert "hell"[..3] == "hel";
    assert "hel"[..2] == "he";
    assert "he"[..1] == "h";
    assert "h"[..0] == "";
  }

  lemma SyllablesOfBeautiful()
    ensures Syllables("beautiful") == 3
  {
    assert Lower("beautiful") == "beautiful";
    assert "beautiful"[..8] == "beautifu";
    assert "beautifu"[..7] == "beautif";
    assert "beautif"[..6] == "beauti";
    assert "beauti"[..5] == "beaut";
    assert "beaut"[..4] == "beau";
    assert "beau"[..3] == "bea";
    assert "bea"[..2] == "be";
    assert "be"[..1] == "b";
    assert "b"[..0] == "";
  }

  lemma SyllablesOfLikes()
    ensures Syllables("likes") == 1
  {
    assert Lower("likes") == "likes";
    assert "likes"[..4] == "like";
    assert "like"[..3] == "lik";
    assert "lik"[..2] == "li";
    assert "li"[..1] == "l";
    assert "l"[..0] == "";
    assert "likes"[3..] == "es";
  }

  lemma SyllablesOfApple()
    ensures Syllables("Apple") == 2
  {
    assert Lower("Apple") == "apple";
    assert "apple"[..4] == "appl";
    assert "appl"[..3] == "app";
    assert "app"[..2] == "ap";
    assert "ap"[..1] == "a";
    assert "a"[..0] == "";
  }

  lemma SyllablesOfLove()
    ensures Syllables("love") == 2
  {
    assert Lower("love") == "love";
    assert "love"[..3] == "lov";
    assert "lov"[..2] == "lo";
    assert "lo"[..1] == "l";
    assert "l"[..0] == "";
  }

  lemma SyllablesOfHate()
    ensures Syllables("hate") == 2
  {
    assert Lower("hate") == "hate";
    assert "hate"[..3] == "hat";
    assert "hat"[..2] == "ha";
    assert "ha"[..1] == "h";
    assert "h"[..0] == "";
  }

  // ---------------------------------------------------------------------------
  // The counting loop

  /** `count_syllables`: lower-case the word, count the first character if it
      is a vowel, then count every later vowel whose predecessor is not a
      vowel, subtract one for an "es"/"ed" ending and turn a count of 0 into 1.
      The word must be non-empty (the source reads `word[0]`). */
  method CountSyllables(word: string) returns (count: int)
    requires |word| > 0
    ensures count == Syllables(word)
    ensures 1 <= count <= |word|
  {
    var w := Lower(word);
    count := 0;
    if IsVowel(w[0]) {
      count := count + 1;
    }
    assert w[..1] == [w[0]];
    for index := 1 to |w|
      invariant count == RunStarts(w[..index])
    {
      RunStartsStep(w, index);
      if IsVowel(w[index]) && !IsVowel(w[index - 1]) {
        count := count + 1;
      }
    }
    assert w[..|w|] == w;
    if HasSilentSuffix(w) {
      count := count - 1;
    }
    if count == 0 {
      count := count + 1;
    }
  }
}
