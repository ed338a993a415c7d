/** The metric computation of `calculate_metrics` (main.py:59-101). Ratios are
    exact reals. The sentence splitter and the word tokenizer are not
    modelled: their outputs are given, and of the sentences only their number
    is used. The personal-pronoun count is given as a number. */
module MetricsEngine {
  import opened Chars
  import opened LexiconStore
  import opened Tokenizer
  import opened SyllableCounter

  /** The smoothing constant 0.000001 added to the polarity and subjectivity denominators. */
  const Epsilon: real := 0.000001

  /** The metrics record, one field per output key, in the source's key order.
      `avgSentenceLength` and `avgWordsPerSentence` are the two keys
      'Avg Sentence Length' and 'Avg Number of Words Per Sentence'. */
  datatype MetricsRecord = MetricsRecord(
    positiveScore: nat,
    negativeScore: nat,
    polarityScore: real,
    subjectivityScore: real,
    avgSentenceLength: real,
    percentageComplexWords: real,
    fogIndex: real,
    avgWordsPerSentence: real,
    complexWordCount: nat,
    wordCount: nat,
    syllablesPerWord: real,
    personalPronouns: nat,
    avgWordLength: real)

  /** The number of words that are in `s` (main.py:64-65). */
  function CountIn(words: seq<string>, s: set<string>): (n: nat)
    ensures n <= |words|
    ensures n == 0 <==> forall i :: 0 <= i < |words| ==> words[i] !in s
    ensures n == |words| <==> forall i :: 0 <= i < |words| ==> words[i] in s
    decreases |words|
  {
    if |words| == 0 then 0
    else (if words[0] in s then 1 else 0) + CountIn(words[1..], s)
  }

  /** Every word is non-empty, as the cleaned tokens are. */
  predicate AllNonEmpty(words: seq<string>) {
    forall i :: 0 <= i < |words| ==> |words[i]| > 0
  }

  /** The number of words with more than two syllables (main.py:72-73). */
  function CountComplex(words: seq<string>): (n: nat)
    requires AllNonEmpty(words)
    ensures n <= |words|
    ensures n == 0 <==> forall i :: 0 <= i < |words| ==> Syllables(words[i]) <= 2
    decreases |words|
  {
    if |words| == 0 then 0
    else (if Syllables(words[0]) > 2 then 1 else 0) + CountComplex(words[1..])
  }

  /** The total number of syllables over all words (main.py:78): at least
      one per word, at most the total length. */
  function SyllableSum(words: seq<string>): (n: nat)
    requires AllNonEmpty(words)
    ensures |words| <= n <= CharSum(words)
    decreases |words|
  {
    if |words| == 0 then 0
    else Syllables(words[0]) + SyllableSum(words[1..])
  }

  /** The total number of characters over all words (main.py:83). */
  function CharSum(words: seq<string>): (n: nat)
    ensures AllNonEmpty(words) ==> n >= |words|
    decreases |words|
  {
    if |words| == 0 then 0
    else |words[0]| + CharSum(words[1..])
  }

  /** Facts about exact division by a positive real, used by the ratio metrics. */
  lemma DivBelow(x: real, d: real, c: real)
    requires d > 0.0 && x < c * d
    ensures x / d < c
  {
    var q := x / d;
    assert q * d == x;
    assert (c - q) * d == c * d - x;
  }

  lemma DivAtMost(x: real, d: real, c: real)
    requires d > 0.0 && x <= c * d
    ensures x / d <= c
  {
    var q := x / d;
    assert q * d == x;
    assert (c - q) * d == c * d - x;
  }

  lemma DivAtLeast(x: real, d: real, c: real)
    requires d > 0.0 && c * d <= x
    ensures c <= x / d
  {
    var q := x / d;
    assert q * d == x;
    assert (q - c) * d == x - c * d;
  }

  lemma MulNonNegative(a: real, b: real)
    requires 0.0 <= a && 0.0 <= b
    ensures 0.0 <= a * b
  {
  }

  lemma DivAbove(x: real, d: real, c: real)
    requires d > 0.0 && c * d < x
    ensures c < x / d
  {
    var q := x / d;
    assert q * d == x;
    assert (q - c) * d == x - c * d;
  }

  /** Bounds of the quotient of `num` by a positive `den`. */
  lemma QuotientBounds(num: int, den: nat)
    requires den > 0
    ensures 0 <= num ==> 0.0 <= num as real / den as real <= num as real
    ensures 0 <= num <= den ==> num as real / den as real <= 1.0
    ensures den <= num ==> 1.0 <= num as real / den as real
  {
    if den <= num {
      DivAtLeast(num as real, den as real, 1.0);
    }
    if 0 <= num {
      DivAtLeast(num as real, den as real, 0.0);
      assert num as real * den as real == num as real + num as real * (den as real - 1.0);
      MulNonNegative(num as real, den as real - 1.0);
      DivAtMost(num as real, den as real, num as real);
      if num <= den {
        DivAtMost(num as real, den as real, 1.0);
      }
    }
  }

  /** Bounds of `x` divided by `w` plus Epsilon. */
  lemma SmoothedBounds(x: nat, w: nat)
    ensures 0.0 <= x as real / (w as real + Epsilon)
    ensures x as real / (w as real + Epsilon) == 0.0 <==> x == 0
    ensures x <= w ==> x as real / (w as real + Epsilon) < 1.0
    ensures x <= 2 * w ==> x as real / (w as real + Epsilon) < 2.0
  {
    var d := w as real + Epsilon;
    DivAtLeast(x as real, d, 0.0);
    if x > 0 {
      DivAbove(x as real, d, 0.0);
    }
    if x <= w {
      DivBelow(x as real, d, 1.0);
    }
    if x <= 2 * w {
      DivBelow(x as real, d, 2.0);
    }
  }

  /** Over the same positive denominator, a larger numerator gives a larger
      ratio; over any denominator, a numerator at least as large gives a ratio
      at least as large. */
  lemma RatioMonotone(a: int, b: int, den: nat)
    requires a <= b
    ensures Ratio(a, den) <= Ratio(b, den)
    ensures a < b && den > 0 ==> Ratio(a, den) < Ratio(b, den)
  {
    if den > 0 {
      DivAtMost(a as real, den as real, Ratio(b, den));
      if a < b {
        DivBelow(a as real, den as real, Ratio(b, den));
      }
    }
  }

  /** The zero-guarded average used for the ratio metrics (main.py:70, 74,
      79, 83), as an exact quotient: 0 when `den` is 0, otherwise the number
      that multiplied by `den` gives `num`; between 0 and `num` for a
      non-negative `num`, and at most 1 when `num` is at most `den`. */
  function Ratio(num: int, den: nat): (r: real)
    ensures den == 0 ==> r == 0.0
    ensures den > 0 ==> r * den as real == num as real
    ensures 0 <= num ==> 0.0 <= r
    ensures 0 <= num && den > 0 ==> r <= num as real
    ensures 0 <= num <= den ==> r <= 1.0
    ensures 0 < den <= num ==> 1.0 <= r
  {
    if den > 0 then QuotientBounds(num, den); num as real / den as real else 0.0
  }

  /** The smoothed polarity: the difference of the scores over their sum
      plus Epsilon (main.py:66). Strictly between -1 and 1, with the sign of
      the difference of the scores. */
  function Polarity(positiveScore: nat, negativeScore: nat): (r: real)
    ensures -1.0 < r < 1.0
    ensures r > 0.0 <==> positiveScore > negativeScore
    ensures r < 0.0 <==> positiveScore < negativeScore
  {
    var x := (positiveScore - negativeScore) as real;
    var d := (positiveScore + negativeScore) as real + Epsilon;
    DivBelow(x, d, 1.0);
    DivAbove(x, d, -1.0);
    var r := x / d;
    assert r * d == x;
    r
  }

  /** The smoothed subjectivity: the sum of the scores over the word count
      plus Epsilon (main.py:67). Never negative, 0 exactly when there is no
      sentiment word, and below 1 when there are no more sentiment hits than
      words. */
  function Subjectivity(positiveScore: nat, negativeScore: nat, wordCount: nat): (r: real)
    ensures 0.0 <= r
    ensures r == 0.0 <==> positiveScore + negativeScore == 0
    ensures positiveScore + negativeScore <= wordCount ==> r < 1.0
    ensures positiveScore + negativeScore <= 2 * wordCount ==> r < 2.0
  {
    SmoothedBounds(positiveScore + negativeScore, wordCount);
    (positiveScore + negativeScore) as real / (wordCount as real + Epsilon)
  }

  /** The metrics record of `calculate_metrics` (main.py:59-101). `sentences`
      is the sentence splitter's output, `tokens` the word tokenizer's output
      on the lower-cased text and `pronouns` the number of
      personal-pronoun matches in the raw text. */
  function CalculateMetrics(lex: Lexicon, sentences: seq<string>, tokens: seq<string>, pronouns: nat): (m: MetricsRecord)
    ensures m.wordCount == |CleanText(tokens, lex.stopWords)|
    ensures m.positiveScore <= m.wordCount && m.negativeScore <= m.wordCount
    ensures m.complexWordCount <= m.wordCount
    ensures m.avgSentenceLength == m.avgWordsPerSentence
    ensures m.personalPronouns == pronouns
  {
    var words := CleanText(tokens, lex.stopWords);
    CleanTokensNonEmpty(tokens, lex.stopWords);
    var wordCount := |words|;
    var positiveScore := CountIn(words, lex.positiveWords);
    var negativeScore := CountIn(words, lex.negativeWords);
    var avgSentenceLength := Ratio(wordCount, |sentences|);
    var complexWordCount := CountComplex(words);
    var percentageComplexWords := Ratio(complexWordCount, wordCount);
    MetricsRecord(
      positiveScore,
      negativeScore,
      Polarity(positiveScore, negativeScore),
      Subjectivity(positiveScore, negativeScore, wordCount),
      avgSentenceLength,
      percentageComplexWords,
      0.4 * (avgSentenceLength + percentageComplexWords),
      avgSentenceLength,
      complexWordCount,
      wordCount,
      Ratio(SyllableSum(words), wordCount),
      pronouns,
      Ratio(CharSum(words), wordCount))
  }

  // ---------------------------------------------------------------------------
  // Properties of the metrics

  /** With disjoint sentiment sets, each word adds to at most one of the two scores. */
  lemma {:induction false} SentimentCountDisjoint(words: seq<string>, pos: set<string>, neg: set<string>)
    requires pos !! neg
    ensures CountIn(words, pos) + CountIn(words, neg) <= |words|
    decreases |words|
  {
    if |words| > 0 {
      SentimentCountDisjoint(words[1..], pos, neg);
    }
  }

  /** The subjectivity score is non-negative and below 2; it is below 1 when
      no word is both positive and negative. */
  lemma SubjectivityBounds(lex: Lexicon, sentences: seq<string>, tokens: seq<string>, pronouns: nat)
    ensures var m := CalculateMetrics(lex, sentences, tokens, pronouns);
            0.0 <= m.subjectivityScore < 2.0
    ensures var m := CalculateMetrics(lex, sentences, tokens, pronouns);
            lex.positiveWords !! lex.negativeWords ==> m.subjectivityScore < 1.0
  {
    if lex.positiveWords !! lex.negativeWords {
      SentimentCountDisjoint(CleanText(tokens, lex.stopWords), lex.positiveWords, lex.negativeWords);
    }
  }

  /** With no words, every word-based ratio is 0 and no division by zero occurs;
      the scores and the polarity are 0 too. */
  lemma NoWordsZeroRatios(lex: Lexicon, sentences: seq<string>, tokens: seq<string>, pronouns: nat)
    requires |CleanText(tokens, lex.stopWords)| == 0
    ensures var m := CalculateMetrics(lex, sentences, tokens, pronouns);
            && m.percentageComplexWords == 0.0
            && m.syllablesPerWord == 0.0
            && m.avgWordLength == 0.0
            && m.avgSentenceLength == 0.0
            && m.fogIndex == 0.0
            && m.positiveScore == 0 && m.negativeScore == 0
            && m.polarityScore == 0.0 && m.subjectivityScore == 0.0
  {
  }

  /** With no sentences the average sentence length is 0 and the fog index
      reduces to 0.4 times the complex-word fraction. */
  lemma NoSentencesZeroLength(lex: Lexicon, sentences: seq<string>, tokens: seq<string>, pronouns: nat)
    requires |sentences| == 0
    ensures var m := CalculateMetrics(lex, sentences, tokens, pronouns);
            m.avgSentenceLength == 0.0 && m.avgWordsPerSentence == 0.0
            && m.fogIndex == 0.4 * m.percentageComplexWords
  {
  }

  /** The fog index is 0.4 times the sum of the average sentence length and
      the complex-word fraction; the fraction lies in [0, 1], and when there
      are words and sentences the average sentence length is
      words per sentence. */
  lemma FogIndexDecomposition(lex: Lexicon, sentences: seq<string>, tokens: seq<string>, pronouns: nat)
    ensures var m := CalculateMetrics(lex, sentences, tokens, pronouns);
            m.fogIndex == 0.4 * (m.avgSentenceLength + m.percentageComplexWords)
    ensures var m := CalculateMetrics(lex, sentences, tokens, pronouns);
            0.0 <= m.percentageComplexWords <= 1.0
    ensures var m := CalculateMetrics(lex, sentences, tokens, pronouns);
            |sentences| > 0 ==> m.avgSentenceLength == m.wordCount as real / |sentences| as real
    ensures var m := CalculateMetrics(lex, sentences, tokens, pronouns);
            0.0 <= m.fogIndex <= 0.4 * (m.wordCount as real + 1.0)
  {
  }

  /** When there are words, each has on average at least one syllable and at
      least one character, and no more syllables than characters. */
  lemma PerWordAverages(lex: Lexicon, sentences: seq<string>, tokens: seq<string>, pronouns: nat)
    requires |CleanText(tokens, lex.stopWords)| > 0
    ensures var m := CalculateMetrics(lex, sentences, tokens, pronouns);
            1.0 <= m.syllablesPerWord <= m.avgWordLength
  {
    var words := CleanText(tokens, lex.stopWords);
    CleanTokensNonEmpty(tokens, lex.stopWords);
    RatioMonotone(SyllableSum(words), CharSum(words), |words|);
  }

  /** Subtracting the stop words from the sentiment sets never changes a
      score: a cleaned token is never a stop word. */
  lemma {:induction false} StopWordSubtractionInvisible(words: seq<string>, s: set<string>, stopWords: set<string>)
    requires forall i :: 0 <= i < |words| ==> words[i] !in stopWords
    ensures CountIn(words, s - stopWords) == CountIn(words, s)
    decreases |words|
  {
    if |words| > 0 {
      StopWordSubtractionInvisible(words[1..], s, stopWords);
    }
  }

  /** Computing with the built lexicon gives the same record as computing with
      the unfiltered sentiment sets. */
  lemma BuiltLexiconSameMetrics(stopWords: set<string>, positiveWords: set<string>, negativeWords: set<string>,
                                sentences: seq<string>, tokens: seq<string>, pronouns: nat)
    ensures CalculateMetrics(BuildLexicon(stopWords, positiveWords, negativeWords), sentences, tokens, pronouns)
         == CalculateMetrics(Lexicon(stopWords, positiveWords, negativeWords), sentences, tokens, pronouns)
  {
    var words := CleanText(tokens, stopWords);
    StopWordSubtractionInvisible(words, positiveWords, stopWords);
    StopWordSubtractionInvisible(words, negativeWords, stopWords);
  }

  /** The two-sentence example "I love this. We hate that.", with an assumed
      tokenizer output, the lexicon {love} / {hate} / {i, we, this, that} and
      two pronoun matches. */
  lemma LoveHateExample()
    ensures var m := CalculateMetrics(
              Lexicon({"i", "we", "this", "that"}, {"love"}, {"hate"}),
              ["I love this.", "We hate that."],
              ["i", "love", "this", ".", "we", "hate", "that", "."],
              2);
            && m.wordCount == 2 && m.positiveScore == 1 && m.negativeScore == 1
            && m.polarityScore == 0.0 && m.avgSentenceLength == 1.0
            && m.avgWordsPerSentence == 1.0 && m.personalPronouns == 2
            && m.complexWordCount == 0 && m.percentageComplexWords == 0.0
            && m.fogIndex == 0.4 && m.syllablesPerWord == 2.0 && m.avgWordLength == 4.0
  {
    CleanTextExample();
    SyllablesOfLove();
    SyllablesOfHate();
    var words := ["love", "hate"];
    assert words[1..] == ["hate"];
  }
}
