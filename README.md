# Text metrics of a web-article analyser, in Dafny

The system fetches articles by URL and reports, per article, a fixed set of
readability and sentiment metrics. This project models its text-metrics
core, `main.py`:

- **Lexicon construction** (`LexiconStore`, `lexicon.dfy`): the stop words
  and the two sentiment word sets, with the stop words subtracted from the
  sentiment sets, as one immutable `Lexicon` value.
- **Token cleaning** (`Tokenizer`, `tokenizer.dfy`): the filter of
  `clean_text`, which keeps alphanumeric tokens that are not stop words, in
  order.
- **Syllable counting** (`SyllableCounter`, `syllables.dfy`): the vowel-run
  heuristic of `count_syllables`, as a method with the source's loop, proved
  against the function `Syllables`. `Syllables`' count of vowel-group
  starts is in turn proved equal to an independent count of maximal vowel
  groups (`Runs`).
- **Metrics** (`MetricsEngine`, `metrics.dfy`): `calculate_metrics` as a
  function returning the 13-key record. The counts are natural numbers and
  the ratios are exact reals.
- `Chars` (`chars.dfy`) holds the ASCII character classes: the vowels
  `aeiou`, `isalnum`, `lower` and `endswith`.

The tokenizers are given values. `tokens` is the word tokenizer's output on
the lower-cased text. `sentences` is the sentence splitter's output, of which
only the length is used. `pronouns` is the number of personal-pronoun matches
in the raw text.

Two properties of the code are worth stating outright:

- `count_syllables` only turns a count of exactly 0 into 1. `Syllables`
  proves that this acts as a minimum of 1: the count before the check is
  never negative, because both silent suffixes contain the vowel `e`.
- Under exact arithmetic the smoothed polarity lies strictly inside (-1, 1).

## Model

| member | source | states |
|---|---|---|
| `Chars.IsVowel` | main.py:45 | Membership in the vowel string `aeiou`: holds exactly for the five lower-case vowels. |
| `Chars.EndsWith` | main.py:52 | `endswith` for one suffix: holds exactly when the suffix is no longer than the string and matches its last characters one by one. |
| `SyllableCounter.IsRunStart` | main.py:47-50 | The test that adds 1 to the count: the character is a vowel and, unless it is the first, its predecessor is not. |
| `SyllableCounter.RunStarts` | main.py:46-51 | The value the count holds after the loop, as a definition over prefixes; the loop invariant of `CountSyllables` is stated against it. Its properties are carried by `RunStartsCountsRuns`, `RunStartsAtMostLength`, `VowelGivesRunStart` and `NoVowelNoRunStart`. |
| `SyllableCounter.CountSyllables` | main.py:43-56 | For a non-empty word, the loop returns `Syllables(word)`, which lies between 1 and the word's length. |
| `SyllableCounter.RunStartsStep` | main.py:49-51 | One loop step adds 1 exactly when the new character is a vowel whose predecessor is not. |
| `SyllableCounter.RunStartsCountsRuns` | main.py:46-51 | The loop's count of vowel-group starts equals the number of maximal vowel groups. |
| `SyllableCounter.TrailingGroupCountsOnce` | main.py:49-51 | A trailing group of vowels, however long, adds exactly one to the count. |
| `SyllableCounter.RunStartsAtMostLength` | main.py:46-51 | The count of vowel-group starts never exceeds the word length. |
| `SyllableCounter.VowelGivesRunStart` | main.py:47-51 | A word with a vowel anywhere has at least one vowel-group start. |
| `SyllableCounter.NoVowelNoRunStart` | main.py:47-51 | A word without vowels has no vowel-group start. |
| `SyllableCounter.Syllables` | main.py:43-56 | The value `count_syllables` returns, used wherever the metrics count syllables. It is at least 1 and at most the word length. `SyllablesFromRuns` ties it to the number of maximal vowel groups. |
| `SyllableCounter.SilentSuffixStartsGroup` | main.py:52-55 | A word ending in "es" or "ed" has a vowel group, so the decrement never takes the count below 0 and the `== 0` check acts as a minimum of 1. |
| `SyllableCounter.HasSilentSuffix` | main.py:52 | The `endswith(('es', 'ed'))` test. When it holds, the word has at least 2 characters and the second to last is the vowel `e`. |
| `Chars.Lower` | main.py:44 | ASCII `lower()`: same length, each character lower-cased (letters A-Z map to a-z, everything else unchanged). |
| `Chars.IsAlnum` | main.py:41 | ASCII `isalnum()`: an accepted string is non-empty and holds no space or full stop. |
| `Tokenizer.Keep` | main.py:41 | The comprehension's condition. A kept token is non-empty and not a stop word; a stop word is never kept. |
| `SyllableCounter.NoVowelsOneSyllable` | main.py:44-55 | A word none of whose characters lower-case to one of `aeiou` has exactly 1 syllable. |
| `SyllableCounter.SyllablesFromRuns` | main.py:46-55 | The result is computed from the number of maximal vowel groups: minus 1 for an "es"/"ed" ending, with 0 replaced by 1. |
| `SyllableCounter.SyllablesOfThe` | main.py:43-56 | "the" has 1 syllable. |
| `SyllableCounter.SyllablesOfHello` | main.py:43-56 | "hello" has 2 syllables. |
| `SyllableCounter.SyllablesOfBeautiful` | main.py:43-56 | "beautiful" has 3 syllables; the group "eau" counts once. |
| `SyllableCounter.SyllablesOfLikes` | main.py:43-56 | "likes" has 1 syllable: 2 groups, minus 1 for "es". |
| `SyllableCounter.SyllablesOfApple` | main.py:43-56 | "Apple" has 2 syllables, because the word is lower-cased first. |
| `SyllableCounter.SyllablesOfLove` | main.py:43-56 | "love" has 2 syllables. |
| `SyllableCounter.SyllablesOfHate` | main.py:43-56 | "hate" has 2 syllables. |
| `LexiconStore.BuildLexicon` | main.py:20-21 | Both sentiment sets end up disjoint from the stop words. Each keeps exactly its words that are not stop words. |
| `LexiconStore.BuildLexiconIdempotent` | main.py:20-21 | Subtracting the stop words a second time changes nothing. |
| `Tokenizer.CleanText` | main.py:39-42 | Every kept token is alphanumeric (so non-empty) and not a stop word, and there are no more kept tokens than input tokens. |
| `Tokenizer.CleanTextSubsequence` | main.py:41 | The kept tokens form an order-preserving subsequence of the tokenizer output. |
| `Tokenizer.CleanTextOccurrences` | main.py:41 | A token that passes the filter is kept as many times as it occurs in the input. A token that fails it is never kept. |
| `Tokenizer.CleanTokensNonEmpty` | main.py:41 | Every kept token is non-empty, so its syllables can be counted. |
| `Tokenizer.CleanTextIdentity` | main.py:41 | A token list that already passes the filter comes back unchanged. |
| `Tokenizer.CleanTextIdempotent` | main.py:41 | Cleaning twice gives the same result as cleaning once. |
| `Tokenizer.ExampleTokensKept` | main.py:41 | With stop words {i, we, this, that}: ".", "i", "we", "this" and "that" are dropped; "love" and "hate" are kept. |
| `Tokenizer.CleanTextExample` | main.py:40-41 | The tokens of "i love this. we hate that." clean to ["love", "hate"]. |
| `MetricsEngine.MetricsRecord` | main.py:85-99 | The 13-key result, one field per key in the source's order; a definition, whose values are stated by `CalculateMetrics` and the lemmas after it. |
| `MetricsEngine.CountIn` | main.py:64-65 | A sentiment score is at most the word count. It is 0 exactly when no word is in the set, and equals the word count exactly when every word is in it. |
| `MetricsEngine.CountComplex` | main.py:72-73 | The complex-word count is at most the word count, and is 0 exactly when no word has more than 2 syllables. |
| `MetricsEngine.SyllableSum` | main.py:78 | The syllable total is at least the word count (at least 1 per word) and at most the total character count. |
| `MetricsEngine.CharSum` | main.py:83 | For non-empty words, the character total is at least the word count. |
| `MetricsEngine.Ratio` | main.py:70-83 | A zero-guarded quotient. It is 0 when the denominator is 0; otherwise multiplying it by the denominator gives back the numerator. For a non-negative numerator it lies between 0 and the numerator, is at most 1 when the numerator is at most the denominator, and is at least 1 when the numerator is at least the (positive) denominator. |
| `MetricsEngine.RatioMonotone` | main.py:79-83 | Over the same word count, a numerator at least as large gives an average at least as large, and when there are words a strictly larger numerator gives a strictly larger average. |
| `MetricsEngine.SmoothedBounds` | main.py:67 | A count divided by `word_count + 0.000001` is non-negative, is 0 exactly when the count is 0, is below 1 when the count is at most the word count, and is below 2 when the count is at most twice the word count. |
| `MetricsEngine.Polarity` | main.py:66 | The smoothed polarity lies strictly between -1 and 1. It is positive exactly when positive words outnumber negative ones, and negative exactly when negative words outnumber positive ones. |
| `MetricsEngine.Subjectivity` | main.py:67 | Subjectivity is non-negative and is 0 exactly when there are no sentiment hits. It is below 1 when the hits are at most the word count, and below 2 when they are at most twice the word count. |
| `MetricsEngine.CalculateMetrics` | main.py:59-101 | The word count is the number of cleaned tokens. Both scores and the complex-word count are at most the word count. The two sentence-length keys carry the same value. The pronoun count is passed through. |
| `MetricsEngine.SentimentCountDisjoint` | main.py:64-65 | With disjoint sentiment sets, the two scores together are at most the word count. |
| `MetricsEngine.SubjectivityBounds` | main.py:67 | The record's subjectivity is in [0, 2), and below 1 when no word is both positive and negative. |
| `MetricsEngine.NoWordsZeroRatios` | main.py:62-83 | With no words, the complex-word fraction, syllables per word, average word length, average sentence length, fog index, both scores, polarity and subjectivity are all 0, and no division by zero occurs. |
| `MetricsEngine.NoSentencesZeroLength` | main.py:69-76 | With no sentences, both sentence-length keys are 0, and the fog index is 0.4 times the complex-word fraction. |
| `MetricsEngine.FogIndexDecomposition` | main.py:69-76 | The fog index is 0.4 × (average sentence length + complex-word fraction). The fraction lies in [0, 1]. With sentences, the average sentence length is words divided by sentences. The fog index lies between 0 and 0.4 × (word count + 1). |
| `MetricsEngine.PerWordAverages` | main.py:78-83 | When there are words, 1 ≤ syllables per word ≤ average word length. |
| `MetricsEngine.StopWordSubtractionInvisible` | main.py:20-21 | Over words that are not stop words, a count against a sentiment set is unchanged when stop words are removed from that set first. |
| `MetricsEngine.BuiltLexiconSameMetrics` | main.py:20-21 | The lexicon with stop words subtracted gives the same metrics record as the raw sentiment sets, because cleaned tokens are never stop words. |
| `MetricsEngine.LoveHateExample` | main.py:59-101 | For "I love this. We hate that." (stop words {i, we, this, that}, {love} positive, {hate} negative, 2 pronoun matches): 2 words, scores 1 and 1, polarity 0, both sentence-length keys 1, no complex words, fog index 0.4, 2 syllables per word, average word length 4. |

## Left out

- Loading the word lists from the `StopWords` and `MasterDictionary` files (main.py:8-18) is filesystem I/O. The three sets are parameters of `BuildLexicon`.
- `extract_article_text` (main.py:22-36) fetches over HTTP and parses HTML, which is network I/O and a foreign library.
- The NLTK `word_tokenize` and `sent_tokenize` (main.py:40, 60) are foreign code. Their outputs are inputs of `CalculateMetrics`. `LoveHateExample` assumes one plausible tokenizer output.
- The personal-pronoun count (main.py:81) depends on the regex engine's word boundaries and case folding. It is a natural-number input, passed through unchanged.
- Floating-point rounding of the ratios is not modelled. Polarity, subjectivity, the averages and the fog index are exact reals, and the constant 0.000001 is the exact real 1/1000000.
- Python returns the integer `0` in the zero-guarded branches and a float elsewhere. The model returns the real `0.0` in both cases, so it does not distinguish `0` from `0.0` in the output.
- `str.lower`, `str.isalnum` and `str.endswith` are modelled on ASCII only. Non-ASCII letters and digits are not alphanumeric here, and no Unicode case mapping is applied.
- The Excel input, the per-article text files, the skip of empty extractions and the CSV report (main.py:103-128) are I/O orchestration.
- CountSyllables: requires a non-empty word, where the source raises `IndexError` at main.py:47. No caller in the core reaches that case, because every cleaned token is non-empty (`CleanTokensNonEmpty`).
- Determinism (two calls on the same text give the same record) holds because `CalculateMetrics` is a Dafny function. No separate lemma states it.
