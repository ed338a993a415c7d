/** The word lists the metrics are computed against (main.py:8-21). Loading
    them from files is not modelled: the three sets are given. */
module LexiconStore {

  /** The immutable configuration: stop words and the two sentiment sets. */
  datatype Lexicon = Lexicon(stopWords: set<string>, positiveWords: set<string>, negativeWords: set<string>)

  /** A lexicon whose sentiment sets share no word with the stop words. */
  predicate Valid(lex: Lexicon) {
    lex.positiveWords !! lex.stopWords && lex.negativeWords !! lex.stopWords
  }

  /** The lexicon after the stop words are removed from both sentiment sets
      (main.py:20-21): the stop words are kept, and each sentiment set loses
      exactly its stop words. */
  function BuildLexicon(stopWords: set<string>, positiveWords: set<string>, negativeWords: set<string>): (lex: Lexicon)
    ensures Valid(lex)
    ensures lex.stopWords == stopWords
    ensures lex.positiveWords <= positiveWords && lex.negativeWords <= negativeWords
    ensures forall w :: w in positiveWords && w !in stopWords ==> w in lex.positiveWords
    ensures forall w :: w in negativeWords && w !in stopWords ==> w in lex.negativeWords
  {
    Lexicon(stopWords, positiveWords - stopWords, negativeWords - stopWords)
  }

  /** Building is idempotent: subtracting the stop words again changes
      nothing, so a lexicon that is already built can be passed through
      `BuildLexicon` again without effect. */
  lemma BuildLexiconIdempotent(stopWords: set<string>, positiveWords: set<string>, negativeWords: set<string>)
    ensures var lex := BuildLexicon(stopWords, positiveWords, negativeWords);
            BuildLexicon(lex.stopWords, lex.positiveWords, lex.negativeWords) == lex
  {
  }
}
