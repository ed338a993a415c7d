/** The token filter of `clean_text` (main.py:39-42). The NLTK tokenizer is
    not modelled: its output on the lower-cased text is given as `tokens`. */
module Tokenizer {
  import opened Chars

  /** A token survives cleaning when it is alphanumeric and not a stop word. */
  predicate Keep(token: string, stopWords: set<string>)
    ensures Keep(token, stopWords) ==> |token| > 0 && token !in stopWords
    ensures token in stopWords ==> !Keep(token, stopWords)
  {
    IsAlnum(token) && token !in stopWords
  }

  /** `sub` is obtained from `s` by deleting elements, keeping the order of the rest. */
  predicate IsSubsequence<T(==)>(sub: seq<T>, s: seq<T>)
    decreases |s|
  {
    if |sub| == 0 then true
    else if |s| == 0 then false
    else if sub[0] == s[0] then IsSubsequence(sub[1..], s[1..])
    else IsSubsequence(sub, s[1..])
  }

  /** The tokens that are alphanumeric and not stop words, in their original
      order (main.py:41). */
  function CleanText(tokens: seq<string>, stopWords: set<string>): (r: seq<string>)
    ensures forall i :: 0 <= i < |r| ==> Keep(r[i], stopWords)
    ensures |r| <= |tokens|
    decreases |tokens|
  {
    if |tokens| == 0 then []
    else
      var rest := CleanText(tokens[1..], stopWords);
      if Keep(tokens[0], stopWords) then [tokens[0]] + rest else rest
  }

  /** The cleaned tokens appear in the tokenizer output in the same order. */
  lemma {:induction false} CleanTextSubsequence(tokens: seq<string>, stopWords: set<string>)
    ensures IsSubsequence(CleanText(tokens, stopWords), tokens)
    decreases |tokens|
  {
    if |tokens| > 0 {
      CleanTextSubsequence(tokens[1..], stopWords);
    }
  }

  /** Every token that passes the filter is kept as often as it occurs, and
      no other token is kept. */
  lemma {:induction false} CleanTextOccurrences(tokens: seq<string>, stopWords: set<string>, t: string)
    ensures multiset(CleanText(tokens, stopWords))[t] == if Keep(t, stopWords) then multiset(tokens)[t] else 0
    decreases |tokens|
  {
    if |tokens| > 0 {
      CleanTextOccurrences(tokens[1..], stopWords, t);
      assert tokens == [tokens[0]] + tokens[1..];
    }
  }

  /** Every cleaned token is non-empty, so its syllables can be counted. */
  lemma CleanTokensNonEmpty(tokens: seq<string>, stopWords: set<string>)
    ensures forall i :: 0 <= i < |CleanText(tokens, stopWords)| ==> |CleanText(tokens, stopWords)[i]| > 0
  {
  }

  /** Nothing is kept that the filter rejects, and everything it accepts is
      kept: a token list that already passes the filter is returned unchanged. */
  lemma {:induction false} CleanTextIdentity(tokens: seq<string>, stopWords: set<string>)
    requires forall i :: 0 <= i < |tokens| ==> Keep(tokens[i], stopWords)
    ensures CleanText(tokens, stopWords) == tokens
    decreases |tokens|
  {
    if |tokens| > 0 {
      CleanTextIdentity(tokens[1..], stopWords);
    }
  }

  /** Cleaning is idempotent: the cleaned tokens are a fixed point of the
      filter, so text that is already clean loses nothing when cleaned again. */
  lemma CleanTextIdempotent(tokens: seq<string>, stopWords: set<string>)
    ensures CleanText(CleanText(tokens, stopWords), stopWords) == CleanText(tokens, stopWords)
  {
    CleanTextIdentity(CleanText(tokens, stopWords), stopWords);
  }

  /** Which tokens of the example below survive cleaning. */
  lemma ExampleTokensKept()
    ensures !Keep(".", {"i", "we", "this", "that"})
    ensures !Keep("i", {"i", "we", "this", "that"}) && !Keep("we", {"i", "we", "this", "that"})
    ensures !Keep("this", {"i", "we", "this", "that"}) && !Keep("that", {"i", "we", "this", "that"})
    ensures Keep("love", {"i", "we", "this", "that"}) && Keep("hate", {"i", "we", "this", "that"})
  {
    assert !IsAlnumChar("."[0]);
    assert IsAlnum("love") by {
      forall i | 0 <= i < 4 ensures IsAlnumChar("love"[i]) { }
    }
    assert IsAlnum("hate") by {
      forall i | 0 <= i < 4 ensures IsAlnumChar("hate"[i]) { }
    }
  }

  /** The tokens of "i love this. we hate that." with the stop words
      {i, we, this, that}: punctuation and stop words are dropped. */
  lemma CleanTextExample()
    ensures CleanText(["i", "love", "this", ".", "we", "hate", "that", "."], {"i", "we", "this", "that"})
         == ["love", "hate"]
  {
    var stop := {"i", "we", "this", "that"};
    var tokens := ["i", "love", "this", ".", "we", "hate", "that", "."];
    ExampleTokensKept();
    assert tokens[7..][1..] == [];
    assert tokens[6..][1..] == tokens[7..];
    assert tokens[5..][1..] == tokens[6..];
    assert tokens[4..][1..] == tokens[5..];
    assert tokens[3..][1..] == tokens[4..];
    assert tokens[2..][1..] == tokens[3..];
    assert tokens[1..][1..] == tokens[2..];
    assert CleanText(tokens[7..], stop) == [];
    assert CleanText(tokens[6..], stop) == [];
    assert CleanText(tokens[5..], stop) == ["hate"];
    assert CleanText(tokens[4..], stop) == ["hate"];
    assert CleanText(tokens[3..], stop) == ["hate"];
    assert CleanText(tokens[2..], stop) == ["hate"];
    assert tokens[1..][0] == "love";
    assert CleanText(tokens[1..], stop) == ["love"] + ["hate"];
  }
}
