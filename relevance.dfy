/**
 * The lexical relevance score of one knowledge-base entry for a lower-cased
 * query. Weights are counted in half-points, so that every weight is a whole
 * number: a keyword found in the query is worth 6 (3.0), a query token found
 * in the question 4 (2.0), a token found only inside one question word 2
 * (1.0), a token found in the answer 1 (0.5). Tokens of two characters or
 * fewer are ignored.
 */
module Relevance {
  import opened Text
  import opened FaqEntry

  const KeywordWeight: nat := 6
  const QuestionWeight: nat := 4
  const PartialWeight: nat := 2
  const AnswerWeight: nat := 1

  /** Tokens longer than two characters take part in the question and answer checks. */
  predicate IsLongToken(token: string) {
    |token| > 2
  }

  /** `any(token in w for w in words)`. */
  predicate SomeWordContains(words: seq<string>, token: string) {
    exists j | 0 <= j < |words| :: IsSubstring(token, words[j])
  }

  // The three accumulations of the scorer, one per loop, each a left fold.

  function KeywordPoints(query: string, keywords: seq<string>): nat {
    if keywords == [] then 0
    else
      var kw := keywords[|keywords| - 1];
      KeywordPoints(query, keywords[..|keywords| - 1])
        + (if IsSubstring(Lower(kw), query) then KeywordWeight else 0)
  }

  /** Points one query token earns from the (lower-cased) question. */
  function TokenQuestionPoints(token: string, question: string): nat {
    if !IsLongToken(token) then 0
    else if IsSubstring(token, question) then QuestionWeight
    else if SomeWordContains(Split(question), token) then PartialWeight
    else 0
  }

  function QuestionPoints(tokens: seq<string>, question: string): nat {
    if tokens == [] then 0
    else QuestionPoints(tokens[..|tokens| - 1], question) + TokenQuestionPoints(tokens[|tokens| - 1], question)
  }

  function AnswerPoints(tokens: seq<string>, answer: string): nat {
    if tokens == [] then 0
    else
      var t := tokens[|tokens| - 1];
      AnswerPoints(tokens[..|tokens| - 1], answer)
        + (if IsLongToken(t) && IsSubstring(t, answer) then AnswerWeight else 0)
  }

  /** The score, in half-points, of `item` for the already lower-cased `query`. */
  function RelevanceScore(query: string, item: FaqItem): nat {
    var tokens := Split(query);
    KeywordPoints(query, item.keywords)
      + QuestionPoints(tokens, Lower(item.question))
      + AnswerPoints(tokens, Lower(item.answer))
  }

  /** The scorer as the source runs it: three loops accumulating into one score. */
  method CalculateRelevanceScore(query: string, item: FaqItem) returns (score: nat)
    ensures score == RelevanceScore(query, item)
  {
    var queryWords := Split(query);
    score := AccumulateKeywords(query, item.keywords);
    var fromQuestion := AccumulateQuestion(queryWords, Lower(item.question));
    var fromAnswer := AccumulateAnswer(queryWords, Lower(item.answer));
    score := score + fromQuestion + fromAnswer;
  }

  /** First loop: 3.0 for every keyword whose lower-cased form occurs in the query. */
  method AccumulateKeywords(query: string, keywords: seq<string>) returns (score: nat)
    ensures score == KeywordPoints(query, keywords)
  {
    score := 0;
    for k := 0 to |keywords|
      invariant score == KeywordPoints(query, keywords[..k])
    {
      assert keywords[..k + 1][..k] == keywords[..k];
      if IsSubstring(Lower(keywords[k]), query) {
        score := score + KeywordWeight;
      }
    }
    assert keywords[..|keywords|] == keywords;
  }

  /** Second loop: 2.0 for a long token found in the question, else 1.0 when
      it is found inside one word of the question. */
  method AccumulateQuestion(queryWords: seq<string>, question: string) returns (score: nat)
    ensures score == QuestionPoints(queryWords, question)
  {
    score := 0;
    for k := 0 to |queryWords|
      invariant score == QuestionPoints(queryWords[..k], question)
    {
      assert queryWords[..k + 1][..k] == queryWords[..k];
      var word := queryWords[k];
      if |word| > 2 {
        if IsSubstring(word, question) {
          score := score + QuestionWeight;
        } else if SomeWordContains(Split(question), word) {
          score := score + PartialWeight;
        }
      }
    }
    assert queryWords[..|queryWords|] == queryWords;
  }

  /** Third loop: 0.5 for every long token found in the answer. */
  method AccumulateAnswer(queryWords: seq<string>, answer: string) returns (score: nat)
    ensures score == AnswerPoints(queryWords, answer)
  {
    score := 0;
    for k := 0 to |queryWords|
      invariant score == AnswerPoints(queryWords[..k], answer)
    {
      assert queryWords[..k + 1][..k] == queryWords[..k];
      var word := queryWords[k];
      if |word| > 2 && IsSubstring(word, answer) {
        score := score + AnswerWeight;
      }
    }
    assert queryWords[..|queryWords|] == queryWords;
  }

  // ---------------------------------------------------------------- closed form

  /** Number of keywords whose lower-cased form occurs in the query. */
  function KeywordHits(query: string, keywords: seq<string>): nat {
    if keywords == [] then 0
    else
      var kw := keywords[|keywords| - 1];
      KeywordHits(query, keywords[..|keywords| - 1]) + (if IsSubstring(Lower(kw), query) then 1 else 0)
  }

  /** Number of long tokens that occur in `text`. */
  function TokenHits(tokens: seq<string>, text: string): nat {
    if tokens == [] then 0
    else
      var t := tokens[|tokens| - 1];
      TokenHits(tokens[..|tokens| - 1], text) + (if IsLongToken(t) && IsSubstring(t, text) then 1 else 0)
  }

  /** The +1 "partial match" branch can never fire: a token found inside
      some word of the question is found inside the question itself. */
  lemma PartialMatchImpliesFullMatch(question: string, token: string)
    requires SomeWordContains(Split(question), token)
    ensures IsSubstring(token, question)
  {
    var j :| 0 <= j < |Split(question)| && IsSubstring(token, Split(question)[j]);
    SplitWordsOccur(question);
    SubstringTransitive(token, Split(question)[j], question);
  }

  /** Per token, the question contributes 4 when the token occurs in it and 0 otherwise. */
  lemma TokenQuestionPointsClosedForm(token: string, question: string)
    ensures TokenQuestionPoints(token, question)
      == if IsLongToken(token) && IsSubstring(token, question) then QuestionWeight else 0
  {
    if IsLongToken(token) && !IsSubstring(token, question) && SomeWordContains(Split(question), token) {
      PartialMatchImpliesFullMatch(question, token);
    }
  }

  lemma {:induction false} QuestionPointsClosedForm(tokens: seq<string>, question: string)
    ensures QuestionPoints(tokens, question) == QuestionWeight * TokenHits(tokens, question)
  {
    if tokens != [] {
      QuestionPointsClosedForm(tokens[..|tokens| - 1], question);
      TokenQuestionPointsClosedForm(tokens[|tokens| - 1], question);
    }
  }

  lemma {:induction false} KeywordPointsClosedForm(query: string, keywords: seq<string>)
    ensures KeywordPoints(query, keywords) == KeywordWeight * KeywordHits(query, keywords)
  {
    if keywords != [] {
      KeywordPointsClosedForm(query, keywords[..|keywords| - 1]);
    }
  }

  lemma {:induction false} AnswerPointsClosedForm(tokens: seq<string>, answer: string)
    ensures AnswerPoints(tokens, answer) == AnswerWeight * TokenHits(tokens, answer)
  {
    if tokens != [] {
      AnswerPointsClosedForm(tokens[..|tokens| - 1], answer);
    }
  }

  /** The score is 3.0 per keyword found in the query, 2.0 per long token
      found in the question and 0.5 per long token found in the answer. */
  lemma ScoreClosedForm(query: string, item: FaqItem)
    ensures RelevanceScore(query, item)
      == KeywordWeight * KeywordHits(query, item.keywords)
       + QuestionWeight * TokenHits(Split(query), Lower(item.question))
       + AnswerWeight * TokenHits(Split(query), Lower(item.answer))
  {
    KeywordPointsClosedForm(query, item.keywords);
    QuestionPointsClosedForm(Split(query), Lower(item.question));
    AnswerPointsClosedForm(Split(query), Lower(item.answer));
  }

  lemma {:induction false} KeywordHitsBound(query: string, keywords: seq<string>)
    ensures KeywordHits(query, keywords) <= |keywords|
  {
    if keywords != [] {
      KeywordHitsBound(query, keywords[..|keywords| - 1]);
    }
  }

  lemma {:induction false} TokenHitsBound(tokens: seq<string>, text: string)
    ensures TokenHits(tokens, text) <= |tokens|
  {
    if tokens != [] {
      TokenHitsBound(tokens[..|tokens| - 1], text);
    }
  }

  /** Each keyword adds at most 3.0 and each query token at most 2.5. */
  lemma ScoreBound(query: string, item: FaqItem)
    ensures RelevanceScore(query, item) <= KeywordWeight * |item.keywords| + 5 * |Split(query)|
  {
    ScoreClosedForm(query, item);
    KeywordHitsBound(query, item.keywords);
    TokenHitsBound(Split(query), Lower(item.question));
    TokenHitsBound(Split(query), Lower(item.answer));
  }

  // ---------------------------------------------------------------- when the score is positive

  /** Some keyword of the entry, lower-cased, occurs in the query. */
  predicate KeywordMatch(query: string, keywords: seq<string>) {
    exists k | 0 <= k < |keywords| :: IsSubstring(Lower(keywords[k]), query)
  }

  /** Some long token occurs in `text`. */
  predicate TokenMatch(tokens: seq<string>, text: string) {
    exists k | 0 <= k < |tokens| :: IsLongToken(tokens[k]) && IsSubstring(tokens[k], text)
  }

  lemma {:induction false} KeywordHitsPositive(query: string, keywords: seq<string>)
    ensures KeywordHits(query, keywords) > 0 <==> KeywordMatch(query, keywords)
  {
    if keywords != [] {
      var init := keywords[..|keywords| - 1];
      KeywordHitsPositive(query, init);
      assert forall k :: 0 <= k < |init| ==> init[k] == keywords[k];
      if KeywordMatch(query, init) {
        var k :| 0 <= k < |init| && IsSubstring(Lower(init[k]), query);
        assert IsSubstring(Lower(keywords[k]), query);
      }
    }
  }

  lemma {:induction false} TokenHitsPositive(tokens: seq<string>, text: string)
    ensures TokenHits(tokens, text) > 0 <==> TokenMatch(tokens, text)
  {
    if tokens != [] {
      var init := tokens[..|tokens| - 1];
      TokenHitsPositive(init, text);
      assert forall k :: 0 <= k < |init| ==> init[k] == tokens[k];
      if TokenMatch(init, text) {
        var k :| 0 <= k < |init| && IsLongToken(init[k]) && IsSubstring(init[k], text);
        assert IsLongToken(tokens[k]) && IsSubstring(tokens[k], text);
      }
    }
  }

  /** An entry scores above zero exactly when one of its keywords occurs in
      the query or a long query token occurs in its question or its answer. */
  lemma ScorePositiveIff(query: string, item: FaqItem)
    ensures RelevanceScore(query, item) > 0 <==>
              (KeywordMatch(query, item.keywords)
               || TokenMatch(Split(query), Lower(item.question))
               || TokenMatch(Split(query), Lower(item.answer)))
  {
    ScoreClosedForm(query, item);
    KeywordHitsPositive(query, item.keywords);
    TokenHitsPositive(Split(query), Lower(item.question));
    TokenHitsPositive(Split(query), Lower(item.answer));
  }
}
