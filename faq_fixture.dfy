/**
 * The two-entry knowledge base of the test suite and what searching it
 * returns: "заказ" finds exactly the ordering entry, "несуществующий запрос"
 * finds nothing.
 */
module FaqFixture {
  import opened Text
  import opened FaqEntry
  import opened Relevance
  import opened FaqSearch

  // ---------------------------------------------------------------- the two-entry collection of the test suite

  const TestFaq: seq<FaqItem> := [
    FaqItem(1, "Как оформить заказ?", "Для оформления заказа свяжитесь с менеджером", ["заказ", "оформить"]),
    FaqItem(2, "Какие способы оплаты?", "Мы принимаем карты и наличные", ["оплата", "карта"])
  ]

  /** `c` occurs nowhere in `s`, stated position by position. */
  predicate Lacks(s: string, c: char) {
    forall i :: 0 <= i < |s| ==> s[i] != c
  }

  /** A keyword holding a lower-case character the query lacks does not match. */
  lemma KeywordAbsent(query: string, keyword: string, i: int, c: char)
    requires 0 <= i < |keyword| && keyword[i] == c && !IsUpper(c) && Lacks(query, c)
    ensures !IsSubstring(Lower(keyword), query)
  {
    assert Lower(keyword)[i] == c;
    MissingCharNotSubstring(Lower(keyword), query, c);
  }

  /** A token holding a Cyrillic letter that a text lacks in either case does
      not occur in the lower-cased text. */
  lemma TokenAbsent(token: string, text: string, c: char)
    requires c in token && '\U{430}' <= c <= '\U{44F}'
    requires Lacks(text, c) && Lacks(text, (c as int - 32) as char)
    ensures !IsSubstring(token, Lower(text))
  {
    LowerMissingCyrillic(text, c);
    MissingCharNotSubstring(token, Lower(text), c);
  }

  // ---------------------------------------------------------------- letters the fixture's texts lack

  lemma QueryOrderingLacks(q: string)
    requires q == "заказ"
    ensures Lacks(q, 'о') && Lacks(q, 'т')
  {
  }

  lemma QueryNoMatchLacks(q: string)
    requires q == "несуществующий запрос"
    ensures Lacks(q, 'к') && Lacks(q, 'ф') && Lacks(q, 'л')
  {
  }

  lemma OrderingQuestionLacks(t: string)
    requires t == "Как оформить заказ?"
    ensures Lacks(t, 'н') && Lacks(t, 'Н') && Lacks(t, 'п') && Lacks(t, 'П')
  {
  }

  lemma OrderingAnswerLacksShcha(t: string)
    requires t == "Для оформления заказа свяжитесь с менеджером"
    ensures Lacks(t, 'щ') && Lacks(t, 'Щ')
  {
  }

  lemma OrderingAnswerLacksPe(t: string)
    requires t == "Для оформления заказа свяжитесь с менеджером"
    ensures Lacks(t, 'п') && Lacks(t, 'П')
  {
  }

  lemma PaymentQuestionLacksShcha(t: string)
    requires t == "Какие способы оплаты?"
    ensures Lacks(t, 'щ') && Lacks(t, 'Щ')
  {
  }

  lemma PaymentQuestionLacksZe(t: string)
    requires t == "Какие способы оплаты?"
    ensures Lacks(t, 'з') && Lacks(t, 'З')
  {
  }

  lemma PaymentAnswerLacksShcha(t: string)
    requires t == "Мы принимаем карты и наличные"
    ensures Lacks(t, 'щ') && Lacks(t, 'Щ')
  {
  }

  lemma PaymentAnswerLacksZe(t: string)
    requires t == "Мы принимаем карты и наличные"
    ensures Lacks(t, 'з') && Lacks(t, 'З')
  {
  }

  /** An entry none of whose keywords occurs in the query, and whose question
      and answer contain no query token, scores zero. */
  lemma ScoreZero(query: string, item: FaqItem)
    requires forall k | 0 <= k < |item.keywords| :: !IsSubstring(Lower(item.keywords[k]), query)
    requires forall t | t in Split(query) ::
               !IsSubstring(t, Lower(item.question)) && !IsSubstring(t, Lower(item.answer))
    ensures RelevanceScore(query, item) == 0
  {
    ScorePositiveIff(query, item);
  }

  /** No entry scoring: nothing is found. */
  lemma {:induction false} ScoreAllNone(data: seq<FaqItem>, score: FaqItem -> nat)
    requires forall i :: 0 <= i < |data| ==> score(data[i]) == 0
    ensures ScoreAll(data, score) == []
  {
    if data != [] {
      ScoreAllNone(data[1..], score);
    }
  }

  lemma SearchOnlyFirst(a: FaqItem, b: FaqItem, query: string, n: int)
    requires query != [] && n >= 1
    requires RelevanceScore(Lower(query), a) > 0 && RelevanceScore(Lower(query), b) == 0
    ensures Search([a, b], query, n) == [a]
  {
    var q := Lower(query);
    assert [a, b][1..] == [b] && [b][1..] == [];
    assert ScoreAll([b], ScoreFor(q)) == [];
    var x := Scored(RelevanceScore(q, a), a);
    assert ScoreAll([a, b], ScoreFor(q)) == [x];
    assert [x][1..] == [];
    assert SortByScoreDesc([x]) == [x];
    assert PyTake([x], n) == [x];
  }

  lemma OrderingMatches(q: string, e: FaqItem)
    requires q == "заказ"
    requires e == FaqItem(1, "Как оформить заказ?", "Для оформления заказа свяжитесь с менеджером", ["заказ", "оформить"])
    ensures Lower(q) == q && RelevanceScore(q, e) > 0
  {
    forall i | 0 <= i < |q| ensures !IsUpper(q[i]) {
      assert q[i] in q;
    }
    LowerOfLower(q);
    assert e.keywords[0] == q;
    assert q[0..|q|] == q;
    assert OccursAt(Lower(e.keywords[0]), q, 0);
    assert KeywordMatch(q, e.keywords);
    ScorePositiveIff(q, e);
  }

  lemma OrderingQuerySplit(q: string)
    requires q == "заказ"
    ensures Split(q) == [q]
  {
    forall i | 0 <= i < |q| ensures !IsSpace(q[i]) {
      assert q[i] in q;
    }
    SplitSingleWord(q);
  }

  lemma PaymentKeywordsMiss(q: string, keywords: seq<string>)
    requires q == "заказ" && keywords == ["оплата", "карта"]
    ensures forall k | 0 <= k < |keywords| :: !IsSubstring(Lower(keywords[k]), q)
  {
    QueryOrderingLacks(q);
    KeywordAbsent(q, keywords[0], 0, 'о');
    KeywordAbsent(q, keywords[1], 3, 'т');
  }

  lemma PaymentTextsMiss(q: string, question: string, answer: string)
    requires q == "заказ" && question == "Какие способы оплаты?" && answer == "Мы принимаем карты и наличные"
    ensures !IsSubstring(q, Lower(question)) && !IsSubstring(q, Lower(answer))
  {
    assert q[0] == 'з';
    PaymentQuestionLacksZe(question);
    PaymentAnswerLacksZe(answer);
    TokenAbsent(q, question, 'з');
    TokenAbsent(q, answer, 'з');
  }

  lemma OneTokenMisses(q: string, question: string, answer: string)
    requires Split(q) == [q]
    requires !IsSubstring(q, Lower(question)) && !IsSubstring(q, Lower(answer))
    ensures forall t | t in Split(q) :: !IsSubstring(t, Lower(question)) && !IsSubstring(t, Lower(answer))
  {
  }

  lemma PaymentIgnoresOrdering(q: string, e: FaqItem)
    requires q == "заказ"
    requires e == FaqItem(2, "Какие способы оплаты?", "Мы принимаем карты и наличные", ["оплата", "карта"])
    ensures RelevanceScore(q, e) == 0
  {
    OrderingQuerySplit(q);
    PaymentTextsMiss(q, e.question, e.answer);
    OneTokenMisses(q, e.question, e.answer);
    PaymentKeywordsMiss(q, e.keywords);
    ScoreZero(q, e);
  }

  /** Searching "заказ" finds the ordering entry and nothing else. */
  lemma SearchTestFaqOrdering()
    ensures Search(TestFaq, "заказ", 3) == [TestFaq[0]]
  {
    OrderingMatches("заказ", TestFaq[0]);
    PaymentIgnoresOrdering("заказ", TestFaq[1]);
    SearchOnlyFirst(TestFaq[0], TestFaq[1], "заказ", 3);
    assert TestFaq == [TestFaq[0], TestFaq[1]];
  }

  lemma SearchNoneScores(data: seq<FaqItem>, query: string, n: int)
    requires forall i :: 0 <= i < |data| ==> RelevanceScore(Lower(query), data[i]) == 0
    ensures Search(data, query, n) == []
  {
    ScoreAllNone(data, ScoreFor(Lower(query)));
  }

  lemma TwoTokensMiss(q: string, w1: string, w2: string, question: string, answer: string)
    requires Split(q) == [w1, w2]
    requires !IsSubstring(w1, Lower(question)) && !IsSubstring(w1, Lower(answer))
    requires !IsSubstring(w2, Lower(question)) && !IsSubstring(w2, Lower(answer))
    ensures forall t | t in Split(q) :: !IsSubstring(t, Lower(question)) && !IsSubstring(t, Lower(answer))
  {
    PairMiss(Split(q), w1, w2, Lower(question), Lower(answer));
  }

  lemma PairMiss(ws: seq<string>, w1: string, w2: string, a: string, b: string)
    requires ws == [w1, w2]
    requires !IsSubstring(w1, a) && !IsSubstring(w1, b) && !IsSubstring(w2, a) && !IsSubstring(w2, b)
    ensures forall t | t in ws :: !IsSubstring(t, a) && !IsSubstring(t, b)
  {
    forall t | t in ws ensures !IsSubstring(t, a) && !IsSubstring(t, b) {
      assert t == w1 || t == w2;
    }
  }

  lemma NoMatchLower(q: string)
    requires q == "несуществующий запрос"
    ensures Lower(q) == q
  {
    forall i | 0 <= i < |q| ensures !IsUpper(q[i]) {
      assert q[i] in q;
    }
    LowerOfLower(q);
  }

  lemma NoSpaceIn(w: string)
    requires w == "несуществующий" || w == "запрос"
    ensures forall i :: 0 <= i < |w| ==> !IsSpace(w[i])
  {
    forall i | 0 <= i < |w| ensures !IsSpace(w[i]) {
      assert w[i] in w;
    }
  }

  lemma NoMatchSplit(q: string, w1: string, w2: string)
    requires q == "несуществующий запрос" && w1 == "несуществующий" && w2 == "запрос"
    ensures Split(q) == [w1, w2]
  {
    NoSpaceIn(w1);
    NoSpaceIn(w2);
    assert q == w1 + " " + w2;
    SplitTwoWords(w1, w2);
  }

  lemma OrderingKeywordsMissNoMatch(q: string, keywords: seq<string>)
    requires q == "несуществующий запрос" && keywords == ["заказ", "оформить"]
    ensures forall k | 0 <= k < |keywords| :: !IsSubstring(Lower(keywords[k]), q)
  {
    QueryNoMatchLacks(q);
    KeywordAbsent(q, keywords[0], 2, 'к');
    KeywordAbsent(q, keywords[1], 1, 'ф');
  }

  lemma OrderingMissFirstQuestion(w: string, text: string)
    requires w == "несуществующий" && text == "Как оформить заказ?"
    ensures !IsSubstring(w, Lower(text))
  {
    assert w[0] == 'н';
    OrderingQuestionLacks(text);
    TokenAbsent(w, text, 'н');
  }

  lemma OrderingMissSecondQuestion(w: string, text: string)
    requires w == "запрос" && text == "Как оформить заказ?"
    ensures !IsSubstring(w, Lower(text))
  {
    assert w[2] == 'п';
    OrderingQuestionLacks(text);
    TokenAbsent(w, text, 'п');
  }

  lemma OrderingMissFirstAnswer(w: string, text: string)
    requires w == "несуществующий" && text == "Для оформления заказа свяжитесь с менеджером"
    ensures !IsSubstring(w, Lower(text))
  {
    assert w[4] == 'щ';
    OrderingAnswerLacksShcha(text);
    TokenAbsent(w, text, 'щ');
  }

  lemma OrderingMissSecondAnswer(w: string, text: string)
    requires w == "запрос" && text == "Для оформления заказа свяжитесь с менеджером"
    ensures !IsSubstring(w, Lower(text))
  {
    assert w[2] == 'п';
    OrderingAnswerLacksPe(text);
    TokenAbsent(w, text, 'п');
  }

  lemma OrderingTextsMissNoMatch(w1: string, w2: string, question: string, answer: string)
    requires w1 == "несуществующий" && w2 == "запрос"
    requires question == "Как оформить заказ?" && answer == "Для оформления заказа свяжитесь с менеджером"
    ensures !IsSubstring(w1, Lower(question)) && !IsSubstring(w1, Lower(answer))
    ensures !IsSubstring(w2, Lower(question)) && !IsSubstring(w2, Lower(answer))
  {
    OrderingMissFirstQuestion(w1, question);
    OrderingMissSecondQuestion(w2, question);
    OrderingMissFirstAnswer(w1, answer);
    OrderingMissSecondAnswer(w2, answer);
  }

  lemma OrderingIgnoresNoMatch(q: string, w1: string, w2: string, e: FaqItem)
    requires q == "несуществующий запрос" && w1 == "несуществующий" && w2 == "запрос"
    requires e == FaqItem(1, "Как оформить заказ?", "Для оформления заказа свяжитесь с менеджером", ["заказ", "оформить"])
    ensures RelevanceScore(q, e) == 0
  {
    NoMatchSplit(q, w1, w2);
    OrderingTextsMissNoMatch(w1, w2, e.question, e.answer);
    TwoTokensMiss(q, w1, w2, e.question, e.answer);
    OrderingKeywordsMissNoMatch(q, e.keywords);
    ScoreZero(q, e);
  }

  lemma PaymentKeywordsMissNoMatch(q: string, keywords: seq<string>)
    requires q == "несуществующий запрос" && keywords == ["оплата", "карта"]
    ensures forall k | 0 <= k < |keywords| :: !IsSubstring(Lower(keywords[k]), q)
  {
    QueryNoMatchLacks(q);
    KeywordAbsent(q, keywords[0], 2, 'л');
    KeywordAbsent(q, keywords[1], 0, 'к');
  }

  lemma PaymentMissFirstQuestion(w: string, text: string)
    requires w == "несуществующий" && text == "Какие способы оплаты?"
    ensures !IsSubstring(w, Lower(text))
  {
    assert w[4] == 'щ';
    PaymentQuestionLacksShcha(text);
    TokenAbsent(w, text, 'щ');
  }

  lemma PaymentMissSecondQuestion(w: string, text: string)
    requires w == "запрос" && text == "Какие способы оплаты?"
    ensures !IsSubstring(w, Lower(text))
  {
    assert w[0] == 'з';
    PaymentQuestionLacksZe(text);
    TokenAbsent(w, text, 'з');
  }

  lemma PaymentMissFirstAnswer(w: string, text: string)
    requires w == "несуществующий" && text == "Мы принимаем карты и наличные"
    ensures !IsSubstring(w, Lower(text))
  {
    assert w[4] == 'щ';
    PaymentAnswerLacksShcha(text);
    TokenAbsent(w, text, 'щ');
  }

  lemma PaymentMissSecondAnswer(w: string, text: string)
    requires w == "запрос" && text == "Мы принимаем карты и наличные"
    ensures !IsSubstring(w, Lower(text))
  {
    assert w[0] == 'з';
    PaymentAnswerLacksZe(text);
    TokenAbsent(w, text, 'з');
  }

  lemma PaymentTextsMissNoMatch(w1: string, w2: string, question: string, answer: string)
    requires w1 == "несуществующий" && w2 == "запрос"
    requires question == "Какие способы оплаты?" && answer == "Мы принимаем карты и наличные"
    ensures !IsSubstring(w1, Lower(question)) && !IsSubstring(w1, Lower(answer))
    ensures !IsSubstring(w2, Lower(question)) && !IsSubstring(w2, Lower(answer))
  {
    PaymentMissFirstQuestion(w1, question);
    PaymentMissSecondQuestion(w2, question);
    PaymentMissFirstAnswer(w1, answer);
    PaymentMissSecondAnswer(w2, answer);
  }

  lemma PaymentIgnoresNoMatch(q: string, w1: string, w2: string, e: FaqItem)
    requires q == "несуществующий запрос" && w1 == "несуществующий" && w2 == "запрос"
    requires e == FaqItem(2, "Какие способы оплаты?", "Мы принимаем карты и наличные", ["оплата", "карта"])
    ensures RelevanceScore(q, e) == 0
  {
    NoMatchSplit(q, w1, w2);
    PaymentTextsMissNoMatch(w1, w2, e.question, e.answer);
    TwoTokensMiss(q, w1, w2, e.question, e.answer);
    PaymentKeywordsMissNoMatch(q, e.keywords);
    ScoreZero(q, e);
  }

  lemma NoMatchScoresZero(q: string, a: FaqItem, b: FaqItem)
    requires q == "несуществующий запрос"
    requires a == FaqItem(1, "Как оформить заказ?", "Для оформления заказа свяжитесь с менеджером", ["заказ", "оформить"])
    requires b == FaqItem(2, "Какие способы оплаты?", "Мы принимаем карты и наличные", ["оплата", "карта"])
    ensures RelevanceScore(Lower(q), a) == 0 && RelevanceScore(Lower(q), b) == 0
  {
    NoMatchLower(q);
    OrderingIgnoresNoMatch(q, "несуществующий", "запрос", a);
    PaymentIgnoresNoMatch(q, "несуществующий", "запрос", b);
  }

  lemma SearchPairNone(a: FaqItem, b: FaqItem, query: string, n: int)
    requires RelevanceScore(Lower(query), a) == 0 && RelevanceScore(Lower(query), b) == 0
    ensures Search([a, b], query, n) == []
  {
    SearchNoneScores([a, b], query, n);
  }

  /** A query sharing no word with the collection finds nothing. */
  lemma SearchTestFaqNoMatch()
    ensures Search(TestFaq, "несуществующий запрос", 3) == []
  {
    NoMatchScoresZero("несуществующий запрос", TestFaq[0], TestFaq[1]);
    SearchPairNone(TestFaq[0], TestFaq[1], "несуществующий запрос", 3);
    assert TestFaq == [TestFaq[0], TestFaq[1]];
  }
}
