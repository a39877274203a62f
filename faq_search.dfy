/**
 * What a knowledge-base search returns: the entries with a positive score,
 * ordered by descending score with ties kept in collection order (Python's
 * stable `list.sort(key=..., reverse=True)`), cut to `max_results` by the
 * slice `[:max_results]`.
 */
module FaqSearch {
  import opened Text
  import opened FaqEntry
  import opened Relevance

  /** An entry paired with its score, as the search collects them. */
  datatype Scored = Scored(score: nat, item: FaqItem)

  /** The entries of `data` that score above zero under `score`, with their scores, in collection order. */
  function ScoreAll(data: seq<FaqItem>, score: FaqItem -> nat): seq<Scored> {
    if data == [] then []
    else
      var s := score(data[0]);
      (if s > 0 then [Scored(s, data[0])] else []) + ScoreAll(data[1..], score)
  }

  function Items(s: seq<Scored>): (r: seq<FaqItem>)
    ensures |r| == |s| && forall i :: 0 <= i < |s| ==> r[i] == s[i].item
  {
    seq(|s|, i requires 0 <= i < |s| => s[i].item)
  }

  /** The entries of `data` that score above zero under `score`, in collection order. */
  function Positives(data: seq<FaqItem>, score: FaqItem -> nat): seq<FaqItem> {
    if data == [] then []
    else (if score(data[0]) > 0 then [data[0]] else []) + Positives(data[1..], score)
  }

  /** The pairs whose score is `k`, in order. */
  function WithScore(s: seq<Scored>, k: nat): seq<Scored> {
    if s == [] then []
    else (if s[0].score == k then [s[0]] else []) + WithScore(s[1..], k)
  }

  /** The entries that score exactly `k` under `score`, in order. */
  function ItemsWithScore(items: seq<FaqItem>, score: FaqItem -> nat, k: nat): seq<FaqItem> {
    if items == [] then []
    else (if score(items[0]) == k then [items[0]] else []) + ItemsWithScore(items[1..], score, k)
  }

  predicate NonIncreasing(s: seq<Scored>) {
    forall i, j :: 0 <= i < j < |s| ==> s[i].score >= s[j].score
  }

  /** Every pair carries the score `score` gives its entry. */
  predicate Consistent(s: seq<Scored>, score: FaqItem -> nat) {
    forall i :: 0 <= i < |s| ==> s[i].score == score(s[i].item)
  }

  predicate IsPrefix<T(==)>(a: seq<T>, b: seq<T>) {
    |a| <= |b| && b[..|a|] == a
  }

  // ---------------------------------------------------------------- stable sort

  /** Puts `x` in front of the first element that does not outscore it. */
  function InsertByScore(x: Scored, r: seq<Scored>): seq<Scored> {
    if r == [] || x.score >= r[0].score then [x] + r
    else [r[0]] + InsertByScore(x, r[1..])
  }

  /** Descending sort by score that keeps equal scores in their original order. */
  function SortByScoreDesc(s: seq<Scored>): seq<Scored> {
    if s == [] then [] else InsertByScore(s[0], SortByScoreDesc(s[1..]))
  }

  lemma {:induction false} InsertByScorePermutes(x: Scored, r: seq<Scored>)
    ensures multiset(InsertByScore(x, r)) == multiset(r) + multiset{x}
  {
    if r != [] && x.score < r[0].score {
      InsertByScorePermutes(x, r[1..]);
      assert r == [r[0]] + r[1..];
    }
  }

  lemma {:induction false} InsertByScorePermutesItems(x: Scored, r: seq<Scored>)
    ensures multiset(Items(InsertByScore(x, r))) == multiset(Items(r)) + multiset{x.item}
  {
    if r != [] && x.score < r[0].score {
      var tail := r[1..];
      var rest := InsertByScore(x, tail);
      InsertByScorePermutesItems(x, tail);
      ItemsCons(r[0], rest);
      assert r == [r[0]] + tail;
      ItemsCons(r[0], tail);
      assert multiset(Items(InsertByScore(x, r))) == multiset{r[0].item} + multiset(Items(rest));
    } else {
      ItemsCons(x, r);
    }
  }

  lemma ItemsCons(a: Scored, s: seq<Scored>)
    ensures Items([a] + s) == [a.item] + Items(s)
  {
    assert Items([a] + s)[1..] == Items(s);
  }

  /** No pair of `s` scores above `b`. */
  predicate AllAtMost(s: seq<Scored>, b: nat) {
    forall i :: 0 <= i < |s| ==> s[i].score <= b
  }

  lemma {:induction false} InsertByScoreAtMost(x: Scored, r: seq<Scored>, b: nat)
    requires AllAtMost(r, b) && x.score <= b
    ensures AllAtMost(InsertByScore(x, r), b)
  {
    if r != [] && x.score < r[0].score {
      InsertByScoreAtMost(x, r[1..], b);
    }
  }

  lemma {:induction false} InsertByScoreSorted(x: Scored, r: seq<Scored>)
    requires NonIncreasing(r)
    ensures NonIncreasing(InsertByScore(x, r))
  {
    if r != [] && x.score < r[0].score {
      var rest := InsertByScore(x, r[1..]);
      InsertByScoreSorted(x, r[1..]);
      InsertByScoreAtMost(x, r[1..], r[0].score);
      var t := [r[0]] + rest;
      forall i, j | 0 <= i < j < |t| ensures t[i].score >= t[j].score {
        if i > 0 {
          assert t[i] == rest[i - 1] && t[j] == rest[j - 1];
        } else {
          assert t[j] == rest[j - 1];
        }
      }
    } else {
      var t := [x] + r;
      forall i, j | 0 <= i < j < |t| ensures t[i].score >= t[j].score {
        if i > 0 {
          assert t[i] == r[i - 1] && t[j] == r[j - 1];
        } else {
          assert t[j] == r[j - 1];
        }
      }
    }
  }

  lemma {:induction false} SortByScoreDescSorted(s: seq<Scored>)
    ensures NonIncreasing(SortByScoreDesc(s))
  {
    if s != [] {
      SortByScoreDescSorted(s[1..]);
      InsertByScoreSorted(s[0], SortByScoreDesc(s[1..]));
    }
  }

  lemma {:induction false} SortByScoreDescPermutes(s: seq<Scored>)
    ensures multiset(SortByScoreDesc(s)) == multiset(s)
  {
    if s != [] {
      SortByScoreDescPermutes(s[1..]);
      InsertByScorePermutes(s[0], SortByScoreDesc(s[1..]));
      assert s == [s[0]] + s[1..];
    }
  }

  lemma {:induction false} SortByScoreDescPermutesItems(s: seq<Scored>)
    ensures multiset(Items(SortByScoreDesc(s))) == multiset(Items(s))
  {
    if s != [] {
      SortByScoreDescPermutesItems(s[1..]);
      InsertByScorePermutesItems(s[0], SortByScoreDesc(s[1..]));
      assert Items(s) == [s[0].item] + Items(s[1..]);
    }
  }

  /** Inserting `x` adds it to its own score class, in front of the pairs of that class. */
  lemma {:induction false} InsertByScoreWithScore(x: Scored, r: seq<Scored>, k: nat)
    requires NonIncreasing(r)
    ensures WithScore(InsertByScore(x, r), k) == (if x.score == k then [x] else []) + WithScore(r, k)
  {
    var hx: seq<Scored> := if x.score == k then [x] else [];
    if r == [] || x.score >= r[0].score {
      var ins := [x] + r;
      assert ins[0] == x && ins[1..] == r;
      assert WithScore(ins, k) == hx + WithScore(r, k);
    } else {
      var h0: seq<Scored> := if r[0].score == k then [r[0]] else [];
      var t := InsertByScore(x, r[1..]);
      var ins := [r[0]] + t;
      assert ins[0] == r[0] && ins[1..] == t;
      assert WithScore(ins, k) == h0 + WithScore(t, k);
      assert WithScore(r, k) == h0 + WithScore(r[1..], k);
      InsertByScoreWithScore(x, r[1..], k);
      if x.score == k {
        assert h0 == [];
        assert WithScore(ins, k) == hx + WithScore(r[1..], k);
      } else {
        assert hx == [];
        assert WithScore(ins, k) == h0 + WithScore(r[1..], k);
      }
    }
  }

  /** Stability: within every score class the sorted order is the original order. */
  lemma {:induction false} SortByScoreDescStable(s: seq<Scored>, k: nat)
    ensures WithScore(SortByScoreDesc(s), k) == WithScore(s, k)
  {
    if s != [] {
      SortByScoreDescStable(s[1..], k);
      SortByScoreDescSorted(s[1..]);
      InsertByScoreWithScore(s[0], SortByScoreDesc(s[1..]), k);
    }
  }

  // ---------------------------------------------------------------- filters and concatenation

  lemma {:induction false} ScoreAllAppend(data: seq<FaqItem>, x: FaqItem, score: FaqItem -> nat)
    ensures ScoreAll(data + [x], score)
      == ScoreAll(data, score) + (if score(x) > 0 then [Scored(score(x), x)] else [])
  {
    if data == [] {
      assert data + [x] == [x];
    } else {
      var s0 := score(data[0]);
      var head: seq<Scored> := if s0 > 0 then [Scored(s0, data[0])] else [];
      assert (data + [x])[0] == data[0] && (data + [x])[1..] == data[1..] + [x];
      ScoreAllAppend(data[1..], x, score);
      assert ScoreAll(data + [x], score) == head + ScoreAll(data[1..] + [x], score);
    }
  }

  lemma {:induction false} ItemsAppend(a: seq<Scored>, b: seq<Scored>)
    ensures Items(a + b) == Items(a) + Items(b)
  {
  }

  lemma {:induction false} WithScoreAppend(a: seq<Scored>, b: seq<Scored>, k: nat)
    ensures WithScore(a + b, k) == WithScore(a, k) + WithScore(b, k)
  {
    if a == [] {
      assert a + b == b;
    } else {
      var head: seq<Scored> := if a[0].score == k then [a[0]] else [];
      var ab := a + b;
      assert ab[0] == a[0] && ab[1..] == a[1..] + b;
      assert WithScore(ab, k) == head + WithScore(a[1..] + b, k);
      WithScoreAppend(a[1..], b, k);
      var ta, tb := WithScore(a[1..], k), WithScore(b, k);
      assert WithScore(a, k) == head + ta;
      ConcatAssoc(head, ta, tb);
    }
  }

  lemma {:induction false} ScoreAllFacts(data: seq<FaqItem>, score: FaqItem -> nat)
    ensures Consistent(ScoreAll(data, score), score)
    ensures forall i :: 0 <= i < |ScoreAll(data, score)| ==> ScoreAll(data, score)[i].score > 0
    ensures Items(ScoreAll(data, score)) == Positives(data, score)
  {
    if data != [] {
      ScoreAllFacts(data[1..], score);
      var s := score(data[0]);
      var head: seq<Scored> := if s > 0 then [Scored(s, data[0])] else [];
      ItemsAppend(head, ScoreAll(data[1..], score));
    }
  }

  /** For a consistent list, filtering pairs by score and filtering entries by score agree. */
  lemma {:induction false} ItemsOfWithScore(s: seq<Scored>, score: FaqItem -> nat, k: nat)
    requires Consistent(s, score)
    ensures Items(WithScore(s, k)) == ItemsWithScore(Items(s), score, k)
  {
    if s != [] {
      ItemsOfWithScore(s[1..], score, k);
      var head: seq<Scored> := if s[0].score == k then [s[0]] else [];
      ItemsAppend(head, WithScore(s[1..], k));
      assert Items(s)[1..] == Items(s[1..]);
    }
  }

  lemma {:induction false} PositivesWithScore(data: seq<FaqItem>, score: FaqItem -> nat, k: nat)
    requires k > 0
    ensures ItemsWithScore(Positives(data, score), score, k) == ItemsWithScore(data, score, k)
  {
    if data != [] {
      PositivesWithScore(data[1..], score, k);
      var head: seq<FaqItem> := if score(data[0]) > 0 then [data[0]] else [];
      ItemsWithScoreAppend(head, Positives(data[1..], score), score, k);
    }
  }

  lemma ConcatAssoc<T>(a: seq<T>, b: seq<T>, c: seq<T>)
    ensures a + (b + c) == (a + b) + c
  {
  }

  lemma {:induction false} ItemsWithScoreAppend(a: seq<FaqItem>, b: seq<FaqItem>, score: FaqItem -> nat, k: nat)
    ensures ItemsWithScore(a + b, score, k) == ItemsWithScore(a, score, k) + ItemsWithScore(b, score, k)
  {
    if a == [] {
      assert a + b == b;
    } else {
      var head: seq<FaqItem> := if score(a[0]) == k then [a[0]] else [];
      var ab := a + b;
      assert ab[0] == a[0] && ab[1..] == a[1..] + b;
      assert ItemsWithScore(ab, score, k) == head + ItemsWithScore(a[1..] + b, score, k);
      ItemsWithScoreAppend(a[1..], b, score, k);
      var ta, tb := ItemsWithScore(a[1..], score, k), ItemsWithScore(b, score, k);
      assert ItemsWithScore(a, score, k) == head + ta;
      ConcatAssoc(head, ta, tb);
    }
  }

  lemma {:induction false} PositivesSound(data: seq<FaqItem>, score: FaqItem -> nat)
    ensures forall x :: x in Positives(data, score) ==> x in data && score(x) > 0
  {
    if data != [] {
      PositivesSound(data[1..], score);
    }
  }

  // ---------------------------------------------------------------- the search

  /** The scorer for one lower-cased query, as a function of the entry. */
  function ScoreFor(q: string): FaqItem -> nat {
    x => RelevanceScore(q, x)
  }

  /** The ranking the search cuts: positive-score entries by descending score, ties in collection order. */
  function Ranked(data: seq<FaqItem>, q: string): seq<Scored> {
    SortByScoreDesc(ScoreAll(data, ScoreFor(q)))
  }

  /** `search_faq(query, max_results)` over the collection `data`. */
  function Search(data: seq<FaqItem>, query: string, maxResults: int): (r: seq<FaqItem>)
    ensures query == [] || data == [] ==> r == []
    ensures 0 <= maxResults ==> |r| <= maxResults
    ensures query != [] && data != [] ==> IsPrefix(r, Items(Ranked(data, Lower(query))))
    ensures query != [] && 0 <= maxResults ==>
              var positives := |Positives(data, ScoreFor(Lower(query)))|;
              |r| == if maxResults <= positives then maxResults else positives
  {
    if query == [] || data == [] then []
    else
      var ranked := Ranked(data, Lower(query));
      RankedLength(data, Lower(query));
      var cut := PyTake(ranked, maxResults);
      assert Items(cut) == Items(ranked)[..|cut|];
      Items(cut)
  }

  /** The ranking holds as many pairs as there are positive entries. */
  lemma RankedLength(data: seq<FaqItem>, q: string)
    ensures |Ranked(data, q)| == |Positives(data, ScoreFor(q))|
  {
    RankedFacts(data, q);
    assert |multiset(Items(Ranked(data, q)))| == |multiset(Positives(data, ScoreFor(q)))|;
  }

  lemma RankedFacts(data: seq<FaqItem>, q: string)
    ensures NonIncreasing(Ranked(data, q))
    ensures Consistent(Ranked(data, q), ScoreFor(q))
    ensures multiset(Items(Ranked(data, q))) == multiset(Positives(data, ScoreFor(q)))
  {
    var all := ScoreAll(data, ScoreFor(q));
    SortByScoreDescSorted(all);
    SortByScoreDescPermutes(all);
    SortByScoreDescPermutesItems(all);
    ScoreAllFacts(data, ScoreFor(q));
    var ranked := Ranked(data, q);
    forall i | 0 <= i < |ranked| ensures ranked[i].score == ScoreFor(q)(ranked[i].item) {
      assert ranked[i] in multiset(all);
    }
  }

  /** Every ranked entry is an entry of the collection with a positive score. */
  lemma RankedSound(data: seq<FaqItem>, q: string)
    ensures forall x :: x in Items(Ranked(data, q)) ==> x in data && RelevanceScore(q, x) > 0
  {
    var all := ScoreAll(data, ScoreFor(q));
    SortByScoreDescPermutesItems(all);
    ScoreAllFacts(data, ScoreFor(q));
    PositivesSound(data, ScoreFor(q));
    forall x | x in Items(Ranked(data, q)) ensures x in data && RelevanceScore(q, x) > 0 {
      assert x in multiset(Items(Ranked(data, q)));
      assert x in multiset(Positives(data, ScoreFor(q)));
    }
  }

  /** Every returned entry is an entry of the collection with a positive score. */
  lemma SearchSound(data: seq<FaqItem>, query: string, maxResults: int)
    ensures forall x :: x in Search(data, query, maxResults) ==>
              x in data && RelevanceScore(Lower(query), x) > 0
  {
    if query != [] && data != [] {
      var q := Lower(query);
      var ranked := Ranked(data, q);
      var r := Search(data, query, maxResults);
      RankedSound(data, q);
      forall x | x in r ensures x in data && RelevanceScore(q, x) > 0 {
        var i :| 0 <= i < |r| && r[i] == x;
        assert x == Items(ranked)[i];
      }
    }
  }

  /** Results come in non-increasing score order. */
  lemma SearchOrdered(data: seq<FaqItem>, query: string, maxResults: int)
    ensures var r := Search(data, query, maxResults);
      forall i, j :: 0 <= i < j < |r| ==> RelevanceScore(Lower(query), r[i]) >= RelevanceScore(Lower(query), r[j])
  {
    if query != [] && data != [] {
      RankedFacts(data, Lower(query));
    }
  }

  /** No element with score `k`, no element in the filtered list. */
  lemma {:induction false} ItemsWithScoreNone(items: seq<FaqItem>, score: FaqItem -> nat, k: nat)
    requires forall x :: x in items ==> score(x) != k
    ensures ItemsWithScore(items, score, k) == []
  {
    if items != [] {
      assert forall x :: x in items[1..] ==> x in items;
      ItemsWithScoreNone(items[1..], score, k);
    }
  }

  /** Ties keep collection order: for every score, the results with that score
      are the first entries of the collection with that score. */
  lemma SearchStable(data: seq<FaqItem>, query: string, maxResults: int, k: nat)
    ensures IsPrefix(ItemsWithScore(Search(data, query, maxResults), ScoreFor(Lower(query)), k),
                     ItemsWithScore(data, ScoreFor(Lower(query)), k))
  {
    var q := Lower(query);
    if k == 0 {
      SearchSound(data, query, maxResults);
      ItemsWithScoreNone(Search(data, query, maxResults), ScoreFor(q), 0);
    } else if query != [] && data != [] {
      var all := ScoreAll(data, ScoreFor(q));
      var ranked := Ranked(data, q);
      var cut := PyTake(ranked, maxResults);
      var rest := ranked[|cut|..];
      assert ranked == cut + rest;
      RankedFacts(data, q);
      ScoreAllFacts(data, ScoreFor(q));
      assert Consistent(cut, ScoreFor(q));
      ItemsOfWithScore(cut, ScoreFor(q), k);
      WithScoreAppend(cut, rest, k);
      ItemsAppend(WithScore(cut, k), WithScore(rest, k));
      SortByScoreDescStable(all, k);
      ItemsOfWithScore(all, ScoreFor(q), k);
      PositivesWithScore(data, ScoreFor(q), k);
    } else {
      assert Search(data, query, maxResults) == [];
    }
  }

  /** Cutting a sorted list after `m` pairs: an entry that is not among the
      kept ones sits at some later position `j`, which no kept pair outscores. */
  lemma CutDropsLowest(ranked: seq<Scored>, m: nat, r: seq<FaqItem>, x: FaqItem) returns (j: int)
    requires m <= |ranked| && NonIncreasing(ranked)
    requires r == Items(ranked[..m])
    requires x in multiset(Items(ranked)) - multiset(r)
    ensures m <= j < |ranked| && ranked[j].item == x
    ensures forall i :: 0 <= i < m ==> ranked[i].score >= ranked[j].score
  {
    var tail := ranked[m..];
    DroppedIsInTail(ranked, m, r, x);
    var k :| 0 <= k < |tail| && Items(tail)[k] == x;
    j := m + k;
    assert tail[k] == ranked[j];
  }

  /** An entry of the whole list that is not among the first `m` is in the rest. */
  lemma DroppedIsInTail(ranked: seq<Scored>, m: nat, r: seq<FaqItem>, x: FaqItem)
    requires m <= |ranked| && r == Items(ranked[..m])
    requires x in multiset(Items(ranked)) - multiset(r)
    ensures x in Items(ranked[m..])
  {
    var tail := ranked[m..];
    assert ranked == ranked[..m] + tail;
    ItemsAppend(ranked[..m], tail);
    assert multiset(Items(ranked)) == multiset(r) + multiset(Items(tail));
  }

  /** Cutting a sorted, consistently scored list: a dropped entry scores no
      more than any kept one. */
  lemma CutKeepsHighest(ranked: seq<Scored>, m: nat, r: seq<FaqItem>, x: FaqItem, score: FaqItem -> nat)
    requires m <= |ranked| && NonIncreasing(ranked) && Consistent(ranked, score)
    requires r == Items(ranked[..m])
    requires x in multiset(Items(ranked)) - multiset(r)
    ensures forall y :: y in r ==> score(y) >= score(x)
  {
    var j := CutDropsLowest(ranked, m, r, x);
    forall y | y in r ensures score(y) >= score(x) {
      var i :| 0 <= i < m && r[i] == y;
      assert ranked[..m][i] == ranked[i];
    }
  }

  /** Nothing is cut in favour of a lower score: an entry left out of the
      result scores no more than any entry kept. */
  lemma SearchKeepsHighest(data: seq<FaqItem>, query: string, maxResults: int, x: FaqItem)
    requires x in multiset(Positives(data, ScoreFor(Lower(query)))) - multiset(Search(data, query, maxResults))
    ensures forall y :: y in Search(data, query, maxResults) ==>
              RelevanceScore(Lower(query), y) >= RelevanceScore(Lower(query), x)
  {
    if query != [] && data != [] {
      var q := Lower(query);
      var ranked := Ranked(data, q);
      var m := |PyTake(ranked, maxResults)|;
      var r := Search(data, query, maxResults);
      assert r == Items(ranked[..m]);
      RankedFacts(data, q);
      CutKeepsHighest(ranked, m, r, x, ScoreFor(q));
    }
  }

  /** When `max_results` does not cut, every positive-score entry is returned. */
  lemma SearchComplete(data: seq<FaqItem>, query: string, maxResults: int)
    requires query != [] && |Positives(data, ScoreFor(Lower(query)))| <= maxResults
    ensures multiset(Search(data, query, maxResults)) == multiset(Positives(data, ScoreFor(Lower(query))))
  {
    var q := Lower(query);
    RankedFacts(data, q);
    var ranked := Ranked(data, q);
    assert |multiset(Items(ranked))| == |multiset(Positives(data, ScoreFor(q)))|;
    assert PyTake(ranked, maxResults) == ranked;
    if data == [] {
      assert Positives(data, ScoreFor(q)) == [];
    }
  }
}
