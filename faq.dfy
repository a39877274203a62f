/**
 * The knowledge-base manager: an ordered, in-memory list of entries that is
 * searched, looked up by id, extended, patched and filtered. Writing the
 * list to its document is an outcome the caller supplies (`saved`); the
 * in-memory change is kept whether or not the write succeeds.
 */
module Faq {
  import opened Wrappers
  import opened Text
  import opened FaqEntry
  import opened Relevance
  import opened FaqSearch

  /** What reading the knowledge-base document produced. */
  datatype Stored =
    | Document(items: seq<FaqItem>)   // the document's "faq" list
    | NoDocument(written: bool)       // no document; whether writing the default one succeeded
    | Unreadable                      // the document is not valid JSON, or reading failed

  /** Index of the first entry carrying `id`. */
  function IndexOfId(data: seq<FaqItem>, id: int): (r: Option<nat>)
    ensures r.Some? ==> r.value < |data| && data[r.value].id == id
    ensures r.Some? ==> forall j :: 0 <= j < r.value ==> data[j].id != id
    ensures r.None? <==> !HasId(data, id)
  {
    if data == [] then None
    else if data[0].id == id then Some(0)
    else match IndexOfId(data[1..], id)
      case Some(k) => Some(k + 1)
      case None => None
  }

  /** `max(ids, default=0)`. */
  function MaxId(data: seq<FaqItem>): (m: int)
    ensures forall i :: 0 <= i < |data| ==> data[i].id <= m
    ensures data == [] ==> m == 0
    ensures data != [] ==> exists i :: 0 <= i < |data| && data[i].id == m
  {
    if data == [] then 0
    else if |data| == 1 then data[0].id
    else
      var m := MaxId(data[..|data| - 1]);
      var last := data[|data| - 1].id;
      if last > m then last else m
  }

  /** The id an added entry receives: one more than the largest id in use. */
  function NextId(data: seq<FaqItem>): int {
    MaxId(data) + 1
  }

  /** The next id is carried by no entry. */
  lemma NextIdFresh(data: seq<FaqItem>)
    ensures !HasId(data, NextId(data))
    ensures forall i :: 0 <= i < |data| ==> data[i].id < NextId(data)
  {
  }

  /** One supplied keyword, stripped, or nothing when it is blank. */
  function Cleaned(w: string): (r: seq<string>)
    ensures |r| <= 1
  {
    if Strip(w) != [] then [Strip(w)] else []
  }

  lemma CleanedFrom(k: string, w: string)
    requires w in Cleaned(k)
    ensures w == Strip(k) && w != []
  {
  }

  /** The supplied keywords, stripped, with the empty and all-blank ones dropped. */
  function CleanKeywords(keywords: seq<string>): (r: seq<string>)
    ensures |r| <= |keywords|
  {
    FlatMapLength(Cleaned, keywords);
    FlatMap(Cleaned, keywords)
  }

  /** Cleaning works keyword by keyword, keeping the order and the repeats:
      it distributes over concatenation... */
  lemma CleanKeywordsAppend(a: seq<string>, b: seq<string>)
    ensures CleanKeywords(a + b) == CleanKeywords(a) + CleanKeywords(b)
  {
    FlatMapAppend(Cleaned, a, b);
  }

  /** ...and keeps one keyword, stripped, exactly when it is not blank. */
  lemma CleanKeywordsSingle(w: string)
    ensures CleanKeywords([w]) == if Strip(w) != [] then [Strip(w)] else []
  {
    FlatMapSingle(Cleaned, w);
  }

  /** A cleaned keyword is non-empty and has no surrounding whitespace. */
  lemma CleanKeywordsStripped(keywords: seq<string>, w: string)
    requires w in CleanKeywords(keywords)
    ensures w != [] && Strip(w) == w
  {
    var j := FlatMapFrom(Cleaned, keywords, w);
    CleanedFrom(keywords[j], w);
    StripIdempotent(keywords[j]);
  }

  /** Every cleaned keyword is the stripped form of a supplied one. */
  lemma CleanKeywordsSound(keywords: seq<string>, w: string)
    requires w in CleanKeywords(keywords)
    ensures exists j :: 0 <= j < |keywords| && w == Strip(keywords[j])
  {
    var j := FlatMapFrom(Cleaned, keywords, w);
    CleanedFrom(keywords[j], w);
  }

  /** Every non-blank keyword survives cleaning. */
  lemma CleanKeywordsKeeps(keywords: seq<string>, j: int)
    requires 0 <= j < |keywords| && Strip(keywords[j]) != []
    ensures Strip(keywords[j]) in CleanKeywords(keywords)
  {
    assert Strip(keywords[j]) in Cleaned(keywords[j]);
    FlatMapKeeps(Cleaned, keywords, j, Strip(keywords[j]));
  }

  /** The entry with only the supplied fields replaced. */
  function Patch(item: FaqItem, question: Option<string>, answer: Option<string>, keywords: Option<seq<string>>): FaqItem {
    FaqItem(item.id, question.GetOr(item.question), answer.GetOr(item.answer), keywords.GetOr(item.keywords))
  }

  /** The collection without the entries carrying `id`, the rest in order. */
  function WithoutId(data: seq<FaqItem>, id: int): (r: seq<FaqItem>)
    ensures |r| <= |data|
    ensures forall x :: x in r <==> x in data && x.id != id
    ensures |r| < |data| <==> HasId(data, id)
  {
    if data == [] then []
    else (if data[0].id != id then [data[0]] else []) + WithoutId(data[1..], id)
  }

  /** Deleting works entry by entry, keeping the rest in order: it
      distributes over concatenation... */
  lemma {:induction false} WithoutIdAppend(a: seq<FaqItem>, b: seq<FaqItem>, id: int)
    ensures WithoutId(a + b, id) == WithoutId(a, id) + WithoutId(b, id)
  {
    if a == [] {
      assert a + b == b;
    } else {
      var ab := a + b;
      assert ab[0] == a[0] && ab[1..] == a[1..] + b;
      WithoutIdAppend(a[1..], b, id);
    }
  }

  /** ...and keeps one entry exactly when it does not carry the id. */
  lemma WithoutIdSingle(x: FaqItem, id: int)
    ensures WithoutId([x], id) == if x.id != id then [x] else []
  {
    assert [x][1..] == [];
  }

  /** Sum of the keyword-list lengths. */
  function TotalKeywords(data: seq<FaqItem>): nat {
    if data == [] then 0 else |data[0].keywords| + TotalKeywords(data[1..])
  }

  lemma {:induction false} TotalKeywordsAppend(data: seq<FaqItem>, x: FaqItem)
    ensures TotalKeywords(data + [x]) == TotalKeywords(data) + |x.keywords|
  {
    if data != [] {
      assert (data + [x])[1..] == data[1..] + [x];
      TotalKeywordsAppend(data[1..], x);
    }
  }

  /** Deleting an id nobody carries leaves the collection as it was. */
  lemma {:induction false} WithoutAbsentId(data: seq<FaqItem>, id: int)
    requires !HasId(data, id)
    ensures WithoutId(data, id) == data
  {
    if data != [] {
      assert data[0].id != id;
      assert !HasId(data[1..], id) by {
        forall i | 0 <= i < |data| - 1 ensures data[1..][i].id != id {
          assert data[1..][i] == data[i + 1];
        }
      }
      WithoutAbsentId(data[1..], id);
      assert data == [data[0]] + data[1..];
    }
  }

  /** After a patch the entry is still the first one carrying `id`. */
  lemma PatchKeepsIndex(data: seq<FaqItem>, id: int, question: Option<string>, answer: Option<string>, keywords: Option<seq<string>>)
    requires IndexOfId(data, id).Some?
    ensures var k := IndexOfId(data, id).value;
      IndexOfId(data[k := Patch(data[k], question, answer, keywords)], id) == Some(k)
  {
    var k := IndexOfId(data, id).value;
    var d := data[k := Patch(data[k], question, answer, keywords)];
    assert d[k].id == id;
    assert forall j :: 0 <= j < k ==> d[j] == data[j];
  }

  /** The entry appended by an addition is the one found under its id. */
  lemma AddedIsFound(data: seq<FaqItem>, x: FaqItem)
    requires x.id == NextId(data)
    ensures IndexOfId(data + [x], x.id) == Some(|data|)
  {
    var d := data + [x];
    NextIdFresh(data);
    assert forall j :: 0 <= j < |data| ==> d[j].id != x.id by {
      assert forall j :: 0 <= j < |data| ==> d[j] == data[j];
    }
    IndexOfFirstId(d, x.id, |data|);
  }

  /** The index found is the first one carrying the id. */
  lemma IndexOfFirstId(data: seq<FaqItem>, id: int, n: int)
    requires 0 <= n < |data| && data[n].id == id
    requires forall j :: 0 <= j < n ==> data[j].id != id
    ensures IndexOfId(data, id) == Some(n)
  {
    assert HasId(data, id);
    var r := IndexOfId(data, id);
    assert r.Some? && r.value < |data| && data[r.value].id == id;
  }

  class FaqManager {
    var faqData: seq<FaqItem>

    /** Loads the collection: the document's list; the five default entries
        when there is no document and writing them out succeeded; otherwise empty. */
    constructor(stored: Stored)
      ensures faqData == match stored
        case Document(items) => items
        case NoDocument(written) => if written then DefaultFaq else []
        case Unreadable => []
    {
      match stored
      case Document(items) => faqData := items;
      case NoDocument(written) => faqData := if written then DefaultFaq else [];
      case Unreadable => faqData := [];
    }

    /** Scores every entry, keeps the positive ones, sorts them by descending
        score (stable) and returns at most `maxResults` of them. */
    method SearchFaq(query: string, maxResults: int) returns (results: seq<FaqItem>)
      ensures results == Search(faqData, query, maxResults)
    {
      if query == [] || faqData == [] {
        return [];
      }
      var q := Lower(query);
      var scored: seq<Scored> := [];
      for i := 0 to |faqData|
        invariant scored == ScoreAll(faqData[..i], ScoreFor(q))
      {
        var score := CalculateRelevanceScore(q, faqData[i]);
        if score > 0 {
          scored := scored + [Scored(score, faqData[i])];
        }
        ScoreAllAppend(faqData[..i], faqData[i], ScoreFor(q));
        assert faqData[..i + 1] == faqData[..i] + [faqData[i]];
      }
      assert faqData[..|faqData|] == faqData;
      var ranked := SortByScoreDesc(scored);
      results := Items(PyTake(ranked, maxResults));
    }

    /** A copy of the whole collection, in order. */
    method GetAllFaq() returns (all: seq<FaqItem>)
      ensures all == faqData
    {
      all := faqData;
    }

    /** The first entry carrying `id`, or nothing. */
    method GetFaqById(id: int) returns (r: Option<FaqItem>)
      ensures r.Some? <==> HasId(faqData, id)
      ensures r.Some? ==> r == Some(faqData[IndexOfId(faqData, id).value])
    {
      for i := 0 to |faqData|
        invariant forall j :: 0 <= j < i ==> faqData[j].id != id
      {
        if faqData[i].id == id {
          return Some(faqData[i]);
        }
      }
      return None;
    }

    /** Appends a new entry with the next free id and the stripped question
        and answer; a blank question or answer is refused and nothing changes.
        The result on success is the outcome of saving. */
    method AddFaqItem(question: string, answer: string, keywords: Option<seq<string>>, saved: bool) returns (ok: bool)
      modifies this
      ensures Strip(question) == [] || Strip(answer) == [] ==> !ok && faqData == old(faqData)
      ensures Strip(question) != [] && Strip(answer) != [] ==>
                ok == saved
                && faqData == old(faqData)
                   + [FaqItem(NextId(old(faqData)), Strip(question), Strip(answer), CleanKeywords(keywords.GetOr([])))]
    {
      if Strip(question) == [] {
        return false;
      }
      if Strip(answer) == [] {
        return false;
      }
      var kws := CleanKeywords(keywords.GetOr([]));
      var newId := MaxId(faqData) + 1;
      faqData := faqData + [FaqItem(newId, Strip(question), Strip(answer), kws)];
      ok := saved;
    }

    /** Replaces the supplied fields of the first entry carrying `id`; an
        unknown id changes nothing and reports failure. */
    method UpdateFaqItem(id: int, question: Option<string>, answer: Option<string>, keywords: Option<seq<string>>, saved: bool)
      returns (ok: bool)
      modifies this
      ensures IndexOfId(old(faqData), id).None? ==> !ok && faqData == old(faqData)
      ensures IndexOfId(old(faqData), id).Some? ==>
                var k := IndexOfId(old(faqData), id).value;
                ok == saved && faqData == old(faqData)[k := Patch(old(faqData)[k], question, answer, keywords)]
    {
      for i := 0 to |faqData|
        invariant forall j :: 0 <= j < i ==> faqData[j].id != id
        invariant faqData == old(faqData)
      {
        if faqData[i].id == id {
          faqData := faqData[i := Patch(faqData[i], question, answer, keywords)];
          return saved;
        }
      }
      return false;
    }

    /** Removes every entry carrying `id`; succeeds only when something was
        removed and saving succeeded. */
    method DeleteFaqItem(id: int, saved: bool) returns (ok: bool)
      modifies this
      ensures faqData == WithoutId(old(faqData), id)
      ensures ok == (HasId(old(faqData), id) && saved)
    {
      var originalLength := |faqData|;
      faqData := WithoutId(faqData, id);
      ok := |faqData| < originalLength && saved;
    }

    /** Number of entries and total number of keywords. */
    method GetFaqStats() returns (totalItems: nat, totalKeywords: nat)
      ensures totalItems == |faqData| && totalKeywords == TotalKeywords(faqData)
    {
      totalItems := |faqData|;
      totalKeywords := 0;
      for i := 0 to |faqData|
        invariant totalKeywords + TotalKeywords(faqData[i..]) == TotalKeywords(faqData)
      {
        assert faqData[i..][1..] == faqData[i + 1..];
        totalKeywords := totalKeywords + |faqData[i].keywords|;
      }
    }
  }
}
