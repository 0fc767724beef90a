/**
 * The keyword ranker and the confidence figure of the stand-alone chatbot
 * (chatbot_enhanced.py): documents are scored by how many distinct query words occur in
 * them, unmatched documents are dropped, and the rest are ranked by descending score,
 * equal scores keeping their knowledge-base order.
 */
module KeywordSearch {
  import opened PyText
  import Ranking

  /** A knowledge-base entry: `{'filename', 'type', 'content'}`. */
  datatype Doc = Doc(filename: string, docType: string, content: string)

  /** `set(query.lower().split())`. */
  function QueryWords(query: string): set<string> {
    set i | 0 <= i < |Words(Lower(query))| :: Words(Lower(query))[i]
  }

  /** The query words found in the lowercased content. */
  function Matched(words: set<string>, content: string): set<string> {
    set w | w in words && Contains(Lower(content), w)
  }

  lemma MatchedFacts(words: set<string>, content: string)
    ensures Matched(words, content) <= words
    ensures |Matched(words, content)| > 0 <==> exists w :: w in words && Contains(Lower(content), w)
  {
    if exists w :: w in words && Contains(Lower(content), w) {
      var w :| w in words && Contains(Lower(content), w);
      assert w in Matched(words, content);
    }
  }

  /** `sum(1 for word in query_words if word in content_lower)`. */
  function Score(words: set<string>, content: string): (n: nat)
    ensures n <= |words|
    ensures n > 0 <==> exists w :: w in words && Contains(Lower(content), w)
  {
    MatchedFacts(words, content);
    Subset(Matched(words, content), words);
    |Matched(words, content)|
  }

  lemma Subset(a: set<string>, b: set<string>)
    requires a <= b
    ensures |a| <= |b|
  {
    assert b == a + (b - a);
  }

  /** The entry appended to `scored_docs` for document `pos`; the key is the negated score. */
  function Entry(words: set<string>, d: Doc, pos: int): Ranking.Keyed<Doc> {
    Ranking.Keyed(-(Score(words, d.content) as real), pos, d)
  }

  /** `scored_docs` after the loop has seen `ks`: the documents with a positive score, in order. */
  function Scored(words: set<string>, ks: seq<Doc>): seq<Ranking.Keyed<Doc>> {
    if ks == [] then []
    else
      var n := |ks| - 1;
      Scored(words, ks[..n]) + (if Score(words, ks[n].content) > 0 then [Entry(words, ks[n], n)] else [])
  }

  /** `scored_docs` after the stable sort by descending score. */
  function Ranked(query: string, knowledge: seq<Doc>): seq<Ranking.Keyed<Doc>> {
    Ranking.Sort(Scored(QueryWords(query), knowledge))
  }

  function Items(s: seq<Ranking.Keyed<Doc>>): (r: seq<Doc>)
    ensures |r| == |s|
    ensures forall i :: 0 <= i < |s| ==> r[i] == s[i].item
  {
    seq(|s|, i requires 0 <= i < |s| => s[i].item)
  }

  /** `simple_search(query, knowledge, top_k)`. */
  function Search(query: string, knowledge: seq<Doc>, topK: int): seq<Doc> {
    Items(PyTake(Ranked(query, knowledge), topK))
  }

  /** Entry `e` stands for document `e.tie` of `ks`, which has a positive score. */
  predicate Describes(words: set<string>, ks: seq<Doc>, e: Ranking.Keyed<Doc>) {
    && 0 <= e.tie < |ks|
    && e == Entry(words, ks[e.tie], e.tie)
    && Score(words, ks[e.tie].content) > 0
  }

  /**
   * `scored_docs` before sorting: each entry is a scored document with its position, the
   * positions increase, and every document with a positive score has an entry.
   */
  lemma {:induction false} ScoredFacts(words: set<string>, ks: seq<Doc>)
    ensures forall i :: 0 <= i < |Scored(words, ks)| ==> Describes(words, ks, Scored(words, ks)[i])
    ensures forall i, j :: 0 <= i < j < |Scored(words, ks)| ==> Scored(words, ks)[i].tie < Scored(words, ks)[j].tie
    ensures forall p :: 0 <= p < |ks| && Score(words, ks[p].content) > 0 ==> Entry(words, ks[p], p) in Scored(words, ks)
  {
    if ks != [] {
      var n := |ks| - 1;
      var init := ks[..n];
      ScoredFacts(words, init);
      var s0 := Scored(words, init);
      var s := Scored(words, ks);
      assert forall p :: 0 <= p < n ==> ks[p] == init[p];
      forall i | 0 <= i < |s| ensures Describes(words, ks, s[i]) {
        if i < |s0| {
          assert s[i] == s0[i];
          assert Describes(words, init, s0[i]);
        }
      }
      forall p | 0 <= p < |ks| && Score(words, ks[p].content) > 0 ensures Entry(words, ks[p], p) in s {
        if p < n {
          assert Entry(words, init[p], p) in s0;
        } else {
          assert s[|s| - 1] == Entry(words, ks[p], p);
        }
      }
    }
  }

  /**
   * The ranking: every entry is a scored document; every document with a positive score
   * appears exactly once; scores do not increase along the list; and documents with equal
   * scores keep their knowledge-base order.
   */
  lemma RankedFacts(query: string, knowledge: seq<Doc>)
    ensures var words := QueryWords(query);
      forall i :: 0 <= i < |Ranked(query, knowledge)| ==> Describes(words, knowledge, Ranked(query, knowledge)[i])
    ensures var words := QueryWords(query);
      forall p :: 0 <= p < |knowledge| && Score(words, knowledge[p].content) > 0 ==>
        Entry(words, knowledge[p], p) in Ranked(query, knowledge)
    ensures forall i, j :: 0 <= i < j < |Ranked(query, knowledge)| ==>
      Ranked(query, knowledge)[i].tie != Ranked(query, knowledge)[j].tie
    ensures var words := QueryWords(query);
      forall i, j :: 0 <= i < j < |Ranked(query, knowledge)| ==>
        var a, b := Ranked(query, knowledge)[i], Ranked(query, knowledge)[j];
        Score(words, a.item.content) > Score(words, b.item.content)
        || (Score(words, a.item.content) == Score(words, b.item.content) && a.tie < b.tie)
  {
    var words := QueryWords(query);
    var s := Scored(words, knowledge);
    ScoredFacts(words, knowledge);
    Ranking.SortFacts(s);
    Ranking.SortDistinct(s);
    RankedDescribes(words, knowledge, s, Ranked(query, knowledge));
    RankedComplete(words, knowledge, s, Ranked(query, knowledge));
  }

  /** Every entry of a permutation of `scored_docs` is a scored document of the knowledge base. */
  lemma RankedDescribes(words: set<string>, knowledge: seq<Doc>, s: seq<Ranking.Keyed<Doc>>, r: seq<Ranking.Keyed<Doc>>)
    requires forall k :: 0 <= k < |s| ==> Describes(words, knowledge, s[k])
    requires multiset(r) == multiset(s)
    ensures forall i :: 0 <= i < |r| ==> Describes(words, knowledge, r[i])
  {
    forall i | 0 <= i < |r| ensures Describes(words, knowledge, r[i]) {
      assert r[i] in multiset(s);
    }
  }

  /** A permutation of `scored_docs` keeps the entry of every document with a positive score. */
  lemma RankedComplete(words: set<string>, knowledge: seq<Doc>, s: seq<Ranking.Keyed<Doc>>, r: seq<Ranking.Keyed<Doc>>)
    requires forall p :: 0 <= p < |knowledge| && Score(words, knowledge[p].content) > 0 ==> Entry(words, knowledge[p], p) in s
    requires multiset(r) == multiset(s)
    ensures forall p :: 0 <= p < |knowledge| && Score(words, knowledge[p].content) > 0 ==> Entry(words, knowledge[p], p) in r
  {
    forall p | 0 <= p < |knowledge| && Score(words, knowledge[p].content) > 0 ensures Entry(words, knowledge[p], p) in r {
      assert Entry(words, knowledge[p], p) in multiset(r);
    }
  }

  /**
   * The result: at most `top_k` documents when `top_k` is not negative, each a document of the
   * knowledge base containing at least one query word, in the ranking's order.
   */
  lemma SearchFacts(query: string, knowledge: seq<Doc>, topK: int)
    ensures topK >= 0 ==> |Search(query, knowledge, topK)| <= topK
    ensures |Search(query, knowledge, topK)| <= |knowledge|
    ensures forall i :: 0 <= i < |Search(query, knowledge, topK)| ==>
      Search(query, knowledge, topK)[i] in knowledge
      && exists w :: w in QueryWords(query) && Contains(Lower(Search(query, knowledge, topK)[i].content), w)
    ensures topK >= 0 ==> Search(query, knowledge, topK) == Items(Ranked(query, knowledge)[..Min(topK, |Ranked(query, knowledge)|)])
  {
    var words := QueryWords(query);
    var r := Ranked(query, knowledge);
    var t := PyTake(r, topK);
    RankedFacts(query, knowledge);
    Ranking.SortFacts(Scored(words, knowledge));
    RankedLength(words, knowledge);
    forall i | 0 <= i < |t| ensures t[i] in r {
      if topK >= 0 {
        assert t[i] == r[i];
      } else {
        assert t == r[..|t|];
        assert t[i] == r[i];
      }
    }
    forall i | 0 <= i < |t| ensures t[i].item in knowledge {
      assert Describes(words, knowledge, t[i]);
    }
  }

  /**
   * The slice keeps the best documents: a matching document left out of the first `top_k`
   * scores no higher than any document kept.
   */
  lemma SearchKeepsBest(query: string, knowledge: seq<Doc>, topK: int, i: int, p: int)
    requires topK >= 0
    requires 0 <= i < Min(topK, |Ranked(query, knowledge)|)
    requires 0 <= p < |knowledge| && Score(QueryWords(query), knowledge[p].content) > 0
    requires knowledge[p] !in Search(query, knowledge, topK)
    ensures Score(QueryWords(query), Search(query, knowledge, topK)[i].content) >= Score(QueryWords(query), knowledge[p].content)
  {
    var words := QueryWords(query);
    var r := Ranked(query, knowledge);
    var m := Min(topK, |r|);
    var q := RankedHas(query, knowledge, p);
    SearchPrefix(query, knowledge, topK);
    var s := Search(query, knowledge, topK);
    assert r[q].item == knowledge[p];
    assert m <= q by {
      assert forall k :: 0 <= k < m ==> s[k] != knowledge[p];
    }
    RankedOrder(query, knowledge, i, q);
  }

  /** A matching document has its entry somewhere in the ranking. */
  lemma RankedHas(query: string, knowledge: seq<Doc>, p: int) returns (q: int)
    requires 0 <= p < |knowledge| && Score(QueryWords(query), knowledge[p].content) > 0
    ensures 0 <= q < |Ranked(query, knowledge)|
    ensures Ranked(query, knowledge)[q] == Entry(QueryWords(query), knowledge[p], p)
  {
    RankedFacts(query, knowledge);
    q :| 0 <= q < |Ranked(query, knowledge)| && Ranked(query, knowledge)[q] == Entry(QueryWords(query), knowledge[p], p);
  }

  /** Earlier in the ranking means a score at least as high. */
  lemma RankedOrder(query: string, knowledge: seq<Doc>, i: int, j: int)
    requires 0 <= i < j < |Ranked(query, knowledge)|
    ensures Score(QueryWords(query), Ranked(query, knowledge)[i].item.content)
         >= Score(QueryWords(query), Ranked(query, knowledge)[j].item.content)
  {
    RankedFacts(query, knowledge);
  }

  /** With `top_k >= 0` the result is the items of the ranking's first `min(top_k, len)` entries. */
  lemma SearchPrefix(query: string, knowledge: seq<Doc>, topK: int)
    requires topK >= 0
    ensures |Search(query, knowledge, topK)| == Min(topK, |Ranked(query, knowledge)|)
    ensures forall k :: 0 <= k < |Search(query, knowledge, topK)| ==>
      Search(query, knowledge, topK)[k] == Ranked(query, knowledge)[k].item
  {
  }

  lemma {:induction false} RankedLength(words: set<string>, ks: seq<Doc>)
    ensures |Scored(words, ks)| <= |ks|
  {
    if ks != [] {
      RankedLength(words, ks[..|ks| - 1]);
    }
  }

  /** The loop of `simple_search` that fills `scored_docs`, then the sort and the `top_k` slice. */
  method SimpleSearch(query: string, knowledge: seq<Doc>, topK: int) returns (docs: seq<Doc>)
    ensures docs == Search(query, knowledge, topK)
  {
    var words := QueryWords(query);
    var scoredDocs: seq<Ranking.Keyed<Doc>> := [];
    for i := 0 to |knowledge|
      invariant scoredDocs == Scored(words, knowledge[..i])
    {
      assert knowledge[..i + 1][..i] == knowledge[..i];
      var score := Score(words, knowledge[i].content);
      if score > 0 {
        scoredDocs := scoredDocs + [Ranking.Keyed(-(score as real), i, knowledge[i])];
      }
    }
    assert knowledge[..|knowledge|] == knowledge;
    var ranked := Ranking.Sort(scoredDocs);
    var top := PyTake(ranked, topK);
    docs := [];
    for i := 0 to |top|
      invariant docs == Items(top[..i])
    {
      docs := docs + [top[i].item];
    }
    assert top[..|top|] == top;
  }

  /** The confidence shown beside the results: 25 per document and 15 per historical match, capped at 100. */
  function Confidence(docs: nat, insights: nat): (c: int)
    ensures 0 <= c <= 100
    ensures c <= 25 * docs + 15 * insights
    ensures c == 100 || c == 25 * docs + 15 * insights
  {
    Min(100, docs * 25 + insights * 15)
  }

  /** More documents or more matches never lower the confidence. */
  lemma ConfidenceMonotone(d1: nat, i1: nat, d2: nat, i2: nat)
    requires d1 <= d2 && i1 <= i2
    ensures Confidence(d1, i1) <= Confidence(d2, i2)
  {
  }
}
