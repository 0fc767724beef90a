/**
 * Similarity search over the index (src/retrieval/vector_store.py). The FAISS `IndexFlatL2`
 * search is an exhaustive one over exact reals: the `k` stored vectors nearest to the query
 * by squared Euclidean distance, nearest first, equal distances by stored position, and
 * slots beyond the stored vectors filled with index -1 at the largest float32 value, as FAISS
 * fills them. The distances are then scaled into similarities and filtered.
 */
module VectorStore {
  import opened Wrappers
  import opened Meta
  import Config
  import Ranking
  import opened Indexer

  /** The largest finite float32, the distance FAISS reports for an empty result slot. */
  const FloatMax: real := 340282346638528859811704183484516925440.0

  /** Squared Euclidean distance. */
  function SqDist(a: seq<real>, b: seq<real>): (r: real)
    ensures r >= 0.0
    decreases |a|
  {
    if a == [] || b == [] then 0.0
    else (a[0] - b[0]) * (a[0] - b[0]) + SqDist(a[1..], b[1..])
  }

  /** A vector is at distance 0 from itself. */
  lemma {:induction false} SqDistSelf(a: seq<real>)
    ensures SqDist(a, a) == 0.0
  {
    if a != [] {
      SqDistSelf(a[1..]);
    }
  }

  /** One row of the search output: a stored position (or -1) and its distance. */
  datatype Candidate = Candidate(index: int, distance: real)

  /** Every stored vector keyed by its distance to `q`, with its position as tie-breaker and item. */
  function Scored(ix: FlatIndex, q: seq<real>): seq<Ranking.Keyed<int>> {
    seq(|ix.vectors|, p requires 0 <= p < |ix.vectors| => Ranking.Keyed(SqDist(q, ix.vectors[p]), p, p))
  }

  /** The `k` result rows of an exhaustive search. */
  function Nearest(ix: FlatIndex, q: seq<real>, k: nat): seq<Candidate> {
    var ranked := Ranking.Sort(Scored(ix, q));
    seq(k, j requires 0 <= j < k =>
      if j < |ranked| then Candidate(ranked[j].item, ranked[j].key) else Candidate(-1, FloatMax))
  }

  function Indices(cs: seq<Candidate>): set<int> {
    set i | 0 <= i < |cs| :: cs[i].index
  }

  /** Each ranked entry is a stored position keyed by its own distance. */
  lemma RankedEntry(ix: FlatIndex, q: seq<real>, j: nat)
    requires j < |Ranking.Sort(Scored(ix, q))|
    ensures var e := Ranking.Sort(Scored(ix, q))[j];
      0 <= e.item < |ix.vectors| && e.tie == e.item && e.key == SqDist(q, ix.vectors[e.item])
  {
    var s := Scored(ix, q);
    var r := Ranking.Sort(s);
    Ranking.SortFacts(s);
    assert r[j] in multiset(s);
    var p :| 0 <= p < |s| && s[p] == r[j];
  }

  /** The first `min(k, ntotal)` rows are stored positions with their true distances, the rest empty slots. */
  lemma NearestEntries(ix: FlatIndex, q: seq<real>, k: nat)
    ensures var cs := Nearest(ix, q, k);
      && |cs| == k
      && (forall j :: 0 <= j < k ==> (cs[j].index == -1 <==> j >= |ix.vectors|))
      && (forall j :: 0 <= j < k && j >= |ix.vectors| ==> cs[j].distance == FloatMax)
      && (forall j :: 0 <= j < k && j < |ix.vectors| ==>
            0 <= cs[j].index < |ix.vectors| && cs[j].distance == SqDist(q, ix.vectors[cs[j].index]))
  {
    var cs := Nearest(ix, q, k);
    Ranking.SortFacts(Scored(ix, q));
    forall j | 0 <= j < k && j < |ix.vectors|
      ensures 0 <= cs[j].index < |ix.vectors| && cs[j].distance == SqDist(q, ix.vectors[cs[j].index])
    {
      RankedEntry(ix, q, j);
    }
  }

  /** The stored positions returned come in ascending distance and are distinct. */
  lemma NearestOrder(ix: FlatIndex, q: seq<real>, k: nat)
    ensures var cs := Nearest(ix, q, k);
      && (forall i, j :: 0 <= i < j < k && j < |ix.vectors| ==> cs[i].distance <= cs[j].distance)
      && (forall i, j :: 0 <= i < j < k && j < |ix.vectors| ==> cs[i].index != cs[j].index)
  {
    var s := Scored(ix, q);
    var r := Ranking.Sort(s);
    var cs := Nearest(ix, q, k);
    Ranking.SortFacts(s);
    Ranking.SortDistinct(s);
    forall i, j | 0 <= i < j < k && j < |ix.vectors|
      ensures cs[i].distance <= cs[j].distance && cs[i].index != cs[j].index
    {
      assert Ranking.Le(r[i], r[j]);
      RankedEntry(ix, q, i);
      RankedEntry(ix, q, j);
      assert r[i].tie != r[j].tie;
    }
  }

  /** No stored vector that is not returned is nearer than a returned one. */
  lemma NearestOptimal(ix: FlatIndex, q: seq<real>, k: nat)
    ensures var cs := Nearest(ix, q, k);
      forall p, j :: 0 <= p < |ix.vectors| && p !in Indices(cs) && 0 <= j < k && j < |ix.vectors| ==>
        cs[j].distance <= SqDist(q, ix.vectors[p])
  {
    var s := Scored(ix, q);
    var r := Ranking.Sort(s);
    var cs := Nearest(ix, q, k);
    Ranking.SortFacts(s);
    forall p, j | 0 <= p < |ix.vectors| && p !in Indices(cs) && 0 <= j < k && j < |ix.vectors|
      ensures cs[j].distance <= SqDist(q, ix.vectors[p])
    {
      assert s[p] in multiset(r);
      var m :| 0 <= m < |r| && r[m] == s[p];
      assert m >= k by {
        forall i | 0 <= i < k && i < |r| ensures r[i].item != p {
          assert cs[i].index in Indices(cs);
        }
      }
      Ranking.PrefixPrecedes(r, j + 1, m);
    }
  }

  datatype SearchError =
    | NotLoaded        // "Vector store not loaded. Call load() first."
    | NoIndex          // "No index available"
    | NonPositiveK     // rejected by the FAISS search
    | WrongDimension   // a query whose length is not the index dimension, rejected by FAISS

  /** `index.search(query, k)`, including the checks the library makes on its arguments. */
  function FlatSearch(ix: FlatIndex, q: seq<real>, k: int): (r: Result<seq<Candidate>, SearchError>)
    ensures r.Success? ==> |r.value| == k > 0
  {
    if |q| != ix.d then Failure(WrongDimension)
    else if k <= 0 then Failure(NonPositiveK)
    else Success(Nearest(ix, q, k))
  }

  /** `np.max` of the distances. */
  function MaxDistance(cs: seq<Candidate>): (m: real)
    requires cs != []
    ensures forall i :: 0 <= i < |cs| ==> cs[i].distance <= m
    ensures exists i :: 0 <= i < |cs| && cs[i].distance == m
  {
    if |cs| == 1 then cs[0].distance
    else
      var rest := MaxDistance(cs[1..]);
      assert forall i :: 1 <= i < |cs| ==> cs[i] == cs[1..][i - 1];
      if cs[0].distance >= rest then cs[0].distance else rest
  }

  /** `max_distance`: the largest distance, or 1.0 when that is not positive. */
  function Scale(cs: seq<Candidate>): (m: real)
    requires cs != []
    ensures m > 0.0
  {
    var top := MaxDistance(cs);
    if top > 0.0 then top else 1.0
  }

  function Similarity(distance: real, scale: real): real
    requires scale > 0.0
  {
    1.0 - distance / scale
  }

  /** For non-negative distances every similarity lies in [0, 1]. */
  lemma SimilarityBounds(cs: seq<Candidate>)
    requires cs != []
    requires forall i :: 0 <= i < |cs| ==> cs[i].distance >= 0.0
    ensures forall i :: 0 <= i < |cs| ==> 0.0 <= Similarity(cs[i].distance, Scale(cs)) <= 1.0
  {
    var m := Scale(cs);
    forall i | 0 <= i < |cs| ensures 0.0 <= Similarity(cs[i].distance, m) <= 1.0 {
      var d := cs[i].distance;
      if MaxDistance(cs) > 0.0 {
        Ratio(d, m);
      } else {
        assert d == 0.0;
      }
    }
  }

  lemma Ratio(d: real, m: real)
    requires 0.0 <= d <= m && m > 0.0
    ensures 0.0 <= d / m <= 1.0
  {
  }

  /** When the largest distance is positive the farthest row scores 0, so a positive threshold drops it. */
  lemma FarthestScoresZero(cs: seq<Candidate>, md: seq<Metadata>, threshold: real)
    requires cs != [] && MaxDistance(cs) > 0.0
    ensures forall i :: 0 <= i < |cs| && cs[i].distance == MaxDistance(cs) ==>
      Similarity(cs[i].distance, Scale(cs)) == 0.0
    ensures threshold > 0.0 ==> forall i :: 0 <= i < |cs| && cs[i].distance == MaxDistance(cs) ==>
      !Kept(cs, i, md, Scale(cs), threshold)
  {
  }

  /** One entry of the result list. */
  datatype SearchResult = SearchResult(rank: int, index: int, distance: real, similarity: real, metadata: Metadata)

  /** Row `i` is kept: its label is a metadata position and its similarity reaches the threshold. */
  predicate Kept(cs: seq<Candidate>, i: nat, md: seq<Metadata>, scale: real, threshold: real)
    requires i < |cs| && scale > 0.0
  {
    0 <= cs[i].index < |md| && Similarity(cs[i].distance, scale) >= threshold
  }

  /** The result built from row `i`. */
  function Hit(cs: seq<Candidate>, i: nat, md: seq<Metadata>, scale: real): SearchResult
    requires i < |cs| && 0 <= cs[i].index < |md| && scale > 0.0
  {
    var c := cs[i];
    SearchResult(i + 1, c.index, c.distance, Similarity(c.distance, scale), md[c.index])
  }

  /** The results from the first `n` rows. */
  function Hits(cs: seq<Candidate>, md: seq<Metadata>, scale: real, threshold: real, n: nat): seq<SearchResult>
    requires n <= |cs| && scale > 0.0
  {
    if n == 0 then []
    else
      Hits(cs, md, scale, threshold, n - 1)
        + (if Kept(cs, n - 1, md, scale, threshold) then [Hit(cs, n - 1, md, scale)] else [])
  }

  /** Each result is the hit of a kept row among the first `n`, numbered by its rank. */
  lemma {:induction false} HitsSound(cs: seq<Candidate>, md: seq<Metadata>, scale: real, threshold: real, n: nat)
    requires n <= |cs| && scale > 0.0
    ensures forall h :: h in Hits(cs, md, scale, threshold, n) ==>
      1 <= h.rank <= n && Kept(cs, h.rank - 1, md, scale, threshold) && h == Hit(cs, h.rank - 1, md, scale)
  {
    if n > 0 {
      HitsSound(cs, md, scale, threshold, n - 1);
    }
  }

  /** The results' ranks increase. */
  predicate RanksIncrease(hs: seq<SearchResult>) {
    forall a, b :: 0 <= a < b < |hs| ==> hs[a].rank < hs[b].rank
  }

  /** The results' distances do not decrease. */
  predicate DistancesAscend(hs: seq<SearchResult>) {
    forall a, b :: 0 <= a < b < |hs| ==> hs[a].distance <= hs[b].distance
  }

  /** Rows are visited in order and each yields at most one result, so ranks increase. */
  lemma {:induction false} HitsRanksIncrease(cs: seq<Candidate>, md: seq<Metadata>, scale: real, threshold: real, n: nat)
    requires n <= |cs| && scale > 0.0
    ensures RanksIncrease(Hits(cs, md, scale, threshold, n))
  {
    if n > 0 {
      var prev := Hits(cs, md, scale, threshold, n - 1);
      var hs := Hits(cs, md, scale, threshold, n);
      HitsRanksIncrease(cs, md, scale, threshold, n - 1);
      HitsSound(cs, md, scale, threshold, n - 1);
      if Kept(cs, n - 1, md, scale, threshold) {
        assert hs == prev + [Hit(cs, n - 1, md, scale)];
        forall a, b | 0 <= a < b < |hs| ensures hs[a].rank < hs[b].rank {
          if b == |prev| {
            assert hs[a] in prev;
          } else {
            assert hs[a] == prev[a] && hs[b] == prev[b];
          }
        }
      } else {
        assert hs == prev;
      }
    }
  }

  /** Every kept row among the first `n` yields a result. */
  lemma {:induction false} HitsComplete(cs: seq<Candidate>, md: seq<Metadata>, scale: real, threshold: real, n: nat)
    requires n <= |cs| && scale > 0.0
    ensures forall i :: 0 <= i < n && Kept(cs, i, md, scale, threshold) ==>
      Hit(cs, i, md, scale) in Hits(cs, md, scale, threshold, n)
  {
    if n > 0 {
      HitsComplete(cs, md, scale, threshold, n - 1);
    }
  }

  /** The post-processing of the rows: similarities scaled by the largest distance, then filtered. */
  function PostProcess(cs: seq<Candidate>, md: seq<Metadata>, threshold: real): seq<SearchResult>
    requires cs != []
  {
    Hits(cs, md, Scale(cs), threshold, |cs|)
  }

  /** `search` once the store is loaded and has an index. */
  function SearchIndex(ix: FlatIndex, md: seq<Metadata>, q: seq<real>, k: int, threshold: real): Result<seq<SearchResult>, SearchError> {
    match FlatSearch(ix, q, k)
    case Failure(e) => Failure(e)
    case Success(cs) => Success(PostProcess(cs, md, threshold))
  }

  /** Every result of a successful search is a stored position with metadata, at its true distance, scoring within [threshold, 1]. */
  lemma SearchResultFacts(ix: FlatIndex, md: seq<Metadata>, q: seq<real>, k: int, threshold: real)
    requires SearchIndex(ix, md, q, k, threshold).Success?
    ensures var hs := SearchIndex(ix, md, q, k, threshold).value;
      && |hs| <= k
      && forall h :: h in hs ==>
            && 0 <= h.index < |md| && h.index < |ix.vectors|
            && h.metadata == md[h.index]
            && h.distance == SqDist(q, ix.vectors[h.index])
            && threshold <= h.similarity && 0.0 <= h.similarity <= 1.0
            && 1 <= h.rank <= k
  {
    var cs := FlatSearch(ix, q, k).value;
    assert cs == Nearest(ix, q, k);
    var scale := Scale(cs);
    var hs := Hits(cs, md, scale, threshold, |cs|);
    NearestEntries(ix, q, k);
    HitsSound(cs, md, scale, threshold, |cs|);
    SimilarityBounds(cs);
    HitsLength(cs, md, scale, threshold, |cs|);
    forall h | h in hs
      ensures h.index < |ix.vectors| && h.distance == SqDist(q, ix.vectors[h.index])
    {
      assert cs[h.rank - 1].index >= 0;
    }
  }

  /** Rows holding a stored position are no nearer than any row before them. */
  predicate AscendingRows(cs: seq<Candidate>) {
    forall i, j :: 0 <= i < j < |cs| && cs[j].index >= 0 ==> cs[i].distance <= cs[j].distance
  }

  lemma NearestAscending(ix: FlatIndex, q: seq<real>, k: nat)
    ensures AscendingRows(Nearest(ix, q, k))
  {
    NearestEntries(ix, q, k);
    NearestOrder(ix, q, k);
  }

  /** Filtering keeps the order of the rows. */
  lemma HitsAscending(cs: seq<Candidate>, md: seq<Metadata>, scale: real, threshold: real, n: nat)
    requires n <= |cs| && scale > 0.0
    requires AscendingRows(cs)
    ensures RanksIncrease(Hits(cs, md, scale, threshold, n))
    ensures DistancesAscend(Hits(cs, md, scale, threshold, n))
  {
    var hs := Hits(cs, md, scale, threshold, n);
    HitsSound(cs, md, scale, threshold, n);
    HitsRanksIncrease(cs, md, scale, threshold, n);
    forall a, b | 0 <= a < b < |hs| ensures hs[a].distance <= hs[b].distance {
      var ha, hb := hs[a], hs[b];
      assert ha in hs && hb in hs;
      var i, j := ha.rank - 1, hb.rank - 1;
      assert i < j && cs[j].index >= 0;
      assert ha.distance == cs[i].distance && hb.distance == cs[j].distance;
    }
  }

  /** The results of a successful search keep the search order: increasing ranks, non-decreasing distances. */
  lemma SearchOrder(ix: FlatIndex, md: seq<Metadata>, q: seq<real>, k: int, threshold: real)
    requires SearchIndex(ix, md, q, k, threshold).Success?
    ensures RanksIncrease(SearchIndex(ix, md, q, k, threshold).value)
    ensures DistancesAscend(SearchIndex(ix, md, q, k, threshold).value)
  {
    var cs := FlatSearch(ix, q, k).value;
    assert cs == Nearest(ix, q, k);
    NearestAscending(ix, q, k);
    HitsAscending(cs, md, Scale(cs), threshold, |cs|);
  }

  lemma {:induction false} HitsLength(cs: seq<Candidate>, md: seq<Metadata>, scale: real, threshold: real, n: nat)
    requires n <= |cs| && scale > 0.0
    ensures |Hits(cs, md, scale, threshold, n)| <= n
  {
    if n > 0 {
      HitsLength(cs, md, scale, threshold, n - 1);
    }
  }

  /** `get_chunk_text`: the metadata's `text` value, or a placeholder. */
  function ChunkText(h: SearchResult): MetaValue {
    if "text" in h.metadata then h.metadata["text"] else Str("[Text not available]")
  }

  /**
   * Entries built by the indexer keep the text under `chunk_text`, so for a chunk whose own
   * metadata has no `text` key the placeholder is returned.
   */
  lemma ChunkTextOfIndexedChunk(h: SearchResult, c: Chunker.TextChunk)
    requires h.metadata == Entry(c) && "text" !in c.metadata
    ensures ChunkText(h) == Str("[Text not available]")
    ensures "chunk_text" in h.metadata && h.metadata["chunk_text"] == Str(c.text)
  {
  }

  /** `get_stats` of the store. */
  datatype StoreStats = NotLoadedStatus | Loaded(stats: IndexStats)

  class VectorStore {
    const indexer: VectorIndexer
    var loaded: bool

    constructor()
      ensures fresh(indexer) && indexer.index == None && indexer.metadata == [] && !loaded
    {
      indexer := new VectorIndexer();
      loaded := false;
    }

    /** Once loaded, the store has an index. */
    predicate Valid()
      reads this, indexer
    {
      loaded ==> indexer.index.Some?
    }

    /** `load`: the indexer's `load_index`; the store counts as loaded only once that returned normally. */
    method Load(disk: Disk, indexPath: Option<string>, metadataPath: Option<string>, settings: Config.Settings)
      returns (r: Result<(), IndexError>)
      modifies this, indexer
      ensures LoadStep(indexer.index, indexer.metadata, r)
           == LoadFiles(old(indexer.index), old(indexer.metadata), disk,
                        indexPath.GetOr(settings.faissIndexPath), metadataPath.GetOr(settings.metadataPath))
      ensures loaded == (old(loaded) || r.Success?)
      ensures old(Valid()) ==> Valid()
    {
      r := indexer.LoadIndex(disk, indexPath, metadataPath, settings);
      if r.Success? {
        loaded := true;
      }
    }

    /** What `search` returns in the current state. */
    function Query(q: seq<real>, topK: Option<int>, threshold: Option<real>, settings: Config.Settings)
      : Result<seq<SearchResult>, SearchError>
      reads this, indexer
    {
      if !loaded then Failure(NotLoaded)
      else if indexer.index == None then Failure(NoIndex)
      else SearchIndex(indexer.index.value, indexer.metadata, q,
                       topK.GetOr(settings.topKResults), threshold.GetOr(settings.similarityThreshold))
    }

    /**
     * `search`: fails unless loaded and holding an index; `top_k` and the threshold default to
     * the settings; otherwise the post-processed exhaustive search.
     */
    method Search(q: seq<real>, topK: Option<int>, threshold: Option<real>, settings: Config.Settings)
      returns (r: Result<seq<SearchResult>, SearchError>)
      ensures !loaded ==> r == Failure(NotLoaded)
      ensures loaded && indexer.index == None ==> r == Failure(NoIndex)
      ensures loaded && indexer.index.Some? ==>
        r == SearchIndex(indexer.index.value, indexer.metadata, q,
                         topK.GetOr(settings.topKResults), threshold.GetOr(settings.similarityThreshold))
      ensures Valid() ==> r != Failure(NoIndex)
      ensures r == Query(q, topK, threshold, settings)
    {
      if !loaded {
        return Failure(NotLoaded);
      }
      if indexer.index == None {
        return Failure(NoIndex);
      }
      var k := topK.GetOr(settings.topKResults);
      var th := threshold.GetOr(settings.similarityThreshold);
      var found := FlatSearch(indexer.index.value, q, k);
      if found.Failure? {
        return Failure(found.error);
      }
      var cs := found.value;
      var scale := Scale(cs);
      var results: seq<SearchResult> := [];
      for idx := 0 to |cs|
        invariant results == Hits(cs, indexer.metadata, scale, th, idx)
      {
        var c := cs[idx];
        if c.index < 0 || c.index >= |indexer.metadata| {
          continue;
        }
        var similarity := Similarity(c.distance, scale);
        if similarity < th {
          continue;
        }
        results := results + [SearchResult(idx + 1, c.index, c.distance, similarity, indexer.metadata[c.index])];
      }
      return Success(results);
    }

    /** `get_stats`: a status entry before loading, the indexer's statistics after. */
    function Stats(): (s: StoreStats)
      reads this, indexer
      ensures s.NotLoadedStatus? <==> !loaded
      ensures s.Loaded? ==> s.stats == indexer.Stats()
      ensures Valid() && s.Loaded? ==> s.stats.IndexStats?
    {
      if !loaded then NotLoadedStatus else Loaded(indexer.Stats())
    }
  }
}
