/**
 * Query-time retrieval (src/retrieval/retriever.py): embed the query, search the store, and
 * turn the results into the context passed to the language model.
 */
module Retriever {
  import opened Wrappers
  import opened PyText
  import opened Meta
  import Config
  import Embedder
  import Indexer
  import VectorStore

  /** The context returned when the search finds nothing. */
  const NoInformation := "No relevant information found in the knowledge base."

  /** The text used for a result whose metadata has no `chunk_text`. */
  const NoChunkText := "[Chunk text not available]"

  datatype RetrievalError =
    | EmbedFailed(embedError: Embedder.EmbedError)
    | SearchFailed(searchError: VectorStore.SearchError)
    | MissingKey(key: string)      // KeyError on a metadata lookup
    | NotAString(key: string)      // a metadata value used where the code needs a string

  /** `RetrievalResult`: the query, the search results used and the formatted context. */
  datatype RetrievalResult = RetrievalResult(query: string, chunks: seq<VectorStore.SearchResult>, context: string)

  // ---------------------------------------------------------------------------------------
  // Sources

  predicate StrictlySorted(s: seq<string>) {
    forall i, j :: 0 <= i < j < |s| ==> StrLess(s[i], s[j])
  }

  /** Adds `x` to a set of strings kept as a strictly ascending list. */
  function AddSorted(x: string, s: seq<string>): seq<string> {
    if s == [] then [x]
    else if x == s[0] then s
    else if StrLess(x, s[0]) then [x] + s
    else [s[0]] + AddSorted(x, s[1..])
  }

  lemma {:induction false} AddSortedFacts(x: string, s: seq<string>)
    requires StrictlySorted(s)
    ensures StrictlySorted(AddSorted(x, s))
    ensures forall y :: y in AddSorted(x, s) <==> y == x || y in s
  {
    if s != [] && x != s[0] {
      if StrLess(x, s[0]) {
        var r := [x] + s;
        forall i, j | 0 <= i < j < |r| ensures StrLess(r[i], r[j]) {
          if i == 0 && j > 1 {
            StrLessTransitive(x, s[0], s[j - 1]);
          }
        }
      } else {
        StrLessTotal(x, s[0]);
        AddSortedFacts(x, s[1..]);
        var t := AddSorted(x, s[1..]);
        var r := [s[0]] + t;
        forall i, j | 0 <= i < j < |r| ensures StrLess(r[i], r[j]) {
          if i == 0 {
            assert r[j] in t;
            if r[j] != x {
              assert r[j] in s[1..];
              var k :| 0 <= k < |s[1..]| && s[1..][k] == r[j];
              assert s[k + 1] == r[j];
            }
          } else {
            assert r[i] == t[i - 1] && r[j] == t[j - 1];
          }
        }
      }
    }
  }

  /** Two strictly ascending lists with the same elements are equal: the sorted list of a set is unique. */
  lemma {:induction false} SortedUnique(a: seq<string>, b: seq<string>)
    requires StrictlySorted(a) && StrictlySorted(b)
    requires forall y :: y in a <==> y in b
    ensures a == b
  {
    assert a != [] ==> a[0] in b;
    assert b != [] ==> b[0] in a;
    if a != [] && b != [] {
      assert a[0] in b && b[0] in a;
      if a[0] != b[0] {
        var i :| 0 <= i < |a| && a[i] == b[0];
        var j :| 0 <= j < |b| && b[j] == a[0];
        assert StrLess(a[0], a[i]) && StrLess(b[0], b[j]);
        StrLessAsymmetric(a[0], b[0]);
        assert false;
      }
      forall y ensures y in a[1..] <==> y in b[1..] {
        if y in a[1..] {
          var i :| 1 <= i < |a| && a[i] == y;
          assert StrLess(a[0], y);
          StrLessIrreflexive(y);
          assert y in b && y != b[0];
          var j :| 0 <= j < |b| && b[j] == y;
          assert b[1..][j - 1] == y;
        }
        if y in b[1..] {
          var j :| 1 <= j < |b| && b[j] == y;
          assert StrLess(b[0], y);
          StrLessIrreflexive(y);
          assert y in a && y != a[0];
          var i :| 0 <= i < |a| && a[i] == y;
          assert a[1..][i - 1] == y;
        }
      }
      assert StrictlySorted(a[1..]) && StrictlySorted(b[1..]) by {
        forall i, j | 0 <= i < j < |a| - 1 ensures StrLess(a[1..][i], a[1..][j]) {
          assert a[1..][i] == a[i + 1] && a[1..][j] == a[j + 1];
        }
        forall i, j | 0 <= i < j < |b| - 1 ensures StrLess(b[1..][i], b[1..][j]) {
          assert b[1..][i] == b[i + 1] && b[1..][j] == b[j + 1];
        }
      }
      SortedUnique(a[1..], b[1..]);
      assert a == [a[0]] + a[1..] && b == [b[0]] + b[1..];
    }
  }

  /** `chunk['metadata']['filename']`, which must be present; a non-string filename is a failure. */
  function Filename(r: VectorStore.SearchResult): Result<string, RetrievalError> {
    if "filename" !in r.metadata then Failure(MissingKey("filename"))
    else match r.metadata["filename"]
      case Str(f) => Success(f)
      case _ => Failure(NotAString("filename"))
  }

  /** `sorted(list(sources))` after the first `n` chunks were added to the set. */
  function SourcesUpTo(chunks: seq<VectorStore.SearchResult>, n: nat): Result<seq<string>, RetrievalError>
    requires n <= |chunks|
  {
    if n == 0 then Success([])
    else match SourcesUpTo(chunks, n - 1)
      case Failure(e) => Failure(e)
      case Success(s) =>
        match Filename(chunks[n - 1])
        case Failure(e) => Failure(e)
        case Success(f) => Success(AddSorted(f, s))
  }

  function Sources(chunks: seq<VectorStore.SearchResult>): Result<seq<string>, RetrievalError> {
    SourcesUpTo(chunks, |chunks|)
  }

  /** Some chunk among the first `n` comes from file `f`. */
  predicate NamedIn(chunks: seq<VectorStore.SearchResult>, n: nat, f: string)
    requires n <= |chunks|
  {
    exists i :: 0 <= i < n && Filename(chunks[i]) == Success(f)
  }

  /**
   * The source list exists exactly when every chunk names a file, and then it is strictly
   * ascending (no repeats) and holds exactly the files the chunks name.
   */
  lemma {:induction false} SourcesFacts(chunks: seq<VectorStore.SearchResult>, n: nat)
    requires n <= |chunks|
    ensures SourcesUpTo(chunks, n).Success? <==> forall i :: 0 <= i < n ==> Filename(chunks[i]).Success?
    ensures SourcesUpTo(chunks, n).Success? ==>
      StrictlySorted(SourcesUpTo(chunks, n).value)
      && forall f :: f in SourcesUpTo(chunks, n).value <==> NamedIn(chunks, n, f)
  {
    if n > 0 {
      SourcesFacts(chunks, n - 1);
      if SourcesUpTo(chunks, n).Success? {
        var s := SourcesUpTo(chunks, n - 1).value;
        var x := Filename(chunks[n - 1]).value;
        AddSortedFacts(x, s);
        forall f ensures f in AddSorted(x, s) <==> NamedIn(chunks, n, f) {
          if NamedIn(chunks, n, f) {
            var i :| 0 <= i < n && Filename(chunks[i]) == Success(f);
            if i < n - 1 {
              assert NamedIn(chunks, n - 1, f);
            }
          }
          if f in s {
            var i :| 0 <= i < n - 1 && Filename(chunks[i]) == Success(f);
          }
        }
      }
    }
  }

  /** `get_sources`: the chunks' filenames collected into a set, then sorted. */
  method GetSources(chunks: seq<VectorStore.SearchResult>) returns (r: Result<seq<string>, RetrievalError>)
    ensures r == Sources(chunks)
  {
    var sources: seq<string> := [];
    for i := 0 to |chunks|
      invariant SourcesUpTo(chunks, i) == Success(sources)
    {
      var f := Filename(chunks[i]);
      if f.Failure? {
        FailureSticks(chunks, i + 1, |chunks|);
        return Failure(f.error);
      }
      sources := AddSorted(f.value, sources);
    }
    r := Success(sources);
  }

  /** Once the source list fails it stays failed. */
  lemma {:induction false} FailureSticks(chunks: seq<VectorStore.SearchResult>, n: nat, m: nat)
    requires n <= m <= |chunks|
    requires SourcesUpTo(chunks, n).Failure?
    ensures SourcesUpTo(chunks, m) == SourcesUpTo(chunks, n)
    decreases m - n
  {
    if m > n {
      FailureSticks(chunks, n, m - 1);
    }
  }

  /** `to_dict`. */
  datatype RetrievalDict = RetrievalDict(query: string, numChunks: nat, sources: seq<string>, context: string)

  function ToDict(r: RetrievalResult): (d: Result<RetrievalDict, RetrievalError>)
    ensures d.Success? <==> Sources(r.chunks).Success?
    ensures d.Success? ==>
      && d.value.numChunks == |r.chunks| && d.value.sources == Sources(r.chunks).value
      && d.value.query == r.query && d.value.context == r.context
  {
    match Sources(r.chunks)
    case Failure(e) => Failure(e)
    case Success(s) => Success(RetrievalDict(r.query, |r.chunks|, s, r.context))
  }

  // ---------------------------------------------------------------------------------------
  // Context

  /** `"[Document {i}] Source: {filename} (Type: {doc_type})"`; both keys must be present. */
  function Header(i: int, md: Metadata): Result<string, RetrievalError> {
    if "filename" !in md then Failure(MissingKey("filename"))
    else if "doc_type" !in md then Failure(MissingKey("doc_type"))
    else Success("[Document " + IntToString(i) + "] Source: " + Display(md["filename"])
                 + " (Type: " + Display(md["doc_type"]) + ")")
  }

  /** `metadata.get('chunk_text', '[Chunk text not available]')`: whatever is stored, or the placeholder. */
  function ChunkText(md: Metadata): MetaValue {
    if "chunk_text" in md then md["chunk_text"] else Str(NoChunkText)
  }

  /** The parts appended for the `i`-th result (1-based); only the header's lookups can fail. */
  function EntryParts(i: int, md: Metadata, withMetadata: bool): (r: Result<seq<MetaValue>, RetrievalError>)
    ensures r.Success? <==> Formattable(md, withMetadata)
    ensures r.Failure? ==> r.error.MissingKey?
  {
    if !withMetadata then Success([ChunkText(md), Str("")])
    else match Header(i, md)
      case Failure(e) => Failure(e)
      case Success(h) => Success([Str(h), Str(Repeat('-', |h|)), ChunkText(md), Str("")])
  }

  /** The parts appended for the first `n` results. */
  function Parts(results: seq<VectorStore.SearchResult>, withMetadata: bool, n: nat): Result<seq<MetaValue>, RetrievalError>
    requires n <= |results|
  {
    if n == 0 then Success([])
    else match Parts(results, withMetadata, n - 1)
      case Failure(e) => Failure(e)
      case Success(ps) =>
        match EntryParts(n, results[n - 1].metadata, withMetadata)
        case Failure(e) => Failure(e)
        case Success(es) => Success(ps + es)
  }

  predicate AllStr(ps: seq<MetaValue>) {
    forall k :: 0 <= k < |ps| ==> ps[k].Str?
  }

  /**
   * The items `"\n".join` accepts: all of them strings, or its `TypeError`. Headers, dash lines
   * and empty lines are strings, so only a chunk text can be refused.
   */
  function Strings(ps: seq<MetaValue>): (r: Result<seq<string>, RetrievalError>)
    ensures r.Success? <==> AllStr(ps)
    ensures r.Success? ==> |r.value| == |ps| && forall k :: 0 <= k < |ps| ==> r.value[k] == ps[k].s
    ensures r.Failure? ==> r.error == NotAString("chunk_text")
  {
    if ps == [] then Success([])
    else if !ps[0].Str? then Failure(NotAString("chunk_text"))
    else match Strings(ps[1..])
      case Failure(e) => Failure(e)
      case Success(rest) => Success([ps[0].s] + rest)
  }

  /** `_format_context`: the parts collected by the loop, then joined by newlines. */
  function Context(results: seq<VectorStore.SearchResult>, withMetadata: bool): Result<string, RetrievalError> {
    match Parts(results, withMetadata, |results|)
    case Failure(e) => Failure(e)
    case Success(ps) =>
      match Strings(ps)
      case Failure(e) => Failure(e)
      case Success(ss) => Success(Join(ss, "\n"))
  }

  /** The loop can handle a result: the header keys are present when metadata is shown. */
  predicate Formattable(md: Metadata, withMetadata: bool) {
    withMetadata ==> "filename" in md && "doc_type" in md
  }

  /**
   * The loop over the first `n` results finishes exactly when each result is formattable, and
   * otherwise raises a `KeyError`; when it finishes, result `i` contributes, at position `w * i`
   * with `w` 4 (with metadata) or 2: its header, a dash line as long as the header, its chunk
   * text and an empty line, or only its chunk text and an empty line.
   */
  lemma {:induction false} PartsShape(results: seq<VectorStore.SearchResult>, withMetadata: bool, n: nat)
    requires n <= |results|
    ensures Parts(results, withMetadata, n).Success? <==>
      forall i :: 0 <= i < n ==> Formattable(results[i].metadata, withMetadata)
    ensures Parts(results, withMetadata, n).Failure? ==> Parts(results, withMetadata, n).error.MissingKey?
    ensures Parts(results, withMetadata, n).Success? ==>
      var ps := Parts(results, withMetadata, n).value;
      var w := if withMetadata then 4 else 2;
      && |ps| == w * n
      && forall i :: 0 <= i < n ==> PartsAt(ps, i, results[i].metadata, withMetadata)
  {
    PartsOutcome(results, withMetadata, n);
    if Parts(results, withMetadata, n).Success? {
      PartsLayout(results, withMetadata, n, Parts(results, withMetadata, n).value);
    }
  }

  /** The loop over the first `n` results finishes exactly when each is formattable, and otherwise raises a `KeyError`. */
  lemma {:induction false} PartsOutcome(results: seq<VectorStore.SearchResult>, withMetadata: bool, n: nat)
    requires n <= |results|
    ensures Parts(results, withMetadata, n).Success? <==>
      forall i :: 0 <= i < n ==> Formattable(results[i].metadata, withMetadata)
    ensures Parts(results, withMetadata, n).Failure? ==> Parts(results, withMetadata, n).error.MissingKey?
  {
    if n > 0 {
      PartsOutcome(results, withMetadata, n - 1);
    }
  }

  /** The parts of the first `n` results, when the loop finishes, in the documented layout. */
  lemma {:induction false} PartsLayout(results: seq<VectorStore.SearchResult>, withMetadata: bool, n: nat, ps: seq<MetaValue>)
    requires n <= |results| && Parts(results, withMetadata, n) == Success(ps)
    ensures |ps| == (if withMetadata then 4 else 2) * n
    ensures forall i :: 0 <= i < n ==> PartsAt(ps, i, results[i].metadata, withMetadata)
  {
    if n > 0 {
      var prev := Parts(results, withMetadata, n - 1).value;
      var es := EntryParts(n, results[n - 1].metadata, withMetadata).value;
      assert ps == prev + es;
      PartsLayout(results, withMetadata, n - 1, prev);
      PartsAtAppend(results, withMetadata, n, prev, es);
    }
  }

  /** The parts of result `n` (1-based) placed after those of the results before it. */
  lemma PartsAtAppend(results: seq<VectorStore.SearchResult>, withMetadata: bool, n: nat, ps: seq<MetaValue>, es: seq<MetaValue>)
    requires 0 < n <= |results|
    requires EntryParts(n, results[n - 1].metadata, withMetadata) == Success(es)
    requires |ps| == (if withMetadata then 4 else 2) * (n - 1)
    requires forall i :: 0 <= i < n - 1 ==> PartsAt(ps, i, results[i].metadata, withMetadata)
    ensures |ps + es| == (if withMetadata then 4 else 2) * n
    ensures forall i :: 0 <= i < n ==> PartsAt(ps + es, i, results[i].metadata, withMetadata)
  {
    forall i | 0 <= i < n ensures PartsAt(ps + es, i, results[i].metadata, withMetadata) {
      if i < n - 1 {
        assert PartsAt(ps, i, results[i].metadata, withMetadata);
      }
    }
  }

  /** Result `i` (0-based) occupies the parts from `w * i` in the documented shape. */
  predicate PartsAt(ps: seq<MetaValue>, i: nat, md: Metadata, withMetadata: bool) {
    if withMetadata then
      && 4 * i + 3 < |ps|
      && ps[4 * i].Str? && Header(i + 1, md) == Success(ps[4 * i].s)
      && ps[4 * i + 1] == Str(Repeat('-', |ps[4 * i].s|))
      && ps[4 * i + 2] == ChunkText(md)
      && ps[4 * i + 3] == Str("")
    else
      && 2 * i + 1 < |ps|
      && ps[2 * i] == ChunkText(md)
      && ps[2 * i + 1] == Str("")
  }

  /** Every item of `a + b` is a string exactly when every item of `a` and of `b` is. */
  lemma AllStrAppend(a: seq<MetaValue>, b: seq<MetaValue>)
    ensures AllStr(a + b) <==> AllStr(a) && AllStr(b)
  {
    if AllStr(a + b) {
      forall k | 0 <= k < |a| ensures a[k].Str? {
        assert a[k] == (a + b)[k];
      }
      forall k | 0 <= k < |b| ensures b[k].Str? {
        assert b[k] == (a + b)[|a| + k];
      }
    }
  }

  /** When the loop finishes, the collected parts are all strings exactly when every chunk text is. */
  lemma {:induction false} PartsStrings(results: seq<VectorStore.SearchResult>, withMetadata: bool, n: nat, ps: seq<MetaValue>)
    requires n <= |results| && Parts(results, withMetadata, n) == Success(ps)
    ensures AllStr(ps) <==> forall i :: 0 <= i < n ==> ChunkText(results[i].metadata).Str?
  {
    if n > 0 {
      var prev := Parts(results, withMetadata, n - 1).value;
      var es := EntryParts(n, results[n - 1].metadata, withMetadata).value;
      assert ps == prev + es;
      PartsStrings(results, withMetadata, n - 1, prev);
      AllStrAppend(prev, es);
      EntryStrings(n, results[n - 1].metadata, withMetadata);
    }
  }

  /** The parts of one result are all strings exactly when its chunk text is. */
  lemma EntryStrings(i: int, md: Metadata, withMetadata: bool)
    requires EntryParts(i, md, withMetadata).Success?
    ensures AllStr(EntryParts(i, md, withMetadata).value) <==> ChunkText(md).Str?
  {
    var es := EntryParts(i, md, withMetadata).value;
    assert es[|es| - 2] == ChunkText(md);
  }

  /**
   * `_format_context` returns a string exactly when every result is formattable and every chunk
   * text is a string. A missing header key raises its `KeyError` even when an earlier chunk text
   * is not a string, because `join` only sees the parts after the loop; only when the loop
   * finishes can the failure be the join's `TypeError`.
   */
  lemma ContextOutcome(results: seq<VectorStore.SearchResult>, withMetadata: bool)
    ensures Context(results, withMetadata).Success? <==>
      && (forall i :: 0 <= i < |results| ==> Formattable(results[i].metadata, withMetadata))
      && (forall i :: 0 <= i < |results| ==> ChunkText(results[i].metadata).Str?)
    ensures (exists i :: 0 <= i < |results| && !Formattable(results[i].metadata, withMetadata)) ==>
      Context(results, withMetadata).Failure? && Context(results, withMetadata).error.MissingKey?
    ensures (forall i :: 0 <= i < |results| ==> Formattable(results[i].metadata, withMetadata)) ==>
      Context(results, withMetadata).Failure? ==> Context(results, withMetadata).error == NotAString("chunk_text")
  {
    PartsShape(results, withMetadata, |results|);
    if Parts(results, withMetadata, |results|).Success? {
      PartsStrings(results, withMetadata, |results|, Parts(results, withMetadata, |results|).value);
    }
  }

  /**
   * A first result whose chunk text is the integer 5 and a second result without `filename`:
   * the loop reaches the second header and raises `KeyError('filename')` before anything is joined.
   */
  lemma KeyErrorBeforeJoin(first: VectorStore.SearchResult, second: VectorStore.SearchResult)
    requires first.metadata == map["filename" := Str("a"), "doc_type" := Str("t"), "chunk_text" := Int(5)]
    requires "filename" !in second.metadata
    ensures Context([first, second], true) == Failure(MissingKey("filename"))
  {
    var results := [first, second];
    assert Header(2, second.metadata) == Failure(MissingKey("filename"));
    assert Parts(results, true, 1).Success?;
    assert Parts(results, true, 2) == Failure(MissingKey("filename"));
  }

  /** One more result: its parts are appended, or its failure becomes the outcome. */
  lemma PartsStep(results: seq<VectorStore.SearchResult>, withMetadata: bool, i: nat, ps: seq<MetaValue>)
    requires i < |results| && Parts(results, withMetadata, i) == Success(ps)
    ensures var e := EntryParts(i + 1, results[i].metadata, withMetadata);
      Parts(results, withMetadata, i + 1) == if e.Failure? then Failure(e.error) else Success(ps + e.value)
  {
  }

  /** `_format_context`, appending the parts result by result and joining them at the end. */
  method FormatContext(results: seq<VectorStore.SearchResult>, includeMetadata: bool) returns (r: Result<string, RetrievalError>)
    ensures r == Context(results, includeMetadata)
  {
    var parts: seq<MetaValue> := [];
    for i := 0 to |results|
      invariant Parts(results, includeMetadata, i) == Success(parts)
    {
      var md := results[i].metadata;
      ghost var before := parts;
      PartsStep(results, includeMetadata, i, parts);
      if includeMetadata {
        var header := Header(i + 1, md);
        if header.Failure? {
          PartsFailureSticks(results, includeMetadata, i + 1, |results|);
          return Failure(header.error);
        }
        parts := parts + [Str(header.value)];
        parts := parts + [Str(Repeat('-', |header.value|))];
      }
      var text := ChunkText(md);
      parts := parts + [text];
      parts := parts + [Str("")];
      if includeMetadata {
        ghost var h := Header(i + 1, md).value;
        assert parts == before + [Str(h), Str(Repeat('-', |h|)), text, Str("")];
      } else {
        assert parts == before + [text, Str("")];
      }
    }
    var items := Strings(parts);
    if items.Failure? {
      return Failure(items.error);
    }
    r := Success(Join(items.value, "\n"));
  }

  lemma {:induction false} PartsFailureSticks(results: seq<VectorStore.SearchResult>, withMetadata: bool, n: nat, m: nat)
    requires n <= m <= |results|
    requires Parts(results, withMetadata, n).Failure?
    ensures Parts(results, withMetadata, m) == Parts(results, withMetadata, n)
    decreases m - n
  {
    if m > n {
      PartsFailureSticks(results, withMetadata, n, m - 1);
    }
  }

  // ---------------------------------------------------------------------------------------
  // Retrieval

  /** `top_k or Config.TOP_K_RESULTS`: `None` and 0 are falsy. */
  function EffectiveTopK(topK: Option<int>, settings: Config.Settings): (k: int)
    ensures topK == None || topK == Some(0) ==> k == settings.topKResults
    ensures topK.Some? && topK.value != 0 ==> k == topK.value
  {
    if topK == None || topK == Some(0) then settings.topKResults else topK.value
  }

  /** The outcome of `retrieve` once the search returned `found`. */
  function Answer(query: string, found: Result<seq<VectorStore.SearchResult>, VectorStore.SearchError>, includeMetadata: bool)
    : Result<RetrievalResult, RetrievalError>
  {
    match found
    case Failure(e) => Failure(SearchFailed(e))
    case Success(rs) =>
      if rs == [] then Success(RetrievalResult(query, [], NoInformation))
      else match Context(rs, includeMetadata)
        case Failure(e) => Failure(e)
        case Success(ctx) => Success(RetrievalResult(query, rs, ctx))
  }

  /**
   * An empty search gives no chunks and exactly the fixed message; otherwise the chunks are
   * the search results unchanged and in order, with their formatted context.
   */
  lemma AnswerFacts(query: string, found: Result<seq<VectorStore.SearchResult>, VectorStore.SearchError>, includeMetadata: bool)
    ensures found == Success([]) ==> Answer(query, found, includeMetadata) == Success(RetrievalResult(query, [], NoInformation))
    ensures found.Success? && found.value != [] && Answer(query, found, includeMetadata).Success? ==>
      && Answer(query, found, includeMetadata).value.chunks == found.value
      && Success(Answer(query, found, includeMetadata).value.context) == Context(found.value, includeMetadata)
    ensures Answer(query, found, includeMetadata).Success? ==> Answer(query, found, includeMetadata).value.query == query
    ensures found.Failure? ==> Answer(query, found, includeMetadata) == Failure(SearchFailed(found.error))
  {
  }

  class Retriever {
    const store: VectorStore.VectorStore

    constructor()
      ensures fresh(store) && fresh(store.indexer) && !store.loaded
    {
      store := new VectorStore.VectorStore();
    }

    /** `load_index`: the store's `load` with the default paths. */
    method LoadIndex(disk: Indexer.Disk, settings: Config.Settings) returns (r: Result<(), Indexer.IndexError>)
      modifies store, store.indexer
      ensures Indexer.LoadStep(store.indexer.index, store.indexer.metadata, r)
           == Indexer.LoadFiles(old(store.indexer.index), old(store.indexer.metadata), disk, settings.faissIndexPath, settings.metadataPath)
      ensures store.loaded == (old(store.loaded) || r.Success?)
    {
      r := store.Load(disk, None, None, settings);
    }

    /**
     * `retrieve`: embeds the query (three attempts), searches with `top_k` defaulted and the
     * store's own threshold, and formats the results.
     */
    method Retrieve(svc: Embedder.Service, query: string, topK: Option<int>, includeMetadata: bool,
                    settings: Config.Settings, firstCall: nat)
      returns (r: Result<RetrievalResult, RetrievalError>, calls: nat, waits: seq<real>)
      ensures var run := Embedder.Attempts(svc, Embedder.Request(settings.bedrockEmbeddingModelId, query),
                                           Embedder.DefaultMaxRetries, 0, firstCall);
        && calls == run.calls && waits == run.waits
        && r == match run.result
                case Failure(e) => Failure(EmbedFailed(e))
                case Success(v) => Answer(query, store.Query(v, Some(EffectiveTopK(topK, settings)), None, settings), includeMetadata)
    {
      var embedding;
      embedding, calls, waits := Embedder.EmbedText(svc, settings.bedrockEmbeddingModelId, query, Embedder.DefaultMaxRetries, firstCall);
      if embedding.Failure? {
        return Failure(EmbedFailed(embedding.error)), calls, waits;
      }
      var results := store.Search(embedding.value, Some(EffectiveTopK(topK, settings)), None, settings);
      if results.Failure? {
        return Failure(SearchFailed(results.error)), calls, waits;
      }
      if results.value == [] {
        return Success(RetrievalResult(query, [], NoInformation)), calls, waits;
      }
      var context := FormatContext(results.value, includeMetadata);
      if context.Failure? {
        return Failure(context.error), calls, waits;
      }
      r := Success(RetrievalResult(query, results.value, context.value));
    }
  }
}
