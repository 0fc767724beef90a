/**
 * Token-window chunking of documents (src/ingestion/chunker.py).
 *
 * `ChunkDocumentAsWritten` is the loop of `TextChunker.chunk_document` as the source has it.
 * Its window sequence is `Spans`; for `0 < overlap < chunk_size` and a non-empty document it
 * never leaves the loop (`AsWrittenDiverges`), so it carries a fuel bound. `ChunkDocument` is
 * the loop with the evident fix (stop after the window that reaches the last token), whose
 * window sequence is `FixedSpans`; the two agree whenever the source's loop terminates
 * (`AsWrittenAgrees`). The rest of the model uses `ChunkDocument`.
 */
module Chunker {
  import opened Wrappers
  import opened PyText
  import opened Meta

  /** The tiktoken encoding, left uninterpreted: any pair of total functions. */
  datatype Tokenizer = Tokenizer(encode: string -> seq<int>, decode: seq<int> -> string)

  /** A loaded document: its text and its provenance metadata. */
  datatype Document = Document(content: string, metadata: Metadata)

  /** `TextChunk`: the decoded text of one token window, its metadata and its id. */
  datatype TextChunk = TextChunk(text: string, metadata: Metadata, chunkId: int)

  /** `count_tokens`. */
  function CountTokens(tk: Tokenizer, text: string): nat {
    |tk.encode(text)|
  }

  /** The token window `[start, end)` of one loop iteration. */
  datatype Span = Span(start: int, end: int)

  /** The start of the next window after one ending at `end`, including the forced advance. */
  function NextStart(end: int, chunkSize: int, overlap: int): int {
    var s := end - overlap;
    if s <= end - chunkSize then end else s
  }

  /** The windows the source's loop visits from `start`; `None` if it has not left the loop after `fuel` iterations. */
  function Spans(total: nat, chunkSize: int, overlap: int, start: int, fuel: nat): Option<seq<Span>>
    decreases fuel
  {
    if start >= total then Some([])
    else if fuel == 0 then None
    else
      var end := Min(start + chunkSize, total);
      match Spans(total, chunkSize, overlap, NextStart(end, chunkSize, overlap), fuel - 1)
      case None => None
      case Some(rest) => Some([Span(start, end)] + rest)
  }

  /** The windows of the corrected loop, which stops after the window that reaches `total`. */
  function FixedSpans(total: nat, chunkSize: int, overlap: int, start: int): seq<Span>
    requires chunkSize > 0
    decreases total - start
  {
    if start >= total then []
    else
      var end := Min(start + chunkSize, total);
      if end == total then [Span(start, end)]
      else [Span(start, end)] + FixedSpans(total, chunkSize, overlap, NextStart(end, chunkSize, overlap))
  }

  function Prepend(pre: seq<Span>, rest: Option<seq<Span>>): Option<seq<Span>> {
    match rest
    case None => None
    case Some(r) => Some(pre + r)
  }

  /** The metadata of one chunk: a copy of the document's, updated with the chunk fields. */
  function ChunkMetadata(doc: Document, id: int, sp: Span, count: int, total: MetaValue): Metadata {
    doc.metadata + map[
      "chunk_id" := Int(id),
      "start_token" := Int(sp.start),
      "end_token" := Int(sp.end),
      "token_count" := Int(count),
      "total_chunks" := total]
  }

  /** The chunk emitted for window `sp` as the `id`-th of its document. */
  function MakeChunk(doc: Document, tk: Tokenizer, tokens: seq<int>, id: int, sp: Span, total: MetaValue): TextChunk {
    var toks := PySlice(tokens, sp.start, sp.end);
    TextChunk(tk.decode(toks), ChunkMetadata(doc, id, sp, |toks|, total), id)
  }

  /** The chunks for a list of windows, after `total_chunks` has been filled in. */
  function Emit(doc: Document, tk: Tokenizer, tokens: seq<int>, spans: seq<Span>): seq<TextChunk> {
    seq(|spans|, i requires 0 <= i < |spans| => MakeChunk(doc, tk, tokens, i, spans[i], Int(|spans|)))
  }

  /** The chunks of one document under the corrected loop. */
  function DocChunks(doc: Document, tk: Tokenizer, chunkSize: int, overlap: int): seq<TextChunk>
    requires chunkSize > 0
  {
    var tokens := tk.encode(doc.content);
    Emit(doc, tk, tokens, FixedSpans(|tokens|, chunkSize, overlap, 0))
  }

  /** The chunks appended by the loop for the windows `spans`, before `total_chunks` is known. */
  function Pending(doc: Document, tk: Tokenizer, tokens: seq<int>, spans: seq<Span>): seq<TextChunk> {
    seq(|spans|, i requires 0 <= i < |spans| => MakeChunk(doc, tk, tokens, i, spans[i], Null))
  }

  /** One more window appends its chunk, numbered by its position. */
  lemma PendingStep(doc: Document, tk: Tokenizer, tokens: seq<int>, spans: seq<Span>, sp: Span)
    ensures Pending(doc, tk, tokens, spans + [sp]) == Pending(doc, tk, tokens, spans) + [MakeChunk(doc, tk, tokens, |spans|, sp, Null)]
  {
  }

  lemma Backfill(doc: Document, tk: Tokenizer, tokens: seq<int>, id: int, sp: Span, n: int)
    ensures var c := MakeChunk(doc, tk, tokens, id, sp, Null);
      c.(metadata := c.metadata["total_chunks" := Int(n)]) == MakeChunk(doc, tk, tokens, id, sp, Int(n))
  {
  }

  /** Backfills `total_chunks` into every chunk, as the loop at the end of `chunk_document` does. */
  method FillTotals(doc: Document, tk: Tokenizer, tokens: seq<int>, ghost spans: seq<Span>, pending: seq<TextChunk>)
    returns (chunks: seq<TextChunk>)
    requires pending == Pending(doc, tk, tokens, spans)
    ensures chunks == Emit(doc, tk, tokens, spans)
  {
    chunks := pending;
    var n := |chunks|;
    for i := 0 to n
      invariant |chunks| == n
      invariant forall j :: 0 <= j < i ==> chunks[j] == MakeChunk(doc, tk, tokens, j, spans[j], Int(n))
      invariant forall j :: i <= j < n ==> chunks[j] == pending[j]
    {
      Backfill(doc, tk, tokens, i, spans[i], n);
      chunks := chunks[i := chunks[i].(metadata := chunks[i].metadata["total_chunks" := Int(n)])];
    }
  }

  /**
   * `chunk_document` as written. `fuel` bounds the number of loop iterations; the result is
   * `None` when the loop has not finished after that many.
   */
  method ChunkDocumentAsWritten(doc: Document, tk: Tokenizer, chunkSize: int, overlap: int, fuel: nat)
    returns (r: Option<seq<TextChunk>>)
    ensures var tokens := tk.encode(doc.content);
      match Spans(|tokens|, chunkSize, overlap, 0, fuel)
      case None => r == None
      case Some(spans) => r == Some(Emit(doc, tk, tokens, spans))
  {
    var tokens := tk.encode(doc.content);
    var total := |tokens|;
    var chunks: seq<TextChunk> := [];
    var chunkId := 0;
    var start := 0;
    var steps: nat := 0;
    ghost var spans: seq<Span> := [];
    PrependNothing(Spans(total, chunkSize, overlap, 0, fuel));
    while start < total && steps < fuel
      invariant steps <= fuel
      invariant |chunks| == |spans| == chunkId == steps
      invariant chunks == Pending(doc, tk, tokens, spans)
      invariant Spans(total, chunkSize, overlap, 0, fuel) == Prepend(spans, Spans(total, chunkSize, overlap, start, fuel - steps))
      decreases fuel - steps
    {
      var end := Min(start + chunkSize, total);
      var chunkTokens := PySlice(tokens, start, end);
      var chunkText := tk.decode(chunkTokens);
      var chunkMetadata := doc.metadata + map[
        "chunk_id" := Int(chunkId),
        "start_token" := Int(start),
        "end_token" := Int(end),
        "token_count" := Int(|chunkTokens|),
        "total_chunks" := Null];
      assert TextChunk(chunkText, chunkMetadata, chunkId) == MakeChunk(doc, tk, tokens, chunkId, Span(start, end), Null);
      PendingStep(doc, tk, tokens, spans, Span(start, end));
      chunks := chunks + [TextChunk(chunkText, chunkMetadata, chunkId)];
      PrependStep(spans, Span(start, end), Spans(total, chunkSize, overlap, NextStart(end, chunkSize, overlap), fuel - steps - 1));
      spans := spans + [Span(start, end)];
      chunkId := chunkId + 1;
      start := end - overlap;
      if start <= end - chunkSize {
        start := end;
      }
      steps := steps + 1;
    }
    if start < total {
      assert Spans(total, chunkSize, overlap, start, 0) == None;
      return None;
    }
    assert spans + [] == spans;
    chunks := FillTotals(doc, tk, tokens, spans, chunks);
    r := Some(chunks);
  }

  lemma PrependNothing(o: Option<seq<Span>>)
    ensures Prepend([], o) == o
  {
    if o.Some? { assert [] + o.value == o.value; }
  }

  lemma PrependStep(pre: seq<Span>, sp: Span, rest: Option<seq<Span>>)
    ensures Prepend(pre, Prepend([sp], rest)) == Prepend(pre + [sp], rest)
  {
    if rest.Some? { assert pre + ([sp] + rest.value) == pre + [sp] + rest.value; }
  }

  /** One step of the corrected loop. */
  lemma FixedStep(total: nat, chunkSize: int, overlap: int, start: int)
    requires chunkSize > 0 && start < total
    ensures var end := Min(start + chunkSize, total);
      FixedSpans(total, chunkSize, overlap, start)
      == [Span(start, end)] + (if end == total then [] else FixedSpans(total, chunkSize, overlap, NextStart(end, chunkSize, overlap)))
  {
  }

  /** The windows still to visit after one more iteration of the corrected loop. */
  lemma FixedAdvance(total: nat, chunkSize: int, overlap: int, start: int, before: seq<Span>)
    requires chunkSize > 0 && start < total
    requires FixedSpans(total, chunkSize, overlap, 0) == before + FixedSpans(total, chunkSize, overlap, start)
    ensures var end := Min(start + chunkSize, total);
      FixedSpans(total, chunkSize, overlap, 0)
      == (before + [Span(start, end)])
         + (if end == total then [] else FixedSpans(total, chunkSize, overlap, NextStart(end, chunkSize, overlap)))
  {
    FixedStep(total, chunkSize, overlap, start);
    var end := Min(start + chunkSize, total);
    var rest := if end == total then [] else FixedSpans(total, chunkSize, overlap, NextStart(end, chunkSize, overlap));
    assert before + ([Span(start, end)] + rest) == (before + [Span(start, end)]) + rest;
  }

  /** `chunk_document` with the corrected loop. */
  method ChunkDocument(doc: Document, tk: Tokenizer, chunkSize: int, overlap: int)
    returns (chunks: seq<TextChunk>)
    requires chunkSize > 0
    ensures chunks == DocChunks(doc, tk, chunkSize, overlap)
  {
    var tokens := tk.encode(doc.content);
    var total := |tokens|;
    chunks := [];
    var chunkId := 0;
    var start := 0;
    ghost var spans: seq<Span> := [];
    while start < total
      invariant |chunks| == |spans| == chunkId
      invariant chunks == Pending(doc, tk, tokens, spans)
      invariant FixedSpans(total, chunkSize, overlap, 0) == spans + FixedSpans(total, chunkSize, overlap, start)
      decreases total - start
    {
      var end := Min(start + chunkSize, total);
      var chunkTokens := PySlice(tokens, start, end);
      var chunkMetadata := doc.metadata + map[
        "chunk_id" := Int(chunkId),
        "start_token" := Int(start),
        "end_token" := Int(end),
        "token_count" := Int(|chunkTokens|),
        "total_chunks" := Null];
      assert TextChunk(tk.decode(chunkTokens), chunkMetadata, chunkId) == MakeChunk(doc, tk, tokens, chunkId, Span(start, end), Null);
      PendingStep(doc, tk, tokens, spans, Span(start, end));
      chunks := chunks + [TextChunk(tk.decode(chunkTokens), chunkMetadata, chunkId)];
      FixedAdvance(total, chunkSize, overlap, start, spans);
      spans := spans + [Span(start, end)];
      chunkId := chunkId + 1;
      if end == total {
        assert spans + [] == spans;
        break;
      }
      start := end - overlap;
      if start <= end - chunkSize {
        start := end;
      }
    }
    assert spans == FixedSpans(total, chunkSize, overlap, 0);
    chunks := FillTotals(doc, tk, tokens, spans, chunks);
  }

  // ---------------------------------------------------------------------------------------
  // Termination of the source's loop

  /** For `0 < overlap < chunk_size` the source's loop never ends once it has started. */
  lemma {:induction false} AsWrittenDiverges(total: nat, chunkSize: int, overlap: int, start: int, fuel: nat)
    requires 0 < overlap < chunkSize
    requires start < total
    ensures Spans(total, chunkSize, overlap, start, fuel) == None
    decreases fuel
  {
    if fuel > 0 {
      var end := Min(start + chunkSize, total);
      assert NextStart(end, chunkSize, overlap) == end - overlap;
      AsWrittenDiverges(total, chunkSize, overlap, end - overlap, fuel - 1);
    }
  }

  /** For `overlap <= 0` or `overlap >= chunk_size` the source's loop ends and agrees with the corrected one. */
  lemma {:induction false} AsWrittenAgrees(total: nat, chunkSize: int, overlap: int, start: int, fuel: nat)
    requires chunkSize > 0 && 0 <= start
    requires overlap <= 0 || overlap >= chunkSize
    requires fuel >= total - start
    ensures Spans(total, chunkSize, overlap, start, fuel) == Some(FixedSpans(total, chunkSize, overlap, start))
    decreases total - start
  {
    if start < total {
      var end := Min(start + chunkSize, total);
      var next := NextStart(end, chunkSize, overlap);
      assert next >= end;
      if end == total {
        assert Spans(total, chunkSize, overlap, next, fuel - 1) == Some([]);
        assert [Span(start, end)] + [] == [Span(start, end)];
        assert Spans(total, chunkSize, overlap, start, fuel) == Some([Span(start, end)]);
      } else {
        AsWrittenAgrees(total, chunkSize, overlap, next, fuel - 1);
      }
    }
  }

  /** The source's `chunk_document` returns for every document exactly when the overlap is outside `(0, chunk_size)`. */
  lemma AsWrittenTerminatesIff(doc: Document, tk: Tokenizer, chunkSize: int, overlap: int)
    requires chunkSize > 0
    requires |tk.encode(doc.content)| > 0
    ensures (exists fuel: nat :: Spans(|tk.encode(doc.content)|, chunkSize, overlap, 0, fuel).Some?)
        <==> (overlap <= 0 || overlap >= chunkSize)
  {
    var total := |tk.encode(doc.content)|;
    if overlap <= 0 || overlap >= chunkSize {
      AsWrittenAgrees(total, chunkSize, overlap, 0, total);
    } else {
      forall fuel: nat ensures Spans(total, chunkSize, overlap, 0, fuel) == None {
        AsWrittenDiverges(total, chunkSize, overlap, 0, fuel);
      }
    }
  }

  // ---------------------------------------------------------------------------------------
  // Properties of the windows

  /** A window as `chunk_document` builds it: in range, non-empty, at most `chunk_size` long. */
  predicate WindowOk(sp: Span, total: nat, chunkSize: int) {
    0 <= sp.start < sp.end <= total && sp.end == Min(sp.start + chunkSize, total) && sp.end - sp.start <= chunkSize
  }

  lemma {:induction false} FixedSpansShape(total: nat, chunkSize: int, overlap: int, start: int)
    requires chunkSize > 0 && 0 <= start
    ensures var r := FixedSpans(total, chunkSize, overlap, start);
      && (r != [] <==> start < total)
      && (forall i :: 0 <= i < |r| ==> WindowOk(r[i], total, chunkSize))
      && (r != [] ==> r[0].start == start)
      && (forall i :: 0 <= i < |r| - 1 ==> r[i].end < total && r[i + 1].start == NextStart(r[i].end, chunkSize, overlap))
    decreases total - start
  {
    if start < total {
      var end := Min(start + chunkSize, total);
      if end < total {
        var next := NextStart(end, chunkSize, overlap);
        FixedSpansShape(total, chunkSize, overlap, next);
        var r := FixedSpans(total, chunkSize, overlap, start);
        var rest := FixedSpans(total, chunkSize, overlap, next);
        assert r == [Span(start, end)] + rest;
        assert forall i :: 0 < i < |r| ==> r[i] == rest[i - 1];
      }
    }
  }

  /** Adjacent windows overlap by exactly `overlap` tokens when `0 <= overlap < chunk_size`. */
  lemma AdjacentOverlap(total: nat, chunkSize: int, overlap: int)
    requires 0 <= overlap < chunkSize
    ensures var r := FixedSpans(total, chunkSize, overlap, 0);
      forall i :: 0 <= i < |r| - 1 ==> r[i + 1].start == r[i].end - overlap
  {
    FixedSpansShape(total, chunkSize, overlap, 0);
  }

  /** Token `p` lies in one of the windows `r`. */
  predicate Covered(r: seq<Span>, p: int) {
    exists i :: 0 <= i < |r| && r[i].start <= p < r[i].end
  }

  /** For a non-negative overlap, every token from `start` on lies in some window. */
  lemma {:induction false} WindowsCover(total: nat, chunkSize: int, overlap: int, start: int, p: int)
    requires chunkSize > 0 && 0 <= start && overlap >= 0
    requires start <= p < total
    ensures Covered(FixedSpans(total, chunkSize, overlap, start), p)
    decreases total - start
  {
    var r := FixedSpans(total, chunkSize, overlap, start);
    var end := Min(start + chunkSize, total);
    if p < end {
      assert r[0] == Span(start, end);
    } else {
      var next := NextStart(end, chunkSize, overlap);
      WindowsCover(total, chunkSize, overlap, next, p);
      var rest := FixedSpans(total, chunkSize, overlap, next);
      var i :| 0 <= i < |rest| && rest[i].start <= p < rest[i].end;
      assert r == [Span(start, end)] + rest;
      assert r[i + 1] == rest[i];
    }
  }

  /** The tokens of the windows, concatenated in order. */
  function Concat(tokens: seq<int>, r: seq<Span>): seq<int> {
    if r == [] then [] else PySlice(tokens, r[0].start, r[0].end) + Concat(tokens, r[1..])
  }

  /** With no overlap (or one the loop forces away) the windows tile the tokens with no gap or repeat. */
  lemma {:induction false} WindowsTile(tokens: seq<int>, chunkSize: int, overlap: int, start: int)
    requires chunkSize > 0 && 0 <= start <= |tokens|
    requires overlap == 0 || overlap >= chunkSize
    ensures Concat(tokens, FixedSpans(|tokens|, chunkSize, overlap, start)) == tokens[start..]
    decreases |tokens| - start
  {
    if start < |tokens| {
      var end := Min(start + chunkSize, |tokens|);
      if end < |tokens| {
        WindowsTile(tokens, chunkSize, overlap, end);
        TileStep(tokens, chunkSize, overlap, start, end, FixedSpans(|tokens|, chunkSize, overlap, end));
      } else {
        TileLast(tokens, chunkSize, overlap, start);
      }
    }
  }

  /** A window that is not the last one is followed by the windows from its end. */
  lemma TileStep(tokens: seq<int>, chunkSize: int, overlap: int, start: int, end: int, rest: seq<Span>)
    requires chunkSize > 0 && 0 <= start && end == Min(start + chunkSize, |tokens|) && end < |tokens|
    requires overlap == 0 || overlap >= chunkSize
    requires rest == FixedSpans(|tokens|, chunkSize, overlap, end)
    requires Concat(tokens, rest) == tokens[end..]
    ensures Concat(tokens, FixedSpans(|tokens|, chunkSize, overlap, start)) == tokens[start..]
  {
    assert NextStart(end, chunkSize, overlap) == end;
    FixedStep(|tokens|, chunkSize, overlap, start);
    assert FixedSpans(|tokens|, chunkSize, overlap, start) == [Span(start, end)] + rest;
    ConcatCons(tokens, Span(start, end), rest);
    assert tokens[start..] == tokens[start..end] + tokens[end..];
  }

  /** The window that reaches the end of the tokens is the last one. */
  lemma TileLast(tokens: seq<int>, chunkSize: int, overlap: int, start: int)
    requires chunkSize > 0 && 0 <= start < |tokens| && Min(start + chunkSize, |tokens|) == |tokens|
    ensures Concat(tokens, FixedSpans(|tokens|, chunkSize, overlap, start)) == tokens[start..]
  {
    FixedStep(|tokens|, chunkSize, overlap, start);
    assert FixedSpans(|tokens|, chunkSize, overlap, start) == [Span(start, |tokens|)];
    ConcatCons(tokens, Span(start, |tokens|), []);
    assert tokens[start..|tokens|] == tokens[start..];
  }

  lemma ConcatCons(tokens: seq<int>, sp: Span, rest: seq<Span>)
    ensures Concat(tokens, [sp] + rest) == PySlice(tokens, sp.start, sp.end) + Concat(tokens, rest)
  {
    assert ([sp] + rest)[1..] == rest;
  }

  // ---------------------------------------------------------------------------------------
  // Properties of the chunks

  /** The chunks emitted for a list of windows: one per window, numbered in order, carrying its window. */
  lemma EmitFacts(doc: Document, tk: Tokenizer, tokens: seq<int>, spans: seq<Span>, i: int)
    requires 0 <= i < |spans|
    requires 0 <= spans[i].start <= spans[i].end <= |tokens|
    ensures var c := Emit(doc, tk, tokens, spans);
      && |c| == |spans|
      && c[i].chunkId == i
      && c[i].text == tk.decode(tokens[spans[i].start..spans[i].end])
      && c[i].metadata["chunk_id"] == Int(i)
      && c[i].metadata["start_token"] == Int(spans[i].start)
      && c[i].metadata["end_token"] == Int(spans[i].end)
      && c[i].metadata["token_count"] == Int(spans[i].end - spans[i].start)
      && c[i].metadata["total_chunks"] == Int(|c|)
      && (forall k :: k in doc.metadata && k !in ChunkKeys ==> k in c[i].metadata && c[i].metadata[k] == doc.metadata[k])
  {
  }

  /**
   * The chunks of a document: one per window of at most `chunk_size` tokens, numbered
   * 0, 1, ... in emission order, each carrying the document's metadata updated with its
   * window, its token count and the final number of chunks.
   */
  lemma DocChunksFacts(doc: Document, tk: Tokenizer, chunkSize: int, overlap: int, i: int)
    requires chunkSize > 0
    requires 0 <= i < |DocChunks(doc, tk, chunkSize, overlap)|
    ensures var tokens := tk.encode(doc.content);
      var sp := FixedSpans(|tokens|, chunkSize, overlap, 0)[i];
      var c := DocChunks(doc, tk, chunkSize, overlap);
      && |c| == |FixedSpans(|tokens|, chunkSize, overlap, 0)|
      && WindowOk(sp, |tokens|, chunkSize)
      && c[i].chunkId == i
      && c[i].text == tk.decode(tokens[sp.start..sp.end])
      && c[i].metadata["chunk_id"] == Int(i)
      && c[i].metadata["start_token"] == Int(sp.start)
      && c[i].metadata["end_token"] == Int(sp.end)
      && c[i].metadata["token_count"] == Int(sp.end - sp.start)
      && c[i].metadata["total_chunks"] == Int(|c|)
      && (forall k :: k in doc.metadata && k !in ChunkKeys ==> k in c[i].metadata && c[i].metadata[k] == doc.metadata[k])
  {
    var tokens := tk.encode(doc.content);
    var spans := FixedSpans(|tokens|, chunkSize, overlap, 0);
    FixedSpansShape(|tokens|, chunkSize, overlap, 0);
    assert WindowOk(spans[i], |tokens|, chunkSize);
    EmitFacts(doc, tk, tokens, spans, i);
  }

  /** A document yields no chunks exactly when it has no tokens. */
  lemma NoChunksIffNoTokens(doc: Document, tk: Tokenizer, chunkSize: int, overlap: int)
    requires chunkSize > 0
    ensures DocChunks(doc, tk, chunkSize, overlap) == [] <==> tk.encode(doc.content) == []
  {
    FixedSpansShape(|tk.encode(doc.content)|, chunkSize, overlap, 0);
  }

  /** The keys `chunk_document` adds to a copy of the document metadata. */
  const ChunkKeys := {"chunk_id", "start_token", "end_token", "token_count", "total_chunks"}

  /** With no overlap the chunks' token counts add up to the document's token count. */
  lemma {:induction false} TokenCountsAddUp(tokens: seq<int>, chunkSize: int, overlap: int, start: int)
    requires chunkSize > 0 && 0 <= start <= |tokens|
    requires overlap == 0 || overlap >= chunkSize
    ensures SpanLengths(FixedSpans(|tokens|, chunkSize, overlap, start)) == |tokens| - start
    decreases |tokens| - start
  {
    var total := |tokens|;
    if start < total {
      var end := Min(start + chunkSize, total);
      if end < total {
        TokenCountsAddUp(tokens, chunkSize, overlap, NextStart(end, chunkSize, overlap));
        assert FixedSpans(total, chunkSize, overlap, start)[1..] == FixedSpans(total, chunkSize, overlap, NextStart(end, chunkSize, overlap));
      }
    }
  }

  function SpanLengths(r: seq<Span>): int {
    if r == [] then 0 else (r[0].end - r[0].start) + SpanLengths(r[1..])
  }

  // ---------------------------------------------------------------------------------------
  // Several documents, and statistics

  /** The chunks of several documents, in document order. */
  function AllChunks(docs: seq<Document>, tk: Tokenizer, chunkSize: int, overlap: int): seq<TextChunk>
    requires chunkSize > 0
  {
    if docs == [] then []
    else AllChunks(docs[..|docs| - 1], tk, chunkSize, overlap) + DocChunks(docs[|docs| - 1], tk, chunkSize, overlap)
  }

  /** `chunk_documents`. */
  method ChunkDocuments(docs: seq<Document>, tk: Tokenizer, chunkSize: int, overlap: int)
    returns (all: seq<TextChunk>)
    requires chunkSize > 0
    ensures all == AllChunks(docs, tk, chunkSize, overlap)
  {
    all := [];
    for i := 0 to |docs|
      invariant all == AllChunks(docs[..i], tk, chunkSize, overlap)
    {
      var chunks := ChunkDocument(docs[i], tk, chunkSize, overlap);
      assert docs[..i + 1][..i] == docs[..i];
      all := all + chunks;
    }
    assert docs[..|docs|] == docs;
  }

  /** Chunking a concatenation of document lists concatenates their chunk lists. */
  lemma {:induction false} AllChunksConcat(a: seq<Document>, b: seq<Document>, tk: Tokenizer, chunkSize: int, overlap: int)
    requires chunkSize > 0
    ensures AllChunks(a + b, tk, chunkSize, overlap) == AllChunks(a, tk, chunkSize, overlap) + AllChunks(b, tk, chunkSize, overlap)
    decreases |b|
  {
    if b != [] {
      var b' := b[..|b| - 1];
      assert (a + b)[..|a + b| - 1] == a + b';
      assert (a + b)[|a + b| - 1] == b[|b| - 1];
      AllChunksConcat(a, b', tk, chunkSize, overlap);
    } else {
      assert a + b == a;
    }
  }

  /** `get_chunk_stats`: `{}` for no chunks, otherwise count, mean, min, max and total of the token counts. */
  datatype ChunkStats =
    | NoStats
    | ChunkStats(totalChunks: nat, avgTokens: real, minTokens: int, maxTokens: int, totalTokens: int)

  /** `KeyError` for a chunk without `token_count`; `TypeError` when a count is not a number. */
  datatype StatsError = MissingTokenCount(index: nat) | NonIntegerTokenCount

  /** The list comprehension of `token_count` values, which fails at the first chunk without one. */
  function TokenCountValues(chunks: seq<TextChunk>): (r: Result<seq<MetaValue>, StatsError>)
    ensures r.Success? ==> |r.value| == |chunks|
    ensures r.Success? ==> forall i :: 0 <= i < |chunks| ==> "token_count" in chunks[i].metadata && r.value[i] == chunks[i].metadata["token_count"]
    ensures r.Failure? ==> r.error.MissingTokenCount? && r.error.index < |chunks| && "token_count" !in chunks[r.error.index].metadata
  {
    if chunks == [] then Success([])
    else if "token_count" !in chunks[0].metadata then Failure(MissingTokenCount(0))
    else match TokenCountValues(chunks[1..])
      case Failure(MissingTokenCount(i)) => Failure(MissingTokenCount(i + 1))
      case Failure(e) => Failure(e)
      case Success(vs) => Success([chunks[0].metadata["token_count"]] + vs)
  }

  function SumOf(xs: seq<int>): int {
    if xs == [] then 0 else xs[0] + SumOf(xs[1..])
  }

  function MinOf(xs: seq<int>): (m: int)
    requires xs != []
    ensures m in xs && forall i :: 0 <= i < |xs| ==> m <= xs[i]
  {
    if |xs| == 1 then xs[0]
    else var m := MinOf(xs[1..]); if xs[0] <= m then xs[0] else m
  }

  function MaxOf(xs: seq<int>): (m: int)
    requires xs != []
    ensures m in xs && forall i :: 0 <= i < |xs| ==> xs[i] <= m
  {
    if |xs| == 1 then xs[0]
    else var m := MaxOf(xs[1..]); if xs[0] >= m then xs[0] else m
  }

  predicate AllInts(vs: seq<MetaValue>) {
    forall i :: 0 <= i < |vs| ==> vs[i].Int?
  }

  function Ints(vs: seq<MetaValue>): (xs: seq<int>)
    requires AllInts(vs)
    ensures |xs| == |vs| && forall i :: 0 <= i < |vs| ==> vs[i] == Int(xs[i])
  {
    if vs == [] then [] else [vs[0].i] + Ints(vs[1..])
  }

  /** The token counts as numbers: `KeyError` at the first chunk without one, `TypeError` if one is not a number. */
  function TokenCounts(chunks: seq<TextChunk>): (r: Result<seq<int>, StatsError>)
    ensures r.Success? ==> (|r.value| == |chunks|
      && forall i :: 0 <= i < |chunks| ==> "token_count" in chunks[i].metadata && chunks[i].metadata["token_count"] == Int(r.value[i]))
    ensures r == Failure(NonIntegerTokenCount) ==>
      ((forall i :: 0 <= i < |chunks| ==> "token_count" in chunks[i].metadata)
      && exists i :: 0 <= i < |chunks| && !chunks[i].metadata["token_count"].Int?)
    ensures r.Failure? && r.error.MissingTokenCount? ==>
      r.error.index < |chunks| && "token_count" !in chunks[r.error.index].metadata
  {
    match TokenCountValues(chunks)
    case Failure(e) => Failure(e)
    case Success(vs) =>
      if exists i :: 0 <= i < |vs| && !vs[i].Int? then Failure(NonIntegerTokenCount)
      else Success(Ints(vs))
  }

  /** Count, mean, minimum, maximum and total of a non-empty list of token counts. */
  function Summarize(xs: seq<int>): (s: ChunkStats)
    requires xs != []
    ensures s.ChunkStats? && s.totalChunks == |xs| && s.totalTokens == SumOf(xs)
    ensures s.avgTokens * (|xs| as real) == SumOf(xs) as real
    ensures s.minTokens in xs && s.maxTokens in xs
    ensures forall i :: 0 <= i < |xs| ==> s.minTokens <= xs[i] <= s.maxTokens
  {
    ChunkStats(|xs|, SumOf(xs) as real / |xs| as real, MinOf(xs), MaxOf(xs), SumOf(xs))
  }

  /** `get_chunk_stats`. */
  function GetChunkStats(chunks: seq<TextChunk>): (r: Result<ChunkStats, StatsError>)
    ensures chunks == [] ==> r == Success(NoStats)
    ensures chunks != [] ==> (r.Success? <==> TokenCounts(chunks).Success?)
    ensures chunks != [] && r.Success? ==> r.value == Summarize(TokenCounts(chunks).value)
  {
    if chunks == [] then Success(NoStats)
    else match TokenCounts(chunks)
      case Failure(e) => Failure(e)
      case Success(xs) => Success(Summarize(xs))
  }
}
