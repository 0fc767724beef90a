/**
 * The stand-alone index builder (scripts/minimal_build_index.py): a word-packing chunker that
 * closes a chunk as soon as its words and their separating spaces reach `chunk_size`, and the
 * loop that turns every document into chunks and a parallel list of metadata records.
 */
module MinimalBuild {
  import opened PyText
  import opened Meta

  /** The chunk size the script passes for every document. */
  const ScriptChunkSize := 500

  // ---------------------------------------------------------------------------------------
  // Word packing

  /** `Σ (len(w) + 1)` over the words of a group: the running length the loop keeps. */
  function Cost(g: seq<string>): int {
    if g == [] then 0 else Cost(g[..|g| - 1]) + |g[|g| - 1]| + 1
  }

  /** The groups in order, concatenated. */
  function Flatten(gs: seq<seq<string>>): seq<string> {
    if gs == [] then [] else Flatten(gs[..|gs| - 1]) + gs[|gs| - 1]
  }

  /** The loop's state: the closed groups, the open group and its running length. */
  datatype Packing = Packing(closed: seq<seq<string>>, current: seq<string>, length: int)

  /** One iteration: append the word; close the group once the running length reaches `size`. */
  function Step(p: Packing, w: string, size: int): Packing {
    var current := p.current + [w];
    var length := p.length + |w| + 1;
    if length >= size then Packing(p.closed + [current], [], 0) else Packing(p.closed, current, length)
  }

  /** The state after the loop has seen the words `ws`. */
  function PackPrefix(ws: seq<string>, size: int): Packing {
    if ws == [] then Packing([], [], 0)
    else Step(PackPrefix(ws[..|ws| - 1], size), ws[|ws| - 1], size)
  }

  /** The groups emitted for `ws`: the closed ones, then the open one when it is not empty. */
  function Groups(ws: seq<string>, size: int): seq<seq<string>> {
    var p := PackPrefix(ws, size);
    if p.current != [] then p.closed + [p.current] else p.closed
  }

  /** `' '.join` of each group. */
  function JoinEach(gs: seq<seq<string>>): (r: seq<string>)
    ensures |r| == |gs|
    ensures forall k :: 0 <= k < |gs| ==> r[k] == Join(gs[k], " ")
  {
    seq(|gs|, k requires 0 <= k < |gs| => Join(gs[k], " "))
  }

  /** `simple_chunk_text(text, chunk_size)`. */
  function SimpleChunks(text: string, size: int): seq<string> {
    JoinEach(Groups(Words(text), size))
  }

  /** A group closed by the loop: it reached `size`, and none of its shorter non-empty prefixes did. */
  predicate Closed(g: seq<string>, size: int) {
    g != [] && Cost(g) >= size && forall j :: 0 < j < |g| ==> Cost(g[..j]) < size
  }

  /** An open group: every non-empty prefix, itself included, is still below `size`. */
  predicate Open(g: seq<string>, size: int) {
    forall j :: 0 < j <= |g| ==> Cost(g[..j]) < size
  }

  predicate AllWords(ws: seq<string>) {
    forall i :: 0 <= i < |ws| ==> IsWord(ws[i])
  }

  /** What the loop keeps true of its state after seeing `ws`. */
  predicate Packed(p: Packing, ws: seq<string>, size: int) {
    && Flatten(p.closed) + p.current == ws
    && (forall k :: 0 <= k < |p.closed| ==> Closed(p.closed[k], size) && AllWords(p.closed[k]))
    && Open(p.current, size) && AllWords(p.current)
    && p.length == Cost(p.current)
  }

  lemma CostOfPrefix(g: seq<string>, w: string, j: int)
    requires 0 <= j <= |g|
    ensures (g + [w])[..j] == g[..j]
    ensures Cost(g + [w]) == Cost(g) + |w| + 1
  {
    assert (g + [w])[..|g|] == g;
  }

  /** One iteration keeps the loop's state packed, whether it closes the group or not. */
  lemma StepPacked(p: Packing, ws: seq<string>, w: string, size: int)
    requires Packed(p, ws, size) && IsWord(w)
    ensures Packed(Step(p, w, size), ws + [w], size)
  {
    var cur := p.current + [w];
    CostOfPrefix(p.current, w, 0);
    assert Flatten(p.closed) + cur == ws + [w];
    assert AllWords(cur);
    if Cost(cur) >= size {
      var q := Packing(p.closed + [cur], [], 0);
      assert Step(p, w, size) == q;
      GrowCloses(p.current, w, size);
      StepCloses(p.closed, cur, size);
      assert Flatten(q.closed) + q.current == ws + [w];
      assert forall k :: 0 <= k < |q.closed| ==> Closed(q.closed[k], size) && AllWords(q.closed[k]);
      assert Open(q.current, size) && AllWords(q.current) && q.length == Cost(q.current);
    } else {
      var q := Packing(p.closed, cur, Cost(cur));
      assert Step(p, w, size) == q;
      GrowStaysOpen(p.current, w, size);
    }
  }

  /** The prefixes of a group grown by one word are its own prefixes, then the grown group. */
  lemma GrowPrefixes(g: seq<string>, w: string)
    ensures forall j :: 0 <= j <= |g| ==> (g + [w])[..j] == g[..j]
    ensures (g + [w])[..|g| + 1] == g + [w]
  {
    forall j | 0 <= j <= |g| ensures (g + [w])[..j] == g[..j] {
      CostOfPrefix(g, w, j);
    }
  }

  /** An open group that reaches `size` with one more word is closed. */
  lemma GrowCloses(g: seq<string>, w: string, size: int)
    requires Open(g, size) && Cost(g + [w]) >= size
    ensures Closed(g + [w], size)
  {
    GrowPrefixes(g, w);
  }

  /** An open group that stays below `size` with one more word is still open. */
  lemma GrowStaysOpen(g: seq<string>, w: string, size: int)
    requires Open(g, size) && Cost(g + [w]) < size
    ensures Open(g + [w], size)
  {
    GrowPrefixes(g, w);
  }

  /** Closing a group appends it to the closed ones. */
  lemma StepCloses(closed: seq<seq<string>>, cur: seq<string>, size: int)
    ensures Flatten(closed + [cur]) == Flatten(closed) + cur
    ensures forall k :: 0 <= k < |closed| ==> (closed + [cur])[k] == closed[k]
  {
    assert (closed + [cur])[..|closed|] == closed;
  }

  lemma {:induction false} PackPrefixPacked(ws: seq<string>, size: int)
    requires AllWords(ws)
    ensures Packed(PackPrefix(ws, size), ws, size)
  {
    if ws != [] {
      var init := ws[..|ws| - 1];
      PackPrefixPacked(init, size);
      StepPacked(PackPrefix(init, size), init, ws[|ws| - 1], size);
      assert init + [ws[|ws| - 1]] == ws;
    }
  }

  /** The groups, in order, are exactly the words; there are none only when there is no word. */
  lemma GroupsCover(ws: seq<string>, size: int)
    requires AllWords(ws)
    ensures Flatten(Groups(ws, size)) == ws
    ensures Groups(ws, size) == [] <==> ws == []
  {
    PackPrefixPacked(ws, size);
    var p := PackPrefix(ws, size);
    var gs := Groups(ws, size);
    if p.current != [] {
      assert gs[..|gs| - 1] == p.closed;
    } else {
      assert Flatten(p.closed) + [] == Flatten(p.closed);
    }
  }

  /** Every group holds at least one word, and only words. */
  lemma GroupsNonEmpty(ws: seq<string>, size: int)
    requires AllWords(ws)
    ensures forall k :: 0 <= k < |Groups(ws, size)| ==> Groups(ws, size)[k] != [] && AllWords(Groups(ws, size)[k])
  {
    PackPrefixPacked(ws, size);
    var p := PackPrefix(ws, size);
    var gs := Groups(ws, size);
    forall k | 0 <= k < |gs| ensures gs[k] != [] && AllWords(gs[k]) {
      if k < |p.closed| {
        assert gs[k] == p.closed[k];
      }
    }
  }

  /** Every group but the last is closed; the last one is closed or open. */
  lemma GroupsClosed(ws: seq<string>, size: int)
    requires AllWords(ws)
    ensures forall k :: 0 <= k < |Groups(ws, size)| - 1 ==> Closed(Groups(ws, size)[k], size)
    ensures Groups(ws, size) != [] ==>
      var last := Groups(ws, size)[|Groups(ws, size)| - 1];
      Closed(last, size) || Open(last, size)
  {
    PackPrefixPacked(ws, size);
    var p := PackPrefix(ws, size);
    var gs := Groups(ws, size);
    forall k | 0 <= k < |gs| - 1 ensures Closed(gs[k], size) {
      assert gs[k] == p.closed[k];
    }
  }

  /** Each chunk splits back into its group: `' '.join` loses no word and adds none. */
  lemma ChunkWords(text: string, size: int)
    ensures |SimpleChunks(text, size)| == |Groups(Words(text), size)|
    ensures forall k :: 0 <= k < |SimpleChunks(text, size)| ==>
      Words(SimpleChunks(text, size)[k]) == Groups(Words(text), size)[k]
  {
    var gs := Groups(Words(text), size);
    GroupsNonEmpty(Words(text), size);
    forall k | 0 <= k < |gs| ensures Words(Join(gs[k], " ")) == gs[k] {
      WordsOfJoin(gs[k]);
    }
  }

  /** The words of the chunks, chunk after chunk. */
  function WordsOfChunks(chunks: seq<string>): seq<string> {
    if chunks == [] then [] else WordsOfChunks(chunks[..|chunks| - 1]) + Words(chunks[|chunks| - 1])
  }

  lemma {:induction false} WordsOfChunksFlatten(chunks: seq<string>, gs: seq<seq<string>>)
    requires |chunks| == |gs|
    requires forall k :: 0 <= k < |gs| ==> Words(chunks[k]) == gs[k]
    ensures WordsOfChunks(chunks) == Flatten(gs)
  {
    if chunks != [] {
      WordsOfChunksFlatten(chunks[..|chunks| - 1], gs[..|gs| - 1]);
    }
  }

  /**
   * No word of the text is lost, duplicated or reordered: splitting every chunk and
   * concatenating the results gives `text.split()`. Each chunk holds at least one word.
   */
  lemma ChunksKeepWords(text: string, size: int)
    ensures WordsOfChunks(SimpleChunks(text, size)) == Words(text)
    ensures forall k :: 0 <= k < |SimpleChunks(text, size)| ==> Words(SimpleChunks(text, size)[k]) != []
  {
    ChunkWords(text, size);
    GroupsCover(Words(text), size);
    GroupsNonEmpty(Words(text), size);
    WordsOfChunksFlatten(SimpleChunks(text, size), Groups(Words(text), size));
  }

  /** Every chunk but the last reached `size` on its final word, and only there. */
  lemma ChunksReachSize(text: string, size: int)
    ensures forall k :: 0 <= k < |SimpleChunks(text, size)| - 1 ==>
      Closed(Words(SimpleChunks(text, size)[k]), size)
    ensures forall k :: 0 <= k < |SimpleChunks(text, size)| ==>
      var g := Words(SimpleChunks(text, size)[k]);
      forall j :: 0 < j < |g| ==> Cost(g[..j]) < size
  {
    ChunkWords(text, size);
    GroupsClosed(Words(text), size);
  }

  /** A text with no word, the empty or all-whitespace one in particular, gives no chunk, and only such a text does. */
  lemma NoWordsNoChunks(text: string, size: int)
    ensures SimpleChunks(text, size) == [] <==> Words(text) == []
    ensures (forall i :: 0 <= i < |text| ==> IsSpace(text[i])) ==> SimpleChunks(text, size) == []
  {
    GroupsCover(Words(text), size);
    if forall i :: 0 <= i < |text| ==> IsSpace(text[i]) {
      BlankHasNoWords(text);
    }
  }

  lemma {:induction false} BlankHasNoWords(text: string)
    requires forall i :: 0 <= i < |text| ==> IsSpace(text[i])
    ensures Words(text) == []
    decreases |text|
  {
    if text != [] {
      BlankHasNoWords(text[1..]);
    }
  }

  /** The loop of `simple_chunk_text`, with `chunks`, `current_chunk` and `current_length`. */
  method SimpleChunkText(text: string, chunkSize: int) returns (chunks: seq<string>)
    ensures chunks == SimpleChunks(text, chunkSize)
  {
    var words := Words(text);
    chunks := [];
    var currentChunk: seq<string> := [];
    var currentLength := 0;
    for i := 0 to |words|
      invariant var p := PackPrefix(words[..i], chunkSize);
        chunks == JoinEach(p.closed) && currentChunk == p.current && currentLength == p.length
    {
      assert words[..i + 1][..i] == words[..i];
      currentChunk := currentChunk + [words[i]];
      currentLength := currentLength + |words[i]| + 1;
      if currentLength >= chunkSize {
        chunks := chunks + [Join(currentChunk, " ")];
        currentChunk := [];
        currentLength := 0;
      }
    }
    assert words[..|words|] == words;
    if currentChunk != [] {
      chunks := chunks + [Join(currentChunk, " ")];
    }
  }

  // ---------------------------------------------------------------------------------------
  // The corpus loop of `main`

  /** A document file the script reads: its folder (used as type), its name and its text. */
  datatype Document = Document(folder: string, filename: string, content: string)

  /** The metadata record appended for chunk `i` of a document. */
  function Record(d: Document, i: int, chunk: string): Metadata {
    map["filename" := Str(d.filename), "type" := Str(d.folder), "chunk_id" := Int(i), "chunk_text" := Str(chunk)]
  }

  /** The records of one document's chunks, numbered from 0. */
  function Records(d: Document, chunks: seq<string>): (rs: seq<Metadata>)
    ensures |rs| == |chunks|
  {
    seq(|chunks|, i requires 0 <= i < |chunks| => Record(d, i, chunks[i]))
  }

  /** Each document's chunks, in document order. */
  function ChunksOf(ds: seq<Document>): (parts: seq<seq<string>>)
    ensures |parts| == |ds|
  {
    seq(|ds|, j requires 0 <= j < |ds| => SimpleChunks(ds[j].content, ScriptChunkSize))
  }

  /** The per-document chunk lists, concatenated. */
  function Concat(parts: seq<seq<string>>): seq<string> {
    if parts == [] then [] else Concat(parts[..|parts| - 1]) + parts[|parts| - 1]
  }

  /** The records of every document's chunks, concatenated. */
  function AllRecords(ds: seq<Document>, parts: seq<seq<string>>): seq<Metadata>
    requires |ds| == |parts|
  {
    if ds == [] then []
    else AllRecords(ds[..|ds| - 1], parts[..|parts| - 1]) + Records(ds[|ds| - 1], parts[|parts| - 1])
  }

  /** `all_chunks` after the documents `ds`. */
  function CorpusChunks(ds: seq<Document>): seq<string> {
    Concat(ChunksOf(ds))
  }

  /** `all_metadata` after the documents `ds`. */
  function CorpusRecords(ds: seq<Document>): seq<Metadata> {
    AllRecords(ds, ChunksOf(ds))
  }

  /** The chunks of the documents before document `j`. */
  function Offset(parts: seq<seq<string>>, j: nat): nat
    requires j <= |parts|
  {
    |Concat(parts[..j])|
  }

  /** Chunk `i` of document `j` and its record, numbered `i`, sit at `Offset(parts, j) + i` in both lists. */
  predicate PlacedAt(ds: seq<Document>, parts: seq<seq<string>>, j: nat, i: nat)
    requires |ds| == |parts| && j < |ds|
  {
    && i < |parts[j]|
    && Offset(parts, j) + i < |Concat(parts)|
    && Offset(parts, j) + i < |AllRecords(ds, parts)|
    && Concat(parts)[Offset(parts, j) + i] == parts[j][i]
    && AllRecords(ds, parts)[Offset(parts, j) + i] == Record(ds[j], i, parts[j][i])
  }

  lemma {:induction false} CorpusAt(ds: seq<Document>, parts: seq<seq<string>>, j: nat, i: nat)
    requires |ds| == |parts| && j < |ds| && i < |parts[j]|
    ensures PlacedAt(ds, parts, j, i)
  {
    var last := |ds| - 1;
    var initD, initP := ds[..last], parts[..last];
    CorpusLengths(initD, initP);
    var n := |Concat(initP)|;
    assert Concat(parts) == Concat(initP) + parts[last];
    assert AllRecords(ds, parts) == AllRecords(initD, initP) + Records(ds[last], parts[last]);
    if j < last {
      CorpusAt(initD, initP, j, i);
      assert parts[..j] == initP[..j];
      var at := Offset(initP, j) + i;
      assert Concat(parts)[at] == Concat(initP)[at];
      assert AllRecords(ds, parts)[at] == AllRecords(initD, initP)[at];
    } else {
      assert parts[..j] == initP;
      assert Concat(parts)[n + i] == parts[j][i];
      assert AllRecords(ds, parts)[n + i] == Records(ds[j], parts[j])[i];
    }
  }

  lemma {:induction false} CorpusLengths(ds: seq<Document>, parts: seq<seq<string>>)
    requires |ds| == |parts|
    ensures |AllRecords(ds, parts)| == |Concat(parts)|
  {
    if ds != [] {
      CorpusLengths(ds[..|ds| - 1], parts[..|parts| - 1]);
    }
  }

  /** Record `k` carries chunk `k`'s text. */
  lemma {:induction false} CorpusTexts(ds: seq<Document>, parts: seq<seq<string>>)
    requires |ds| == |parts|
    ensures |AllRecords(ds, parts)| == |Concat(parts)|
    ensures forall k :: 0 <= k < |Concat(parts)| ==>
      "chunk_text" in AllRecords(ds, parts)[k] && AllRecords(ds, parts)[k]["chunk_text"] == Str(Concat(parts)[k])
  {
    CorpusLengths(ds, parts);
    if ds != [] {
      var last := |ds| - 1;
      var initD, initP := ds[..last], parts[..last];
      CorpusTexts(initD, initP);
      var n := |Concat(initP)|;
      var cs := parts[last];
      var rs := Records(ds[last], cs);
      assert AllRecords(ds, parts) == AllRecords(initD, initP) + rs;
      assert Concat(parts) == Concat(initP) + cs;
      forall k | n <= k < |Concat(parts)|
        ensures "chunk_text" in AllRecords(ds, parts)[k] && AllRecords(ds, parts)[k]["chunk_text"] == Str(Concat(parts)[k])
      {
        assert AllRecords(ds, parts)[k] == rs[k - n];
        assert Concat(parts)[k] == cs[k - n];
        assert rs[k - n] == Record(ds[last], k - n, cs[k - n]);
      }
    }
  }

  /**
   * The two lists grow in lockstep: they have equal lengths, record `k` carries chunk `k`'s
   * text, and chunk `i` of document `j` sits at `Offset(ChunksOf(ds), j) + i` in both lists,
   * with `chunk_id` `i` and that document's name and folder.
   */
  lemma CorpusLockstep(ds: seq<Document>)
    ensures |CorpusRecords(ds)| == |CorpusChunks(ds)|
    ensures forall k :: 0 <= k < |CorpusChunks(ds)| ==>
      "chunk_text" in CorpusRecords(ds)[k] && CorpusRecords(ds)[k]["chunk_text"] == Str(CorpusChunks(ds)[k])
    ensures forall j: nat, i: nat :: j < |ds| && i < |SimpleChunks(ds[j].content, ScriptChunkSize)| ==>
      PlacedAt(ds, ChunksOf(ds), j, i)
  {
    var parts := ChunksOf(ds);
    CorpusTexts(ds, parts);
    forall j: nat, i: nat | j < |ds| && i < |SimpleChunks(ds[j].content, ScriptChunkSize)|
      ensures PlacedAt(ds, parts, j, i)
    {
      assert parts[j] == SimpleChunks(ds[j].content, ScriptChunkSize);
      CorpusAt(ds, parts, j, i);
    }
  }

  /** One more document: its chunks and records are appended to those of the documents before it. */
  lemma CorpusStep(ds: seq<Document>, parts: seq<seq<string>>, j: nat)
    requires |ds| == |parts| && j < |ds|
    ensures Concat(parts[..j + 1]) == Concat(parts[..j]) + parts[j]
    ensures AllRecords(ds[..j + 1], parts[..j + 1]) == AllRecords(ds[..j], parts[..j]) + Records(ds[j], parts[j])
  {
    assert parts[..j + 1][..j] == parts[..j];
    assert ds[..j + 1][..j] == ds[..j];
  }

  /** One more chunk: its record, numbered by its position, is appended. */
  lemma RecordsStep(d: Document, chunks: seq<string>, i: nat)
    requires i < |chunks|
    ensures Records(d, chunks[..i + 1]) == Records(d, chunks[..i]) + [Record(d, i, chunks[i])]
  {
  }

  /** The inner loop of `main`: append each chunk of one document and its record. */
  method AppendDocument(d: Document, chunks: seq<string>, chunksBefore: seq<string>, before: seq<Metadata>)
    returns (allChunks: seq<string>, allMetadata: seq<Metadata>)
    ensures allChunks == chunksBefore + chunks && allMetadata == before + Records(d, chunks)
  {
    allChunks, allMetadata := chunksBefore, before;
    for i := 0 to |chunks|
      invariant allMetadata == before + Records(d, chunks[..i])
      invariant allChunks == chunksBefore + chunks[..i]
    {
      RecordsStep(d, chunks, i);
      assert chunks[..i + 1] == chunks[..i] + [chunks[i]];
      allChunks := allChunks + [chunks[i]];
      allMetadata := allMetadata + [Record(d, i, chunks[i])];
    }
    assert chunks[..|chunks|] == chunks;
  }

  /** The document loop of `main`: chunk each document and append its chunks and records. */
  method BuildCorpus(ds: seq<Document>) returns (allChunks: seq<string>, allMetadata: seq<Metadata>)
    ensures allChunks == CorpusChunks(ds) && allMetadata == CorpusRecords(ds)
  {
    ghost var parts := ChunksOf(ds);
    allChunks, allMetadata := [], [];
    for j := 0 to |ds|
      invariant allChunks == Concat(parts[..j]) && allMetadata == AllRecords(ds[..j], parts[..j])
    {
      var d := ds[j];
      var chunks := SimpleChunkText(d.content, ScriptChunkSize);
      assert chunks == parts[j];
      allChunks, allMetadata := AppendDocument(d, chunks, allChunks, allMetadata);
      CorpusStep(ds, parts, j);
    }
    assert parts[..|ds|] == parts;
    assert ds[..|ds|] == ds;
  }
}
