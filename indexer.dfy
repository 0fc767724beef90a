/**
 * The index builder (src/ingestion/indexer.py). A `VectorIndexer` holds a flat L2 index and a
 * parallel list of metadata dicts: entry `i` of the list describes stored vector `i`. The
 * files it writes and reads are a map from path to what was written there, beside the set of
 * directories that exist.
 */
module Indexer {
  import opened Wrappers
  import opened Meta
  import Config
  import Chunker

  /** An exact `IndexFlatL2`: its dimension `d` and its vectors in insertion order (`ntotal` is `|vectors|`). */
  datatype FlatIndex = FlatIndex(d: nat, vectors: seq<seq<real>>)

  /** What a path holds: a written index, or a metadata JSON list. */
  datatype Artifact = IndexFile(index: FlatIndex) | MetadataFile(entries: seq<Metadata>)

  /** The files by path, and the directories that exist, both named as the code names them. */
  datatype Disk = Disk(files: map<string, Artifact>, dirs: set<string>)

  datatype IndexError =
    | LengthMismatch                  // "Number of embeddings must match number of chunks"
    | NoEmbeddings                    // an empty list has no second dimension
    | RaggedEmbeddings                // the embeddings do not form a matrix
    | NoIndexToSave                   // "No index to save. Create index first."
    | NoDirectory(path: string)       // `os.makedirs('')`, or `open` for writing in a missing directory
    | IndexFileNotFound(path: string)
    | MetadataFileNotFound(path: string)
    | Unreadable(path: string)        // the file holds something other than what is read from it

  /** All embeddings have the length of the first one. */
  predicate Rectangular(vs: seq<seq<real>>) {
    forall i :: 0 <= i < |vs| ==> |vs[i]| == |vs[0]|
  }

  /** The entry stored for one chunk: a copy of its metadata with its text under `chunk_text`. */
  function Entry(c: Chunker.TextChunk): Metadata {
    c.metadata + map["chunk_text" := Str(c.text)]
  }

  function Entries(chunks: seq<Chunker.TextChunk>): seq<Metadata> {
    seq(|chunks|, i requires 0 <= i < |chunks| => Entry(chunks[i]))
  }

  /**
   * Entry `i` is chunk `i`'s metadata with `chunk_text` set to chunk `i`'s text: every other
   * key keeps the chunk's value, and no key is added besides `chunk_text`.
   */
  lemma EntriesFacts(chunks: seq<Chunker.TextChunk>)
    ensures |Entries(chunks)| == |chunks|
    ensures forall i :: 0 <= i < |chunks| ==>
      var e := Entries(chunks)[i];
      && "chunk_text" in e && e["chunk_text"] == Str(chunks[i].text)
      && (forall k :: k in e && k != "chunk_text" ==> k in chunks[i].metadata && e[k] == chunks[i].metadata[k])
      && (forall k :: k in chunks[i].metadata ==> k in e)
  {
  }

  /** The position of the last `/` in `p`, or -1 when there is none. */
  function LastSlash(p: string): (k: int)
    ensures -1 <= k < |p|
    ensures k >= 0 ==> p[k] == '/'
    ensures forall j :: k < j < |p| ==> p[j] != '/'
  {
    if p == [] then -1
    else if p[|p| - 1] == '/' then |p| - 1
    else LastSlash(p[..|p| - 1])
  }

  /** `s` without its trailing `/` characters. */
  function StripSlashes(s: string): (r: string)
    ensures |r| <= |s| && r == s[..|r|]
    ensures r == [] || r[|r| - 1] != '/'
    ensures forall j :: |r| <= j < |s| ==> s[j] == '/'
  {
    if s != [] && s[|s| - 1] == '/' then StripSlashes(s[..|s| - 1]) else s
  }

  /**
   * `os.path.dirname(p)`: everything up to the last `/`, without its trailing slashes unless it
   * is made of slashes only. It is empty exactly when the path has no `/`.
   */
  function Dirname(p: string): (d: string)
    ensures d == "" <==> '/' !in p
    ensures |d| <= |p| && d == p[..|d|]
  {
    var head := p[..LastSlash(p) + 1];
    var stripped := StripSlashes(head);
    if stripped == "" then head else stripped
  }

  /** The directories that exist after `os.makedirs(d, exist_ok=True)`: `d` and the directories above it. */
  function Made(d: string): (r: set<string>)
    ensures d in r
    decreases |d|
  {
    var up := Dirname(d);
    if up != "" && |up| < |d| then {d} + Made(up) else {d}
  }

  /** `open(p, 'w')` can create `p`: it names no directory (the working directory) or one that exists. */
  predicate CanCreate(dirs: set<string>, p: string) {
    Dirname(p) == "" || Dirname(p) in dirs
  }

  /** The disk after `save_index`, and how the call ended. */
  datatype SaveStep = SaveStep(disk: Disk, result: Result<(), IndexError>)

  /**
   * `save_index` writing the index to `ip` and the metadata to `mp`: `os.makedirs` on the index
   * path's directory (an error when there is none), the index file, then the metadata file,
   * which `open` cannot create when its directory does not exist, even though the index file
   * has been written by then.
   */
  function SaveFiles(disk: Disk, ip: string, mp: string, index: FlatIndex, entries: seq<Metadata>): (r: SaveStep)
    ensures r.result.Success? <==> Dirname(ip) != "" && CanCreate(disk.dirs + Made(Dirname(ip)), mp)
    ensures r.result.Failure? ==> r.result.error == if Dirname(ip) == "" then NoDirectory(ip) else NoDirectory(mp)
    ensures Dirname(ip) == "" ==> r.disk == disk
    ensures Dirname(ip) != "" ==> r.disk.dirs == disk.dirs + Made(Dirname(ip)) && CanCreate(r.disk.dirs, ip)
    ensures Dirname(ip) != "" && r.result.Failure? ==> r.disk.files == disk.files[ip := IndexFile(index)]
    ensures r.result.Success? ==>
      && r.disk.files.Keys == disk.files.Keys + {ip, mp}
      && r.disk.files[mp] == MetadataFile(entries)
      && (ip != mp ==> r.disk.files[ip] == IndexFile(index))
    ensures forall p :: p in disk.files && p != ip && p != mp ==> p in r.disk.files && r.disk.files[p] == disk.files[p]
  {
    var dir := Dirname(ip);
    if dir == "" then SaveStep(disk, Failure(NoDirectory(ip)))
    else
      var made := disk.(dirs := disk.dirs + Made(dir));
      var indexed := made.(files := made.files[ip := IndexFile(index)]);
      if !CanCreate(indexed.dirs, mp) then SaveStep(indexed, Failure(NoDirectory(mp)))
      else SaveStep(indexed.(files := indexed.files[mp := MetadataFile(entries)]), Success(()))
  }

  /** Metadata beside the index (as with the default paths), or in a directory that exists, is always written. */
  lemma SaveBesideIndex(disk: Disk, ip: string, mp: string, index: FlatIndex, entries: seq<Metadata>)
    requires '/' in ip
    requires Dirname(mp) == Dirname(ip) || CanCreate(disk.dirs, mp)
    ensures SaveFiles(disk, ip, mp, index, entries).result.Success?
  {
    assert Dirname(ip) in Made(Dirname(ip));
  }

  /**
   * Metadata in a directory that neither exists nor is made for the index: the index file
   * `d/i` is written and then the metadata write `m/j` raises, leaving the index alone on disk.
   */
  lemma MetadataDirectoryNotMade(index: FlatIndex, entries: seq<Metadata>)
    ensures var s := SaveFiles(Disk(map[], {}), "d/i", "m/j", index, entries);
      && s.result == Failure(NoDirectory("m/j"))
      && s.disk.files == map["d/i" := IndexFile(index)]
  {
    assert LastSlash("d/i") == 1 by { assert "d/i"[..2] == "d/"; }
    assert Dirname("d/i") == "d" by { assert "d/i"[..2] == "d/"; assert "d/"[..1] == "d"; }
    assert Made("d") == {"d"};
    assert LastSlash("m/j") == 1 by { assert "m/j"[..2] == "m/"; }
    assert Dirname("m/j") == "m" by { assert "m/j"[..2] == "m/"; assert "m/"[..1] == "m"; }
  }

  /** The indexer's state after `load_index`, and how the call ended. */
  datatype LoadStep = LoadStep(index: Option<FlatIndex>, entries: seq<Metadata>, result: Result<(), IndexError>)

  /**
   * `load_index` from state (`index`, `entries`): both files must exist, the index path being
   * checked first. The index is replaced as soon as it is read, so a metadata file that
   * cannot be read leaves the new index beside the old metadata.
   */
  function LoadFiles(index: Option<FlatIndex>, entries: seq<Metadata>, disk: Disk, ip: string, mp: string): LoadStep {
    if ip !in disk.files then LoadStep(index, entries, Failure(IndexFileNotFound(ip)))
    else if mp !in disk.files then LoadStep(index, entries, Failure(MetadataFileNotFound(mp)))
    else if !disk.files[ip].IndexFile? then LoadStep(index, entries, Failure(Unreadable(ip)))
    else if !disk.files[mp].MetadataFile? then LoadStep(Some(disk.files[ip].index), entries, Failure(Unreadable(mp)))
    else LoadStep(Some(disk.files[ip].index), disk.files[mp].entries, Success(()))
  }

  /** Saving to two distinct paths and loading from them restores the index and the metadata, whatever the state before. */
  lemma SaveLoadRoundTrip(disk: Disk, ip: string, mp: string, index: FlatIndex, entries: seq<Metadata>,
                          before: Option<FlatIndex>, beforeEntries: seq<Metadata>)
    requires ip != mp
    requires SaveFiles(disk, ip, mp, index, entries).result.Success?
    ensures LoadFiles(before, beforeEntries, SaveFiles(disk, ip, mp, index, entries).disk, ip, mp)
         == LoadStep(Some(index), entries, Success(()))
  {
  }

  /** With the same path for both, the metadata overwrites the index and the load fails without changing the state. */
  lemma SamePathLosesIndex(disk: Disk, p: string, index: FlatIndex, entries: seq<Metadata>,
                           before: Option<FlatIndex>, beforeEntries: seq<Metadata>)
    requires SaveFiles(disk, p, p, index, entries).result.Success?
    ensures LoadFiles(before, beforeEntries, SaveFiles(disk, p, p, index, entries).disk, p, p)
         == LoadStep(before, beforeEntries, Failure(Unreadable(p)))
  {
  }

  /** A load that fails on a missing file leaves the state as it was; a successful one takes both files' contents. */
  lemma LoadOutcomes(index: Option<FlatIndex>, entries: seq<Metadata>, disk: Disk, ip: string, mp: string)
    ensures var s := LoadFiles(index, entries, disk, ip, mp);
      && (s.result.Success? <==> ip in disk.files && mp in disk.files && disk.files[ip].IndexFile? && disk.files[mp].MetadataFile?)
      && (s.result.Success? ==> s.index == Some(disk.files[ip].index) && s.entries == disk.files[mp].entries)
      && (s.result.Failure? ==> s.entries == entries)
      && (s.result.Failure? && s.index != index ==> s.result == Failure(Unreadable(mp)))
  {
  }

  /** The loader does not compare the number of vectors with the number of metadata entries. */
  lemma LoadDoesNotCheckCounts()
    ensures var disk := Disk(map["dir/index" := IndexFile(FlatIndex(1, [[0.0]])), "dir/meta" := MetadataFile([])], {"dir"});
      var s := LoadFiles(None, [], disk, "dir/index", "dir/meta");
      s.result.Success? && |s.index.value.vectors| != |s.entries|
  {
  }

  /** `get_stats`: a status entry when there is no index, the three counts otherwise. */
  datatype IndexStats = NoIndexLoaded | IndexStats(totalVectors: nat, dimension: nat, metadataCount: nat)

  class VectorIndexer {
    var index: Option<FlatIndex>
    var metadata: seq<Metadata>

    constructor()
      ensures index == None && metadata == []
    {
      index := None;
      metadata := [];
    }

    /** Stored vector `i` and metadata entry `i` describe the same chunk. */
    predicate Consistent()
      reads this
    {
      index.Some? && |index.value.vectors| == |metadata|
    }

    function Stats(): (s: IndexStats)
      reads this
      ensures s.NoIndexLoaded? <==> index == None
      ensures s.IndexStats? ==> s.totalVectors == |index.value.vectors| && s.dimension == index.value.d && s.metadataCount == |metadata|
      ensures s.IndexStats? ==> (Consistent() <==> s.totalVectors == s.metadataCount)
    {
      if index == None then NoIndexLoaded
      else IndexStats(|index.value.vectors|, index.value.d, |metadata|)
    }

    /**
     * `create_index`: on a length mismatch, an empty list or ragged embeddings it raises before
     * anything changes; otherwise it replaces the index by one holding the embeddings in order,
     * with the first embedding's length as dimension, and replaces the metadata by one entry per chunk.
     */
    method CreateIndex(embeddings: seq<seq<real>>, chunks: seq<Chunker.TextChunk>) returns (r: Result<(), IndexError>)
      modifies this
      ensures |embeddings| != |chunks| ==> r == Failure(LengthMismatch)
      ensures |embeddings| == |chunks| && embeddings == [] ==> r == Failure(NoEmbeddings)
      ensures |embeddings| == |chunks| && embeddings != [] && !Rectangular(embeddings) ==> r == Failure(RaggedEmbeddings)
      ensures r.Success? <==> |embeddings| == |chunks| && embeddings != [] && Rectangular(embeddings)
      ensures r.Failure? ==> index == old(index) && metadata == old(metadata)
      ensures r.Success? ==> index == Some(FlatIndex(|embeddings[0]|, embeddings)) && metadata == Entries(chunks)
      ensures r.Success? ==> Consistent() && Stats() == IndexStats(|chunks|, |embeddings[0]|, |chunks|)
    {
      if |embeddings| != |chunks| {
        return Failure(LengthMismatch);
      }
      if embeddings == [] {
        return Failure(NoEmbeddings);
      }
      if !(forall i | 0 <= i < |embeddings| :: |embeddings[i]| == |embeddings[0]|) {
        return Failure(RaggedEmbeddings);
      }
      index := Some(FlatIndex(|embeddings[0]|, embeddings));
      metadata := [];
      for i := 0 to |chunks|
        invariant index == Some(FlatIndex(|embeddings[0]|, embeddings))
        invariant |metadata| == i
        invariant forall k :: 0 <= k < i ==> metadata[k] == Entry(chunks[k])
      {
        metadata := metadata + [Entry(chunks[i])];
      }
      return Success(());
    }

    /**
     * `save_index`: raises when there is no index; otherwise makes the index path's directory,
     * writes the index, then writes the metadata (default paths from the settings).
     */
    method SaveIndex(disk: Disk, indexPath: Option<string>, metadataPath: Option<string>, settings: Config.Settings)
      returns (after: Disk, r: Result<(), IndexError>)
      ensures index == None ==> after == disk && r == Failure(NoIndexToSave)
      ensures index.Some? ==>
        SaveStep(after, r)
        == SaveFiles(disk, indexPath.GetOr(settings.faissIndexPath), metadataPath.GetOr(settings.metadataPath), index.value, metadata)
    {
      after := disk;
      if index == None {
        return after, Failure(NoIndexToSave);
      }
      var ip := indexPath.GetOr(settings.faissIndexPath);
      var mp := metadataPath.GetOr(settings.metadataPath);
      var dir := Dirname(ip);
      if dir == "" {
        return after, Failure(NoDirectory(ip));
      }
      after := after.(dirs := after.dirs + Made(dir));
      after := after.(files := after.files[ip := IndexFile(index.value)]);
      if !CanCreate(after.dirs, mp) {
        return after, Failure(NoDirectory(mp));
      }
      after := after.(files := after.files[mp := MetadataFile(metadata)]);
      r := Success(());
    }

    /** `load_index`, with the default paths from the settings. */
    method LoadIndex(disk: Disk, indexPath: Option<string>, metadataPath: Option<string>, settings: Config.Settings)
      returns (r: Result<(), IndexError>)
      modifies this
      ensures LoadStep(index, metadata, r)
           == LoadFiles(old(index), old(metadata), disk, indexPath.GetOr(settings.faissIndexPath), metadataPath.GetOr(settings.metadataPath))
    {
      var ip := indexPath.GetOr(settings.faissIndexPath);
      var mp := metadataPath.GetOr(settings.metadataPath);
      if ip !in disk.files {
        return Failure(IndexFileNotFound(ip));
      }
      if mp !in disk.files {
        return Failure(MetadataFileNotFound(mp));
      }
      if !disk.files[ip].IndexFile? {
        return Failure(Unreadable(ip));
      }
      index := Some(disk.files[ip].index);
      if !disk.files[mp].MetadataFile? {
        return Failure(Unreadable(mp));
      }
      metadata := disk.files[mp].entries;
      return Success(());
    }
  }
}
