# C-AIRA retrieval pipeline in Dafny

This project models the retrieval pipeline of C-AIRA, a question-answering assistant for IT
incidents. The pipeline has these stages:

- Documents are split into token windows (`TextChunker`).
- The chunks are embedded through a remote embedding model, with retry and back-off (`Embedder`).
- The vectors and one metadata record per vector are stored in a flat L2 index (`VectorIndexer`).
- The index is searched with a similarity threshold (`VectorStore`).
- The hits are turned into the context string sent to the language model (`Retriever`).
- The request sent to the model is built from messages and prompt templates (`LLMClient`,
  `prompt_template`).

The model also covers:

- the configuration validator;
- the word-packing chunker and the corpus loop of the minimal index builder;
- the keyword ranker of the stand-alone chatbot.

Each source file becomes one module:

| module | file | form |
|---|---|---|
| `Config` | config.dfy | record of settings, pure validator |
| `Chunker` | chunker.dfy | loop methods proved against window functions; the loop as written and a corrected one |
| `Embedder` | embedder.dfy | retry loop and batch loops as methods against recursive run functions; in-place `array` update |
| `Indexer` | indexer.dfy | `class VectorIndexer` with `index`/`metadata` fields; files as a map from path to contents, with the set of existing directories |
| `VectorStore` | vector_store.dfy | `class VectorStore` with the `loaded` flag; exact exhaustive search; filtering loop |
| `Retriever` | retriever.dfy | source list, context assembly, `retrieve` |
| `LlmClient` | llm_client.dfy | message conversion loop, request construction, reply extraction |
| `PromptTemplate` | prompt_template.dfy | prompt constants, `str.format` over a split template |
| `MinimalBuild` | minimal_build_index.dfy | word-packing loop, lockstep chunk/metadata loop |
| `KeywordSearch` | chatbot.dfy | scoring loop, stable descending sort, confidence |

There are also four helper modules:

- `Wrappers`: `Option` and `Result`.
- `PyText`: Python's `split`, `join`, ASCII `lower`, `in` on strings, string `<`, `str(int)` and
  slicing.
- `Ranking`: an insertion sort by key and tie-breaker. It serves as both the FAISS stand-in and
  the stable sort of the keyword ranker.
- `Meta`: metadata values.

External services are parameters:

- The embedding service is a function from (request, global call number) to an outcome.
- The chat service is a function from request to reply.
- The tokenizer is a pair of functions.

A raised exception is a `Failure` value.

## Model

| member | source | states |
|---|---|---|
| Config.Validate | src/config.py:50-86 | `(True, None)` exactly when every rule passes; otherwise `False` with a message |
| Config.ValidateReportsFirstFailure | src/config.py:57-84 | the message returned is the one of the first rule that fails, in the source's order |
| Config.DefaultsLackAccessKey | src/config.py:57-58 | with the default settings (no environment), validation stops at "AWS_ACCESS_KEY_ID is not set" |
| Config.AcceptedEdges | src/config.py:76-84 | a negative overlap is accepted, and both threshold endpoints 0 and 1 are accepted |
| Config.OverlapEqualToSizeRejected | src/config.py:76-77 | an overlap equal to the chunk size is rejected with the overlap message |
| Chunker.ChunkDocumentAsWritten | src/ingestion/chunker.py:60-118 | the loop as written: within the fuel it yields the chunks of the windows `Spans` visits, with `total_chunks` filled in, and `None` when it has not left the loop |
| Chunker.ChunkDocument | src/ingestion/chunker.py:60-118 | the corrected loop (stops after the window that reaches the end) yields exactly `DocChunks` |
| Chunker.FillTotals | src/ingestion/chunker.py:113-115 | the backfill loop turns the pending chunks into the emitted ones, with `total_chunks` set to the count |
| Chunker.Backfill | src/ingestion/chunker.py:114-115 | setting `total_chunks` on a pending chunk gives the chunk built with that total |
| Chunker.FixedStep | src/ingestion/chunker.py:80-111 | one loop iteration: window `[start, min(start + size, total))`, then the next start, or the end of the loop when the window reaches the end |
| Chunker.AsWrittenDiverges | src/ingestion/chunker.py:107-111 | for `0 < overlap < chunk_size` and a non-empty token list, the loop never leaves, whatever the fuel |
| Chunker.AsWrittenAgrees | src/ingestion/chunker.py:107-111 | for `overlap <= 0` or `overlap >= chunk_size`, the loop as written finishes and visits the corrected loop's windows |
| Chunker.AsWrittenTerminatesIff | src/ingestion/chunker.py:80-111 | for non-empty input, the loop as written ends exactly when the overlap lies outside `(0, chunk_size)` |
| Chunker.FixedSpansShape | src/ingestion/chunker.py:80-111 | windows exist exactly when the start is before the end; each is non-empty, in range and at most `chunk_size` long; the first starts at `start`; each next one starts at `NextStart` of the previous end |
| Chunker.AdjacentOverlap | src/ingestion/chunker.py:107-111 | for `0 <= overlap < chunk_size`, adjacent windows share exactly `overlap` tokens |
| Chunker.WindowsCover | src/ingestion/chunker.py:80-111 | with a non-negative overlap every token lies in some window |
| Chunker.WindowsTile | src/ingestion/chunker.py:80-111 | with overlap 0, or an overlap the guard forces away, the windows' tokens concatenate to the token list with no gap or repeat |
| Chunker.TokenCountsAddUp | src/ingestion/chunker.py:82-94 | with overlap 0, or one the guard forces away, the window lengths (each chunk's `token_count`) add up to the number of tokens from the start |
| Chunker.EmitFacts | src/ingestion/chunker.py:85-104 | one chunk per window, `chunk_id` `i` on the object and in the metadata, the decoded window as text, start/end/count fields, `total_chunks` equal to the count, other document keys kept |
| Chunker.DocChunksFacts | src/ingestion/chunker.py:60-118 | the same for a whole document, each window at most `chunk_size` tokens and ending at `min(start + chunk_size, total)` |
| Chunker.NoChunksIffNoTokens | src/ingestion/chunker.py:78-80 | a document yields no chunks exactly when it has no tokens |
| Chunker.ChunkDocuments | src/ingestion/chunker.py:120-137 | `chunk_documents` returns `AllChunks`, each document's chunks in document order |
| Chunker.AllChunksConcat | src/ingestion/chunker.py:130-134 | chunking a concatenation of document lists concatenates their chunk lists |
| Chunker.TokenCountValues | src/ingestion/chunker.py:152 | the `token_count` of every chunk in order, or a `KeyError` naming a chunk without one |
| Chunker.TokenCounts | src/ingestion/chunker.py:152-159 | the token counts as numbers; `KeyError` at a chunk without one, `TypeError` when one is not a number |
| Chunker.Summarize | src/ingestion/chunker.py:154-160 | count, total equal to the sum, mean times count equal to the sum, minimum and maximum drawn from the list and bounding it |
| Chunker.GetChunkStats | src/ingestion/chunker.py:139-162 | `{}` for no chunks, otherwise the summary of the token counts, failing exactly when they cannot be read |
| Chunker.MinOf | src/ingestion/chunker.py:157 | `min` is an element and a lower bound |
| Chunker.MaxOf | src/ingestion/chunker.py:158 | `max` is an element and an upper bound |
| Embedder.EmbedText | src/ingestion/embedder.py:37-85 | the result, the calls made and the waits equal the run `Attempts` describes |
| Embedder.CallsBounded | src/ingestion/embedder.py:48 | at most `max_retries` calls, and at least one when an attempt is allowed |
| Embedder.ExhaustedIffNoAttempts | src/ingestion/embedder.py:48-85 | the trailing "failed after n attempts" is raised exactly when no attempt is allowed (`max_retries <= 0`) |
| Embedder.RetryTrace | src/ingestion/embedder.py:48-83 | every call but the last was throttled and followed by a wait of `2^attempt` s; the last call's outcome decides the result |
| Embedder.NoRetryUnlessThrottled | src/ingestion/embedder.py:72-83 | any outcome other than a throttle on a non-final attempt ends the loop after one call, with no wait |
| Embedder.AlwaysThrottled | src/ingestion/embedder.py:72-80 | a service that always throttles gets `max_retries` calls and the throttle error |
| Embedder.TextRunFacts | src/ingestion/embedder.py:48-70 | with the default three retries a text costs at most three calls, and a success is a non-empty embedding |
| Embedder.FailureSticks | src/ingestion/embedder.py:113-115 | once a text fails, no later text is embedded and the batch fails with that error |
| Embedder.MarksStep | src/ingestion/embedder.py:109-123 | one batch step of the logged progress values |
| Embedder.MarksFacts | src/ingestion/embedder.py:122-124 | the logged progress is non-decreasing, never exceeds the total and ends at it |
| Embedder.EmbedSlice | src/ingestion/embedder.py:110-120 | the inner loop over one batch extends the sequential run by exactly that batch's texts |
| Embedder.EmbedBatch | src/ingestion/embedder.py:87-127 | for any positive batch size the outcome is the sequential run over all texts, and progress is logged per batch; batch size 0 raises; a negative one returns `[]` |
| Embedder.EmbedPrefixFacts | src/ingestion/embedder.py:104-120 | a successful run yields one embedding per text, embedding `k` produced for text `k`, with at most three calls per text |
| Embedder.EmbedAllInOrder | src/ingestion/embedder.py:87-127 | `embed_batch` yields one non-empty embedding per text, in input order |
| Embedder.Texts | src/ingestion/embedder.py:147 | the chunks' texts in order |
| Embedder.StoreEmbeddings | src/ingestion/embedder.py:152-154 | the `zip` loop sets the embedding of each chunk that has one at its position, in place, and leaves the chunks past the shorter of the two lists as they were |
| Embedder.EmbedChunks | src/ingestion/embedder.py:129-157 | on success each chunk gets the embedding at its position, in place, and the same list is returned; on failure the chunks are unchanged |
| Indexer.EntriesFacts | src/ingestion/indexer.py:53-57 | entry `i` is chunk `i`'s metadata with `chunk_text` set to its text; no other key is added or changed |
| Indexer.SaveFiles | src/ingestion/indexer.py:78-88 | `os.makedirs` fails, writing nothing, when the index path has no directory part; otherwise the index path's directory and those above it exist and the index is written, and the metadata write then fails exactly when its directory still does not exist, leaving the index file written; on success both paths are written; all other paths keep their contents |
| Indexer.SaveBesideIndex | src/ingestion/indexer.py:78-88 | metadata in the index's own directory, or in one that exists, is always written |
| Indexer.MetadataDirectoryNotMade | src/ingestion/indexer.py:78-88 | with index `d/i` and metadata `m/j` on an empty disk, the index is written and the metadata write raises |
| Indexer.Dirname | src/ingestion/indexer.py:79 | `os.path.dirname` is empty exactly when the path has no `/`, and is a prefix of the path |
| Indexer.SaveLoadRoundTrip | src/ingestion/indexer.py:61-117 | a save to two distinct paths that succeeds, followed by a load from them, restores the index and the metadata |
| Indexer.SamePathLosesIndex | src/ingestion/indexer.py:82-111 | with one path for both, the metadata overwrites the index and the load fails |
| Indexer.LoadOutcomes | src/ingestion/indexer.py:104-117 | a load succeeds exactly when both files exist and are readable, and then takes both; a failure keeps the metadata |
| Indexer.LoadDoesNotCheckCounts | src/ingestion/indexer.py:110-117 | a load can succeed with a vector count different from the metadata count |
| Indexer.VectorIndexer.constructor | src/ingestion/indexer.py:20-24 | no index and no metadata |
| Indexer.VectorIndexer.Stats | src/ingestion/indexer.py:119-133 | a status entry exactly when there is no index, otherwise vector count, dimension and metadata count |
| Indexer.VectorIndexer.CreateIndex | src/ingestion/indexer.py:26-59 | raises on a length mismatch, an empty list or ragged embeddings, with nothing changed; otherwise the index holds the embeddings in order with the first one's length as dimension, and the metadata is replaced by one entry per chunk |
| Indexer.VectorIndexer.SaveIndex | src/ingestion/indexer.py:61-88 | raises, changing nothing, when there is no index; otherwise the new disk and the outcome are those of `SaveFiles`, with default paths from the settings |
| Indexer.VectorIndexer.LoadIndex | src/ingestion/indexer.py:90-117 | the new state and the outcome are those of `LoadFiles`, with default paths from the settings |
| VectorStore.SqDist | src/retrieval/vector_store.py:74 | the squared L2 distance is non-negative |
| VectorStore.SqDistSelf | src/retrieval/vector_store.py:74 | a vector is at distance 0 from itself |
| VectorStore.RankedEntry | src/retrieval/vector_store.py:74 | each entry of the exhaustive ranking is a stored position keyed by its own distance |
| VectorStore.NearestEntries | src/retrieval/vector_store.py:74 | `k` rows; the first `min(k, ntotal)` are stored positions with their true distances; the rest are the library's empty slots (`-1`) |
| VectorStore.NearestOrder | src/retrieval/vector_store.py:74 | the returned positions are distinct and in ascending distance |
| VectorStore.NearestOptimal | src/retrieval/vector_store.py:74 | no stored vector that is left out is nearer than a returned one |
| VectorStore.FlatSearch | src/retrieval/vector_store.py:70-74 | a successful search returns exactly `k > 0` rows |
| VectorStore.MaxDistance | src/retrieval/vector_store.py:78 | `np.max`: bounds every distance and is attained |
| VectorStore.Scale | src/retrieval/vector_store.py:78 | the normaliser is positive (1.0 when the maximum is not) |
| VectorStore.SimilarityBounds | src/retrieval/vector_store.py:78-79 | for non-negative distances every similarity lies in [0, 1] |
| VectorStore.Ratio | src/retrieval/vector_store.py:79 | a distance no larger than the normaliser gives a ratio in [0, 1] |
| VectorStore.FarthestScoresZero | src/retrieval/vector_store.py:78-89 | when the maximum is positive the farthest row scores 0 and any positive threshold drops it |
| VectorStore.HitsSound | src/retrieval/vector_store.py:83-100 | each result is a kept row (index in bounds, similarity at least the threshold) numbered `row + 1` |
| VectorStore.HitsRanksIncrease | src/retrieval/vector_store.py:83-100 | ranks strictly increase along the results |
| VectorStore.HitsComplete | src/retrieval/vector_store.py:83-100 | every kept row yields a result |
| VectorStore.HitsLength | src/retrieval/vector_store.py:83-100 | there are no more results than rows |
| VectorStore.NearestAscending | src/retrieval/vector_store.py:74 | the stored rows come in ascending distance |
| VectorStore.HitsAscending | src/retrieval/vector_store.py:83-100 | filtering keeps the ascending-distance order |
| VectorStore.SearchResultFacts | src/retrieval/vector_store.py:40-103 | each result is a stored position with metadata, at its true distance, with similarity in [threshold, 1] and rank in 1..k |
| VectorStore.SearchOrder | src/retrieval/vector_store.py:74-100 | the results have increasing ranks and non-decreasing distances |
| VectorStore.ChunkTextOfIndexedChunk | src/retrieval/vector_store.py:105-119 | the indexer stores the text under `chunk_text`, so `get_chunk_text` returns the placeholder for a chunk without a `text` key |
| VectorStore.VectorStore.constructor | src/retrieval/vector_store.py:18-22 | a fresh indexer, not loaded |
| VectorStore.VectorStore.Load | src/retrieval/vector_store.py:24-38 | the indexer's `load_index`; `loaded` becomes true only when it returned normally |
| VectorStore.VectorStore.Search | src/retrieval/vector_store.py:40-103 | raises unless loaded and holding an index; `top_k` and the threshold default to the settings; otherwise the post-processed exhaustive search |
| VectorStore.VectorStore.Stats | src/retrieval/vector_store.py:121-131 | "Not loaded" before a load, the indexer's statistics after |
| Retriever.AddSortedFacts | src/retrieval/retriever.py:26-28 | adding a name to the sorted set keeps it strictly sorted and adds exactly that name |
| Retriever.SortedUnique | src/retrieval/retriever.py:29 | two strictly ascending lists with the same elements are equal, so the sorted list of a set is unique |
| Retriever.SourcesFacts | src/retrieval/retriever.py:24-29 | the source list exists exactly when every chunk has a filename; it is strictly ascending and holds exactly the chunks' filenames |
| Retriever.GetSources | src/retrieval/retriever.py:24-29 | the loop computes `Sources` |
| Retriever.FailureSticks | src/retrieval/retriever.py:27-28 | once a lookup fails the source list stays failed |
| Retriever.ToDict | src/retrieval/retriever.py:31-38 | `num_chunks` is the chunk count and `sources` is `get_sources()`; query and context are copied |
| Retriever.EntryParts | src/retrieval/retriever.py:112-122 | one result's parts exist exactly when its header keys are present (or metadata is not shown); otherwise the lookup raises `KeyError` |
| Retriever.PartsOutcome | src/retrieval/retriever.py:111-123 | the loop finishes exactly when every result is formattable, and otherwise raises a `KeyError` |
| Retriever.PartsLayout | src/retrieval/retriever.py:111-123 | when the loop finishes, result `i` occupies four parts (two without metadata) from position `4i` (`2i`), in the documented order |
| Retriever.PartsShape | src/retrieval/retriever.py:109-123 | the loop finishes exactly when every result has the header keys (when metadata is shown), and otherwise raises a `KeyError`; per result (1-based `i`): a header "[Document i] Source: f (Type: t)", a dash line as long as the header, the stored `chunk_text` value and an empty line; without metadata only the text and an empty line; the placeholder for a missing text |
| Retriever.Strings | src/retrieval/retriever.py:125 | `join` accepts the parts exactly when all are strings, keeping them in order, and otherwise raises its `TypeError` |
| Retriever.PartsStrings | src/retrieval/retriever.py:109-125 | after the loop, the parts are all strings exactly when every chunk text is |
| Retriever.ContextOutcome | src/retrieval/retriever.py:109-125 | a context is returned exactly when every result has the header keys and a string chunk text; a missing header key raises `KeyError` whatever the earlier texts are; only after the loop can the failure be the join's `TypeError` |
| Retriever.KeyErrorBeforeJoin | src/retrieval/retriever.py:109-125 | a first result with the integer 5 as text and a second without `filename` raise `KeyError('filename')` |
| Retriever.FormatContext | src/retrieval/retriever.py:98-125 | the loop and the final join compute `Context`, the parts joined by newlines |
| Retriever.PartsFailureSticks | src/retrieval/retriever.py:111-123 | once a header lookup raises, the loop's outcome is that error |
| Retriever.EffectiveTopK | src/retrieval/retriever.py:81 | `None` and 0 fall back to the configured `top_k`; any other value is used |
| Retriever.AnswerFacts | src/retrieval/retriever.py:84-96 | an empty search gives no chunks and exactly the fixed message; otherwise the chunks are the results unchanged, with their formatted context |
| Retriever.Retriever.constructor | src/retrieval/retriever.py:44-48 | a fresh, unloaded store |
| Retriever.Retriever.LoadIndex | src/retrieval/retriever.py:50-53 | the store's `load` with the default paths |
| Retriever.Retriever.Retrieve | src/retrieval/retriever.py:55-96 | embeds the query with three attempts, searches with the defaulted `top_k` and the store's threshold, and answers as `Answer` |
| LlmClient.NewClient | src/generation/llm_client.py:22-39 | the client's model and inference defaults come from the settings |
| LlmClient.LastSystemWins | src/generation/llm_client.py:70-72 | the system prompt is the last system message's content, or empty when there is none |
| LlmClient.ConversationAppend | src/generation/llm_client.py:70-77 | conversion is message by message, in order |
| LlmClient.ConversationOfOne | src/generation/llm_client.py:71-77 | a system message adds nothing; any other adds itself with its content wrapped as one text block |
| LlmClient.ConversationHasNoSystem | src/generation/llm_client.py:71-77 | no system turn enters the conversation, and each turn has one text block |
| LlmClient.ConvertMessages | src/generation/llm_client.py:66-77 | the loop computes the system prompt and the conversation |
| LlmClient.RequestSystemField | src/generation/llm_client.py:89-91 | the request has a `system` field exactly when the system prompt is non-empty, holding it |
| LlmClient.Generate | src/generation/llm_client.py:41-116 | each parameter is the given value when not `None` (0.0 included) and the default otherwise; the reply text is the first content block's text |
| LlmClient.ContextRequest | src/generation/llm_client.py:118-143 | exactly one user turn "Context:\n{context}\n\nQuestion: {query}", and the system prompt when non-empty |
| LlmClient.GenerateWithContext | src/generation/llm_client.py:118-143 | `generate` on those two messages with only the temperature overridable |
| LlmClient.DeltasAppend | src/generation/llm_client.py:198-204 | deltas are taken event by event, in stream order |
| LlmClient.NoDeltasNoText | src/generation/llm_client.py:198-204 | a stream without text deltas yields nothing |
| LlmClient.GenerateStreaming | src/generation/llm_client.py:145-208 | the streaming request carries temperature and max tokens but no top-p; the yielded texts are the deltas |
| PromptTemplate.FormatFails | src/generation/prompt_template.py:67 | `str.format` succeeds exactly when every field has an argument, and otherwise names a field without one |
| PromptTemplate.UserPromptShape | src/generation/prompt_template.py:37-67 | the user prompt is "Context Information:\n", the context, "\n\nUser Query:\n", the query, then the fixed instructions |
| PromptTemplate.CreateMessages | src/generation/prompt_template.py:70-84 | two messages, the system prompt first, the user prompt second |
| PromptTemplate.MessagesRequest | src/generation/prompt_template.py:81-84 | sent through `generate`, they give `system = [SYSTEM_PROMPT]` and one user turn |
| PromptTemplate.GetPromptVariant | src/generation/prompt_template.py:119-135 | the three named variants map to their prompts; any other name falls back to the default |
| MinimalBuild.SimpleChunkText | scripts/minimal_build_index.py:21-40 | the loop computes `SimpleChunks` |
| MinimalBuild.GroupsCover | scripts/minimal_build_index.py:23-38 | the groups concatenate to the words; there are none exactly when there is no word |
| MinimalBuild.GroupsNonEmpty | scripts/minimal_build_index.py:28-38 | every group holds at least one word |
| MinimalBuild.GroupsClosed | scripts/minimal_build_index.py:30-35 | every group but the last reached the size on its last word and not before |
| MinimalBuild.ChunkWords | scripts/minimal_build_index.py:33-38 | splitting a chunk gives back its group |
| MinimalBuild.ChunksKeepWords | scripts/minimal_build_index.py:23-38 | the chunks' words, concatenated, are exactly `text.split()`, and each chunk has a word |
| MinimalBuild.ChunksReachSize | scripts/minimal_build_index.py:30-35 | every chunk but the last has `Σ(len(w)+1) >= chunk_size`; every proper prefix of every chunk is below it |
| MinimalBuild.NoWordsNoChunks | scripts/minimal_build_index.py:23-38 | no chunk exactly when there is no word; empty or all-whitespace text gives none |
| MinimalBuild.BlankHasNoWords | scripts/minimal_build_index.py:23 | an all-whitespace text has no words |
| MinimalBuild.CorpusAt | scripts/minimal_build_index.py:86-93 | chunk `i` of document `j` and its record, numbered `i`, sit at the same position in both lists |
| MinimalBuild.CorpusLengths | scripts/minimal_build_index.py:86-93 | the two lists have equal lengths |
| MinimalBuild.CorpusTexts | scripts/minimal_build_index.py:88-93 | record `k` carries chunk `k`'s text |
| MinimalBuild.CorpusLockstep | scripts/minimal_build_index.py:86-93 | equal lengths, matching texts, and `chunk_id` counting from 0 within each document |
| MinimalBuild.BuildCorpus | scripts/minimal_build_index.py:64-93 | the document loop computes both lists |
| KeywordSearch.Score | chatbot_enhanced.py:84 | at most the number of query words; positive exactly when some query word occurs in the lowercased content |
| KeywordSearch.ScoredFacts | chatbot_enhanced.py:81-86 | the unsorted list holds, in knowledge order, every document with a positive score and only those |
| KeywordSearch.RankedFacts | chatbot_enhanced.py:88 | after the sort every matching document appears exactly once; scores do not increase; equal scores keep knowledge order |
| KeywordSearch.SearchFacts | chatbot_enhanced.py:76-89 | at most `top_k` documents, each from the knowledge base and containing a query word, taken from the top of the ranking |
| KeywordSearch.SearchKeepsBest | chatbot_enhanced.py:88-89 | a matching document left out scores no higher than any document returned |
| KeywordSearch.SimpleSearch | chatbot_enhanced.py:76-89 | the loop, sort and slice compute `Search` |
| KeywordSearch.Confidence | chatbot_enhanced.py:360 | at most both 100 and `25*docs + 15*insights`, and equal to one of them, so exactly `min(100, 25*docs + 15*insights)` |
| KeywordSearch.ConfidenceMonotone | chatbot_enhanced.py:360 | more documents or more matches never lower the confidence |

## Left out

- Network calls are not modelled; each becomes a function parameter. These are the Bedrock
  `invoke_model`, `converse` and `converse_stream` calls, and the status and location APIs in
  src/data_sources/api_integrations.py. The embedding service also takes the global call number,
  so a sequence of outcomes can be expressed.
- `time.sleep` is not modelled. The waits are recorded as a list of durations instead.
- File I/O is reduced to a map from path to contents and a set of existing directories. This
  covers `faiss.write_index`/`read_index`, the JSON dump and load, `os.makedirs` and
  `os.path.exists`. Paths are compared as written, without normalisation (`a/./b`, `..`,
  symbolic links). A file standing where a directory is made, or a directory where a file is
  written, is not modelled. A file that exists but holds the
  wrong kind of content is an `Unreadable` failure. The document loader
  (src/ingestion/document_loader.py) and the chatbot's `load_knowledge_base` are not part of this
  model; the documents are inputs.
- FAISS is replaced by an exact exhaustive search over `real` vectors. float32 rounding is not
  modelled. Equal distances are ordered by stored position, a modelling choice.
- FAISS argument checks: a query of the wrong dimension fails before a non-positive `k`. This
  order belongs to the library, not to the source.
- tiktoken is a pair of uninterpreted functions (`encode`, `decode`), so no property of the
  encoding itself is assumed.
- `Lower` folds only ASCII letters; Python's `str.lower` also folds other scripts.
- Logging, the Streamlit UI and the chatbot's presentation code are left out. So are
  src/data_sources/csv_analyzer.py (pandas aggregation over floats), src/utils/logger.py and
  test_external_data.py.
- `Config.get_summary` (string formatting) and the environment reading of src/config.py are left
  out; the settings are a record parameter.
- `Retriever.get_chunk_details` is left out. It formats `filename`, `doc_type`, `chunk_id`,
  `total_chunks` and `token_count` from the metadata, and the similarity with three decimals,
  into a text. A missing metadata key raises `KeyError`.
- `Embedder.get_embedding_dimension` returns the constant 1024 without calling the service; it is
  not modelled.
- Chunker.Summarize: the mean is the exact rational `sum / len`. Python's `/` returns the
  nearest float, so `avg_tokens * len == sum` holds only up to rounding there.
- Chunker.ChunkDocumentAsWritten: the loop as written is bounded by a `fuel` count of
  iterations, and `None` stands for "has not returned yet". Unbounded loops cannot be written here.
- Retriever.GetSources: a filename that is not a string is a failure. Python would add it to the
  set, and `sorted` raises only when the names cannot be compared.
- Embedder.EmbedChunks: every chunk record carries its `text`. The `KeyError` that
  `chunk['text']` raises for a chunk without one is not modelled.
- LlmClient.Generate: messages are records with a role and a content. A message dict without
  those keys, which would raise `KeyError`, cannot be expressed.
- LlmClient.GenerateStreaming: the generator is modelled as the list of texts it yields. How the
  caller interleaves with it is not modelled, and neither is an error raised after some text was
  yielded.
- The orchestration scripts scripts/build_index.py and scripts/quick_build_index.py are not
  modelled.
- The embedding, index and save steps of scripts/minimal_build_index.py are separate code, not
  the modelled embedder and indexer, and are not modelled. Its `get_embedding` makes one
  `invoke_model` call, with no retry and no check for an empty embedding. Its `main` builds the
  FAISS index and writes `vector_store/faiss_index` and `vector_store/metadata.json` itself.
  Its records carry `type` rather than the `doc_type` that `Retriever.Context` reads for the
  header, so a context built from them with metadata fails with `MissingKey("doc_type")`.

## Findings

| source | as written | input that shows it | evidently intended | confidence | as-written member | corrected member |
|---|---|---|---|---|---|---|
| src/ingestion/chunker.py:107-111 | after the window that ends at `total_tokens`, the next start is `total_tokens - overlap`; for `0 < overlap < chunk_size` the guard does not force it on, so the same tail window is emitted forever | any document with at least one token, with the default `chunk_size = 600` and `chunk_overlap = 50` | stop after the window that reaches the end of the tokens | not executed | Chunker.AsWrittenDiverges | Chunker.ChunkDocument |
