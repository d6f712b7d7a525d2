# A verified model of the MCP server suite's core

This project is a Dafny model of the core of a suite of Model Context Protocol servers. The
servers give a coding assistant three kinds of help:

- **retrieval over a local code base**: document loading, chunking, embeddings, a flat FAISS
  vector index, a SQLite metadata store with an FTS5 keyword index, hybrid query fusion, a
  query history and a debounced file watcher;
- **memory across a session**: a shared workspace state file and a SQLite session store;
- **analysis and planning**: an analysis cache, code-smell and complexity reports, a LINQ
  query analyser for Entity Framework code, and a task generator with its task templates.

Each source file of the core is one Dafny module, named after it:

| module | source file | form |
|---|---|---|
| `Chunking` | `rag/src/chunking.py` | functions and a `RecursiveChunker` class with loop methods |
| `DocumentProcessor` | `rag/src/document_processor.py` | a directory tree as a datatype; walking it is recursive |
| `Embeddings` | `rag/src/embeddings.py` | an `OllamaEmbedder` class that caches the model's dimension |
| `VectorStore` | `rag/src/vector_store.py` | a `FaissVectorStore` class over a flat index, plus its files on disk |
| `Metadata` | `rag/src/metadata_store.py` | a `MetadataStore` class holding the tables, the FTS mirror and the id counters |
| `IndexManager` | `rag/src/index_manager.py` | an `IndexManager` class over the stores above |
| `QueryHistory` | `rag/src/query_history.py` | a `QueryHistoryStore` class over the history table |
| `FileWatcher` | `rag/src/file_watcher.py` | an `IndexFileHandler` class with its pending set and debounce clock |
| `WorkspaceState` | `shared/workspace_state.py` | a `WorkspaceStore` class over the cached state and the state file |
| `SessionStore` | `session-memory/src/session_store.py` | a `SessionDatabase` class over the four tables |
| `AnalysisCache` | `code-analysis/src/analysis_cache.py` | a `Cache` class over the cache directory and its counters |
| `CodeSmells`, `Complexity` | `code-analysis/src/code_smells.py`, `complexity.py` | pure functions, plus the reporting loops |
| `LinqAnalysis` | `efcore-analysis/src/analyzers/linq_analyzer.py` | pure functions, plus the extraction and reporting loops |
| `TaskGenerator`, `TaskTemplates` | `task-generator/src/task_generator.py`, `task_templates.py` | pure functions, plus the split, adjust and renumber loops |

`Wrappers`, `Collections`, `Strings`, `Sorting` and `JsonValues` are shared helpers:

- `Option` and `Result`;
- a dictionary as an association list in insertion order, as Python's `dict` keeps it;
- Python slicing and SQL `LIMIT`;
- substring search, ASCII case folding and SQL `LIKE` with its `%` and `_` wildcards;
- stable sorting with its sortedness and permutation lemmas;
- JSON values.

What no proof can see becomes a parameter:

- the embedding model, the similarity FAISS computes, FTS5 matching and BM25 ranking, MD5,
  `fnmatch`, the clock and ISO-8601 formatting;
- `now` is an integer number of seconds (the file watcher keeps the source's float seconds,
  as `real`).

Methods that change state are proved against specification functions. Their `ensures` give
the whole new state in terms of those functions. The lemmas then prove what the source
promises about the functions.

## Model

| member | source | states |
|---|---|---|
| `Chunking.BreakPointWith` | rag/src/chunking.py:60-74 | the break point always lies strictly after the window start and no later than its end, so every chunk is non-empty |
| `Chunking.BreakPointChoice` | rag/src/chunking.py:60-74 | the break point is chosen by the first separator, in priority order, that occurs after the window start; it is the end of that separator's last occurrence in the window; the empty separator, or no separator found, cuts at the window end |
| `Chunking.NextStart` | rag/src/chunking.py:52-56 | the next window starts strictly after the current one, at the chunk end minus the overlap; if that would not advance, it starts at the chunk end |
| `Chunking.ChunksFromStep` | rag/src/chunking.py:30-56 | a text longer than the window gives the chunk `text[start..end]` at the break point, followed by the chunks from the next start |
| `Chunking.ChunksFromLast` | rag/src/chunking.py:30-56 | a remainder that fits in one window becomes a single last chunk running to the end of the text |
| `Chunking.ChunksFromWellFormed` | rag/src/chunking.py:24-58 | every chunk is the non-empty slice of the text between its recorded offsets, and no longer than `chunk_size` |
| `Chunking.ChunksFromEnds` | rag/src/chunking.py:24-58 | there are no chunks exactly when the start is past the text; the first chunk begins at the start; with a non-negative overlap the last chunk ends at the end of the text |
| `Chunking.ChunksFromSteps` | rag/src/chunking.py:52-56 | chunk starts strictly increase, and consecutive chunks overlap by at most `overlap` characters |
| `Chunking.NoGaps` | rag/src/chunking.py:24-58 | with a non-negative overlap each chunk starts no later than the previous one ends, so no text between chunks is skipped |
| `Chunking.ChunkTextCovers` | rag/src/chunking.py:24-58 | with a non-negative overlap every character of the text lies inside some chunk |
| `Chunking.ShortText` | rag/src/chunking.py:24-58 | a text no longer than `chunk_size` becomes one chunk covering it, and the empty text becomes no chunks |
| `Chunking.RecursiveChunker.constructor` | rag/src/chunking.py:18-22 | the chunker keeps its size and overlap and uses the source's separator list in priority order |
| `Chunking.RecursiveChunker.FindBreakPoint` | rag/src/chunking.py:60-74 | the loop over separators returns the break point of the specification |
| `Chunking.RecursiveChunker.NextWindow` | rag/src/chunking.py:30-56 | one pass of the chunking loop emits the first chunk of the specification and moves strictly forward |
| `Chunking.RecursiveChunker.ChunkDocument` | rag/src/chunking.py:24-58 | the chunking loop returns exactly the specified chunk sequence |
| `Chunking.ChunkTextMethod` | rag/src/chunking.py:77-80 | the convenience function chunks with a fresh chunker of the given size and overlap |
| `DocumentProcessor.Suffix` | rag/src/document_processor.py:47-76 | the file type is empty, or a final dot-and-extension ending the name with no other dot in it; it is never the whole name |
| `DocumentProcessor.SuffixAtLastDot` | rag/src/document_processor.py:47-76 | conversely, the file type runs from the last dot of the name when that dot is neither its first nor its last character, and is empty otherwise, including for a name with no dot |
| `DocumentProcessor.ShouldExcludeIff` | rag/src/document_processor.py:95-121 | a path is excluded exactly when it lies under the base and some pattern excludes it; no pattern, or a path outside the base, excludes nothing |
| `DocumentProcessor.ParentHitIff` | rag/src/document_processor.py:104-113 | a directory pattern hits exactly when some parent directory equals it or matches it |
| `DocumentProcessor.ExcludedByIff` | rag/src/document_processor.py:101-121 | the pattern loop excludes a path exactly when one of the patterns does |
| `DocumentProcessor.DirectoryPatternExcludes` | rag/src/document_processor.py:104-113 | a pattern ending in `/` excludes every path below a directory of that name |
| `DocumentProcessor.OwnNameExcludes` | rag/src/document_processor.py:104-113 | a pattern ending in `/` also excludes the directory of that name itself |
| `DocumentProcessor.PatternMatchExcludes` | rag/src/document_processor.py:115-119 | a pattern that `fnmatch` matches against the relative path excludes it |
| `DocumentProcessor.IterFilesAdmitted` | rag/src/document_processor.py:78-93 | every path the walk yields lies below the directory and has a listed suffix; neither it nor any directory on the way to it is excluded |
| `DocumentProcessor.LoadFile` | rag/src/document_processor.py:47-76 | a missing, unreadable or unlisted-suffix file gives no document; otherwise the document carries the file's content, path and suffix |
| `DocumentProcessor.LoadAll` | rag/src/document_processor.py:29-45 | loading yields no more documents than there are paths |
| `DocumentProcessor.LoadDirectory` | rag/src/document_processor.py:29-45 | loading a directory loads each walked file in walk order; a missing directory gives no documents |
| `DocumentProcessor.LoadPaths` | rag/src/document_processor.py:40-45 | the loading loop keeps exactly the documents that load, in order |
| `Embeddings.Zeros` | rag/src/embeddings.py:60-64 | the fallback embedding is a zero vector of the model's dimension |
| `Embeddings.EmbedAll` | rag/src/embeddings.py:47-67 | a batch embedding has exactly one vector per text |
| `Embeddings.EmbedAllEntries` | rag/src/embeddings.py:47-67 | a text the model embeds gets that embedding; a failed text gets the zero vector in its place |
| `Embeddings.EmbedAllAppend` | rag/src/embeddings.py:53-67 | embedding in batches gives the same result as embedding all the texts at once |
| `Embeddings.OllamaEmbedder.constructor` | rag/src/embeddings.py:13-24 | the embedder keeps its settings and starts with no cached dimension |
| `Embeddings.Connect` | rag/src/embeddings.py:13-36 | construction fails exactly when the model cannot embed the probe text `"test"` |
| `Embeddings.OllamaEmbedder.Embed` | rag/src/embeddings.py:38-45 | embedding fails exactly when the model fails, and otherwise returns the model's vector |
| `Embeddings.OllamaEmbedder.GetDimension` | rag/src/embeddings.py:69-76 | the dimension is the length of the probe embedding; once cached it never changes |
| `Embeddings.OllamaEmbedder.EmbedBatch` | rag/src/embeddings.py:47-67 | one embedding per text, in order; a batch size of 0 raises and a negative one embeds nothing |
| `Embeddings.OllamaEmbedder.EmbedSlice` | rag/src/embeddings.py:54-66 | one batch appends its texts' embeddings, with zeros for failures, to those so far |
| `VectorStore.SearchProperties` | rag/src/vector_store.py:52-76 | an empty index returns no hits; a query of the wrong dimension, or `k < 1`, is an error; otherwise at most `min(top_k, n)` hits come back, best first, each with a mapped chunk id and the similarity of one stored row |
| `VectorStore.SearchResultRanked` | rag/src/vector_store.py:58-76 | a search asks FAISS for `min(top_k, n)` neighbours and maps their positions to chunk ids |
| `VectorStore.Scored` | rag/src/vector_store.py:62-67 | every stored row is scored against the query by the index's similarity, under its own position |
| `VectorStore.TopKProperties` | rag/src/vector_store.py:58-66 | the top-k ranking returns at most k rows, sorted by descending similarity, each scoring one stored row |
| `VectorStore.ToHits` | rag/src/vector_store.py:68-74 | only positions with an entry in the id mapping become hits, and their ids come from the mapping |
| `VectorStore.ToHitsSorted` | rag/src/vector_store.py:68-74 | mapping positions to ids keeps the descending score order |
| `VectorStore.HitsFor` | rag/src/vector_store.py:68-74 | the mapping loop returns exactly the specified hits |
| `VectorStore.FaissVectorStore.constructor` | rag/src/vector_store.py:16-26 | a store without an index file starts empty; one with a file starts from what loading that file gives |
| `VectorStore.IndexFiles.constructor` | rag/src/vector_store.py:16-26 | a new index path holds neither the `.faiss` index file nor the mapping file |
| `VectorStore.FaissVectorStore.Clear` | rag/src/vector_store.py:128-130 | clearing leaves an empty index of the same dimension and an empty mapping |
| `VectorStore.FaissVectorStore.AddVectors` | rag/src/vector_store.py:35-50 | no vectors changes nothing; vectors of the wrong dimension are refused with nothing changed; otherwise rows and ids are appended in order, keeping rows and ids in step |
| `VectorStore.FaissVectorStore.Search` | rag/src/vector_store.py:52-76 | a search returns the specified result over the current index and mapping |
| `VectorStore.FaissVectorStore.Save` | rag/src/vector_store.py:78-95 | saving writes the index and the mapping to the index files |
| `VectorStore.FaissVectorStore.Load` | rag/src/vector_store.py:97-126 | loading restores the index and its mapping; an index without a mapping file maps each row to its position; a missing or unreadable file leaves an empty index |
| `VectorStore.FaissVectorStore.GetStats` | rag/src/vector_store.py:132-137 | the statistics report the row count and the dimension |
| `VectorStore.SaveAndReopen` | rag/src/vector_store.py:78-126 | saving and then opening a store on the same files gives back the same index and mapping |
| `Metadata.MetadataStore.constructor` | rag/src/metadata_store.py:15-92 | opening a database whose tables keep their keys unique and whose rows only reference existing files gives a valid store over exactly those rows and id counters, with the FTS mirror rebuilt from the chunks; `NewDatabase` gives empty tables and counters at 0 |
| `Metadata.MetadataStore.AddFile` | rag/src/metadata_store.py:94-132 | a new path gets a fresh id; an unchanged hash changes nothing and returns the same id; a changed hash rewrites the row under its old id and cascades its chunks out of the chunk table and the FTS mirror |
| `Metadata.MetadataStore.AddChunk` | rag/src/metadata_store.py:134-148 | a chunk for an unknown file breaks the foreign key and changes nothing; otherwise it gets a fresh id and a matching FTS row |
| `Metadata.MetadataStore.DeleteFile` | rag/src/metadata_store.py:203-207 | deleting a path removes its row, cascades to its chunks and their FTS rows, and keeps every other file |
| `Metadata.MetadataStore.DeleteChunksOf` | rag/src/metadata_store.py:29-92 | the `ON DELETE CASCADE` and the FTS delete trigger drop exactly the file's chunks and their mirror rows |
| `Metadata.MetadataStore.GetFileByPath` | rag/src/metadata_store.py:190-195 | the lookup finds the row with that path, or nothing exactly when no row has it |
| `Metadata.MetadataStore.GetAllFiles` | rag/src/metadata_store.py:197-201 | all files come back, each once, sorted by path |
| `Metadata.MetadataStore.GetChunk` | rag/src/metadata_store.py:150-161 | a found chunk is a stored chunk with that id, joined to the path of its file; an unknown id finds nothing |
| `Metadata.MetadataStore.GetChunkStored` | rag/src/metadata_store.py:150-161 | under the foreign key, every stored chunk is found by its id together with its file's path |
| `Metadata.MetadataStore.GetStats` | rag/src/metadata_store.py:209-226 | the statistics count the files and chunks; the size total is 0 for no files |
| `Metadata.MetadataStore.SearchText` | rag/src/metadata_store.py:163-188 | a keyword search returns the specified result over the FTS mirror |
| `Metadata.SearchTextProperties` | rag/src/metadata_store.py:163-188 | the search fails exactly on an FTS5 syntax error; otherwise it returns at most `limit` hits, each a stored chunk that matches, each with a non-negative score, in the order of `ORDER BY score` |
| `Metadata.RankedMatchesProperties` | rag/src/metadata_store.py:171-178 | the ranked matches are at most `limit` rows that match, in ascending raw BM25 order |
| `Metadata.Matches` | rag/src/metadata_store.py:171-178 | every match is an FTS row that the query matches, with the BM25 rank of that row |
| `Metadata.Normalize` | rag/src/metadata_store.py:183-185 | the normalised score is `1 + raw/10`, floored at 0 |
| `Metadata.NormalizeMonotone` | rag/src/metadata_store.py:183-185 | normalisation keeps the order of raw scores |
| `Metadata.MirrorKeep` | rag/src/metadata_store.py:70-90 | the delete trigger keeps the FTS mirror equal to the chunk table after a cascade |
| `Metadata.OwnedIdsExact` | rag/src/metadata_store.py:47-58 | since chunk ids are unique, the ids the cascade removes are exactly those of the file's chunks |
| `IndexManager.IndexManager.constructor` | rag/src/index_manager.py:32-58 | a new manager opens the stored metadata as it is, and a vector store whose dimension is the embedder's and which uses the given index files |
| `IndexManager.IndexManager.Register` | rag/src/index_manager.py:96-120 | indexing a document first registers its path, keeping the id of a known path, and adds that path to the indexed set |
| `IndexManager.IndexManager.StoreChunks` | rag/src/index_manager.py:130-145 | chunk rows are added with consecutive fresh ids, in chunk order, all pointing to the file |
| `IndexManager.IndexManager.IndexDocument` | rag/src/index_manager.py:96-153 | a document's path is indexed; a document with no chunks returns 0; otherwise its chunks are stored with fresh ids and their embeddings are appended to the vector index under those ids |
| `IndexManager.IndexManager.EmbedAndStore` | rag/src/index_manager.py:122-153 | the chunks are embedded in one batch, stored, and appended to the vector index |
| `IndexManager.IndexManager.IndexDirectory` | rag/src/index_manager.py:60-94 | every loaded document is indexed; the file count counts the documents that produced chunks and the chunk count is their sum; the vector files are saved unless no document loaded |
| `IndexManager.IndexManager.IndexAll` | rag/src/index_manager.py:76-84 | the per-document loop tallies files and chunks and indexes every path |
| `IndexManager.IndexManager.TalliedAll` | rag/src/index_manager.py:76-84 | each document's tally is either 0 or its number of chunks |
| `IndexManager.IndexManager.RemovePaths` | rag/src/index_manager.py:250-254 | removing deleted paths keeps exactly the other files |
| `IndexManager.PathsOfKept` | rag/src/index_manager.py:250-254 | the paths left after removal are the old paths minus the removed ones |
| `IndexManager.IndexManager.Refresh` | rag/src/index_manager.py:236-258 | after a refresh the indexed paths are exactly those of the documents now in the directory; each document adds 0 or its number of chunks, the returned counts are the documents that produced chunks and the sum of those chunks, at most one file per document, and no file is counted exactly when no chunk is |
| `IndexManager.CountPositiveBound` | rag/src/index_manager.py:236-258 | the number of files counted never exceeds the number of per-file tallies, and it is 0 exactly when the chunk total is 0 |
| `IndexManager.IndexManager.Query` | rag/src/index_manager.py:155-216 | a hybrid query returns the specified fusion of the semantic and keyword results |
| `IndexManager.QueryResultsProperties` | rag/src/index_manager.py:176-216 | at most `top_k` results, best first, each scoring at least `min_score`; each is a stored chunk with its text, path and offsets; its score is the weighted sum of its semantic and keyword scores |
| `IndexManager.CombinedScore` | rag/src/index_manager.py:176-192 | the fused score of a chunk is the semantic weight times its semantic scores plus the keyword weight times its keyword scores; the chunk is present exactly when either search returned it |
| `IndexManager.FuseAdds` | rag/src/index_manager.py:184-192 | folding one result list adds weight times score to each chunk it mentions |
| `IndexManager.FuseKeys` | rag/src/index_manager.py:184-192 | the fused map holds each chunk once, and exactly the chunks seen so far |
| `IndexManager.AccumulateGet` | rag/src/index_manager.py:185 | `results_map.get(id, 0) + score * weight` updates only that chunk |
| `IndexManager.AccumulateScores` | rag/src/index_manager.py:184-192 | the fusion loop returns exactly the specified map |
| `IndexManager.RankedOrdered` | rag/src/index_manager.py:194-198 | sorting by score in reverse and taking `top_k` gives scores in descending order |
| `IndexManager.RankedScores` | rag/src/index_manager.py:176-198 | each ranked score is the semantic weight times the chunk's semantic scores plus the keyword weight times its keyword scores |
| `IndexManager.BuildResultsResolved` | rag/src/index_manager.py:198-214 | each result comes from a ranked pair that meets `min_score` and whose chunk still exists |
| `IndexManager.BuildResultsOrdered` | rag/src/index_manager.py:198-214 | building result objects keeps the ranked order |
| `IndexManager.IndexManager.ResolveResults` | rag/src/index_manager.py:198-214 | the result-building loop returns exactly the specified results |
| `IndexManager.IndexManager.GetStats` | rag/src/index_manager.py:218-229 | the statistics combine the index name, the metadata counts and the vector count |
| `IndexManager.IndexManager.ListFiles` | rag/src/index_manager.py:231-234 | listing gives one path per file row, and exactly the indexed paths |
| `IndexManager.IndexManager.ListFilesSorted` | rag/src/index_manager.py:231-234 | the listed paths come in path order |
| `QueryHistory.QueryHistoryStore.constructor` | rag/src/query_history.py:19-66 | a store opens on an existing history whose ids lie below the autoincrement counter |
| `QueryHistory.QueryHistoryStore.SaveQuery` | rag/src/query_history.py:68-123 | a saved query gets the next id and is appended with its result count and results; looking it up returns them |
| `QueryHistory.SavedRoundTrip` | rag/src/query_history.py:68-123 | saving and then looking up by id returns the saved query with its results; every other id answers as before |
| `QueryHistory.QueryHistoryStore.GetHistory` | rag/src/query_history.py:125-192 | history is the specified newest-first listing |
| `QueryHistory.HistoryProperties` | rag/src/query_history.py:125-192 | at most `limit` entries, newest first, each a stored query; only the named index when one is given; results only when asked for |
| `QueryHistory.NewestMembers` | rag/src/query_history.py:149-163 | the newest-first listing holds only stored queries, in descending time order |
| `QueryHistory.BuildEntries` | rag/src/query_history.py:170-190 | the row loop builds one entry per row, with results only when asked for |
| `QueryHistory.QueryHistoryStore.SearchHistory` | rag/src/query_history.py:235-276 | searching returns the specified listing, with `LIKE` applied to the term as given, wildcards included |
| `QueryHistory.SearchProperties` | rag/src/query_history.py:235-276 | at most `limit` entries, newest first, each a stored query that `LIKE '%term%'` matches (`%` and `_` in the term act as wildcards, ASCII case folded), without results; with no limit, every matching query |
| `Strings.LikeAnyText` | rag/src/query_history.py:253-257 | the pattern `%` matches any text |
| `Strings.LikePrefix` | rag/src/query_history.py:253-257 | a text whose start matches a pattern character by character matches the pattern followed by `%`; with no wildcards in the pattern, a match means the start equals the pattern up to ASCII case |
| `Strings.LikeSkip` | rag/src/query_history.py:253-257 | a leading `%` matches exactly when the rest of the pattern matches some suffix of the text |
| `Strings.SubstringLike` | rag/src/query_history.py:253-257 | a text containing the term, ASCII case-insensitively, matches `%term%` |
| `Strings.LikeSubstring` | rag/src/query_history.py:253-257 | for a term without wildcards, a `%term%` match means the text contains the term, ASCII case-insensitively |
| `Strings.LikeContainsIff` | rag/src/query_history.py:253-257 | for a term without `%` or `_`, `LIKE '%term%'` holds exactly when the text contains the term, ASCII case-insensitively |
| `Strings.LikeUnderscoreWildcard` | rag/src/query_history.py:253-257 | an `_` in the term matches any character: `get_user` matches `getXuser`, which does not contain it |
| `QueryHistory.QueryHistoryStore.GetQueryById` | rag/src/query_history.py:194-233 | a lookup finds the query with that id, with its results, or nothing exactly when no query has it |
| `QueryHistory.FindById` | rag/src/query_history.py:194-210 | the row found carries the id asked for; none is found exactly when no row has it |
| `QueryHistory.EntryOf` | rag/src/query_history.py:170-190 | an entry keeps the row's fields, with results only when asked for |
| `QueryHistory.QueryHistoryStore.GetStats` | rag/src/query_history.py:278-314 | the statistics are those specified |
| `QueryHistory.GetStatsOf` | rag/src/query_history.py:278-314 | the total counts every query; an empty history gives zero averages and no last time |
| `QueryHistory.Average` | rag/src/query_history.py:286-294 | `AVG` is the sum divided by the count, or 0 when there are no rows |
| `QueryHistory.LastTime` | rag/src/query_history.py:286-294 | the last query time is the greatest timestamp, and none for an empty history |
| `QueryHistory.QueriesByIndex` | rag/src/query_history.py:296-303 | the per-index counts hold a key exactly for the indexes queried (no index counted as `"all"`), each with its number of queries |
| `QueryHistory.QueriesByNamedIndex` | rag/src/query_history.py:296-303 | a named index maps to its query count when it was queried, and is absent otherwise |
| `QueryHistory.IndexCountsGet` | rag/src/query_history.py:303 | an index key is present exactly when some group has it, and its value is that group's count |
| `QueryHistory.GroupsMembers` | rag/src/query_history.py:296-302 | `GROUP BY index_name` yields each queried index name once, with its number of queries |
| `QueryHistory.CountNamePositive` | rag/src/query_history.py:296-302 | an index name has a positive count exactly when some query used it |
| `QueryHistory.QueryHistoryStore.ClearHistory` | rag/src/query_history.py:316-345 | clearing everything empties the history; clearing by age keeps exactly the queries at or after the cutoff; the count is the number removed; the id counter is kept |
| `QueryHistory.ClearByAge` | rag/src/query_history.py:330-338 | age-based clearing keeps exactly the queries at or after the cutoff, and removes as many as are older |
| `QueryHistory.ComplementCounts` | rag/src/query_history.py:336-339 | the queries kept and the queries deleted add up to the whole history |
| `FileWatcher.IndexFileHandler.constructor` | rag/src/file_watcher.py:16-23 | a new handler has no pending changes, a last event time of 0 and no callbacks yet |
| `FileWatcher.IndexFileHandler.OnAnyEvent` | rag/src/file_watcher.py:25-41 | an event updates the handler as specified |
| `FileWatcher.IndexFileHandler.TriggerCallback` | rag/src/file_watcher.py:43-56 | a trigger runs the callback only when changes are pending |
| `FileWatcher.IrrelevantUnchanged` | rag/src/file_watcher.py:27-35 | directory events and files with unwatched suffixes change nothing |
| `FileWatcher.Initial` | rag/src/file_watcher.py:16-23 | a fresh handler starts with nothing pending, a last event time of 0 and no callbacks |
| `FileWatcher.RelevantEvent` | rag/src/file_watcher.py:36-41 | a relevant event within the debounce window is only recorded; one after it fires the callback on the directory and clears the pending set |
| `FileWatcher.FiresIff` | rag/src/file_watcher.py:25-56 | an event fires the callback, once, exactly when it is relevant and the debounce period has passed |
| `FileWatcher.FirstEventFires` | rag/src/file_watcher.py:16-41 | the first relevant event after start-up fires the callback once the debounce period has passed since time 0 |
| `FileWatcher.TriggerEffect` | rag/src/file_watcher.py:43-56 | a trigger with nothing pending is a no-op; otherwise it clears the pending set and stamps the time |
| `FileWatcher.EventKeepsCallsOnDirectory` | rag/src/file_watcher.py:43-56 | every callback is made with the watched directory |
| `FileWatcher.PendingAfterEvent` | rag/src/file_watcher.py:25-56 | after an event the pending set is either cleared by a callback or has only grown |
| `WorkspaceState.DefaultState` | shared/workspace_state.py:43-56 | the default state has the current version, empty lists and a zeroed session |
| `WorkspaceState.LoadResets` | shared/workspace_state.py:58-90 | loading keeps a stored state of the current version; a missing file, an unreadable file or a wrong version gives the default state, which is saved back |
| `WorkspaceState.Acquire` | shared/workspace_state.py:38 | the non-reentrant lock can be taken only when it is not held |
| `WorkspaceState.NeverLoadedBlocks` | shared/workspace_state.py:130-132 | as written, a mutator on a never-loaded instance calls `load()` while holding the lock and never returns |
| `WorkspaceState.EnterReturns` | shared/workspace_state.py:58-90 | the corrected entry always returns, loading first when nothing is cached; whenever the code as written returns, it agrees |
| `WorkspaceState.WorkspaceStore.constructor` | shared/workspace_state.py:26-41 | a new store caches nothing and sees the state file as it is |
| `WorkspaceState.WorkspaceStore.Load` | shared/workspace_state.py:58-90 | loading caches and saves the loaded state |
| `WorkspaceState.WorkspaceStore.Acquired` | shared/workspace_state.py:130-132 | a mutator's entry returns the corrected specification's state and caches it |
| `WorkspaceState.WorkspaceStore.Save` | shared/workspace_state.py:92-118 | saving stamps `last_updated` on the given state, else the cached one, else a default, then caches it and writes it |
| `WorkspaceState.WorkspaceStore.AddFocusFile` | shared/workspace_state.py:120-154 | the focus list gains the file at its head, and the result is saved |
| `WorkspaceState.FocusAdded` | shared/workspace_state.py:133-152 | the new entry comes first with its metadata merged in; older entries for the same path are dropped; the others keep their order, up to 20 |
| `WorkspaceState.FocusKeepsDistinctPaths` | shared/workspace_state.py:133-152 | the focus list never holds two entries for one path |
| `WorkspaceState.WorkspaceStore.AddQuery` | shared/workspace_state.py:156-200 | the query is recorded at the head, the session counters move, and the result is saved |
| `WorkspaceState.QueryAdded` | shared/workspace_state.py:174-189 | the newest query comes first and the older ones follow in order, at most 50 in all |
| `WorkspaceState.SessionCounts` | shared/workspace_state.py:191-196 | a query adds one to the session total; the servers used become a sorted set gaining the server |
| `WorkspaceState.SortedSetAscending` | shared/workspace_state.py:195-196 | `sorted(set(...))` gives strictly ascending names, exactly those given |
| `WorkspaceState.InsertUniqueAscending` | shared/workspace_state.py:195-196 | inserting a server into a strictly ascending list keeps it strictly ascending |
| `WorkspaceState.WorkspaceStore.AddTask` | shared/workspace_state.py:202-244 | the task is appended to the kept tasks, and the result is saved |
| `WorkspaceState.TaskAdded` | shared/workspace_state.py:217-242 | only unfinished or recently touched tasks stay, in order, at most 10; the new task is added when it qualifies and there is room |
| `WorkspaceState.WorkspaceStore.UpdateTaskStatus` | shared/workspace_state.py:246-267 | the status update is applied as specified, and the result is saved |
| `WorkspaceState.StatusUpdated` | shared/workspace_state.py:253-267 | only the first task with that description changes, and its status becomes the new one; with no such task nothing changes |
| `WorkspaceState.FirstTask` | shared/workspace_state.py:257-262 | the index found is that of the first task with the description, or -1 when none has it |
| `WorkspaceState.WorkspaceStore.GetFocusFiles` | shared/workspace_state.py:269-285 | the focus list, cut to a positive limit |
| `WorkspaceState.Limited` | shared/workspace_state.py:282-285 | a positive limit keeps that many leading entries; no limit, or a limit of 0, keeps all |
| `WorkspaceState.WorkspaceStore.GetRecentQueries` | shared/workspace_state.py:287-310 | recent queries, filtered by server and limited as specified |
| `WorkspaceState.RecentQueriesFiltered` | shared/workspace_state.py:302-310 | filtering by server keeps that server's queries in order, up to the limit |
| `WorkspaceState.WorkspaceStore.GetActiveTasks` | shared/workspace_state.py:312-330 | tasks, filtered by status when one is given |
| `WorkspaceState.WorkspaceStore.GetSessionMetadata` | shared/workspace_state.py:332-342 | the session metadata of the current state |
| `WorkspaceState.WorkspaceStore.GetFullState` | shared/workspace_state.py:344-354 | the whole current state |
| `WorkspaceState.WorkspaceStore.CleanupOldEntries` | shared/workspace_state.py:356-382 | the cleaned state is cached and saved |
| `WorkspaceState.CleanupKeeps` | shared/workspace_state.py:356-382 | cleanup keeps exactly the recent focus files and queries and the tasks to keep; the session and version are unchanged |
| `WorkspaceState.WorkspaceStore.Clear` | shared/workspace_state.py:384-390 | clearing caches and saves the default state |
| `SessionStore.SessionDatabase.constructor` | session-memory/src/session_store.py:21-36 | a store opens on valid tables with no current session |
| `SessionStore.EmptyDb` | session-memory/src/session_store.py:38-104 | the freshly created tables satisfy the table invariants |
| `SessionStore.SessionDatabase.CreateSession` | session-memory/src/session_store.py:106-143 | creation adds a session as specified and makes it current |
| `SessionStore.CreatedSession` | session-memory/src/session_store.py:106-143 | a new active session with a fresh id and zero counters is appended, its tags are stored under it, and messages and decisions are untouched |
| `SessionStore.CreatedTags` | session-memory/src/session_store.py:127-136 | the tags stored for a new session read back as exactly the tags given |
| `SessionStore.SessionDatabase.GetOrCreateActiveSession` | session-memory/src/session_store.py:145-187 | the active session is resolved as specified and cached |
| `SessionStore.ResolveProps` | session-memory/src/session_store.py:145-187 | a cached id is reused with nothing changed; otherwise the latest active session started in the last 30 minutes is resumed with nothing changed; only when there is none is a session created |
| `SessionStore.SessionDatabase.SessionFor` | session-memory/src/session_store.py:209-210 | logging without a session id resolves one as `get_or_create_active_session` does, and caches it |
| `SessionStore.LatestActiveProps` | session-memory/src/session_store.py:157-170 | the session resumed is active and recent, with no later such session; none is found exactly when no session qualifies |
| `SessionStore.SessionDatabase.LogMessage` | session-memory/src/session_store.py:189-241 | a message is logged on the resolved session as specified |
| `SessionStore.MessageLogged` | session-memory/src/session_store.py:189-241 | the message gets a fresh id; only its session's counters move, by one message and by its tokens; empty metadata is stored as null |
| `SessionStore.SessionDatabase.LogDecision` | session-memory/src/session_store.py:243-274 | a decision is appended with a fresh id on the resolved session |
| `SessionStore.SessionDatabase.GetSessionMessages` | session-memory/src/session_store.py:276-328 | the session's messages as specified |
| `SessionStore.SessionMessagesProps` | session-memory/src/session_store.py:276-328 | only that session's messages, only of the role when one is given, newest first, at most a positive limit |
| `SessionStore.SessionDatabase.GetSessionInfo` | session-memory/src/session_store.py:330-376 | the session's row and tags, or nothing for an unknown id |
| `SessionStore.SessionInfo` | session-memory/src/session_store.py:330-376 | info is found exactly for a stored session id, and carries that session |
| `SessionStore.FindSession` | session-memory/src/session_store.py:345-352 | `WHERE id = ?` finds a stored session with that id, or nothing exactly when none has it |
| `SessionStore.SessionDatabase.SearchSessions` | session-memory/src/session_store.py:378-431 | the specified sessions, with `LIKE` applied to the query text as given, wildcards included |
| `SessionStore.SearchSessionsProps` | session-memory/src/session_store.py:378-431 | at most `limit` stored sessions, latest start first, each with a message or decision that `LIKE '%query%'` matches when a query is given, else tagged when a tag is given |
| `SessionStore.SessionDatabase.EndSession` | session-memory/src/session_store.py:433-463 | with no session to end nothing changes; otherwise that row is completed and the cached id is forgotten when it was the one ended |
| `SessionStore.EndedSession` | session-memory/src/session_store.py:433-463 | an ended session reads back as completed, with its end time and summary and the same tags; no other session's info changes |
| `SessionStore.FindEndRow` | session-memory/src/session_store.py:448-457 | ending a session changes only that session's row: it becomes completed with the end time and summary |
| `SessionStore.EndCountsActive` | session-memory/src/session_store.py:433-493 | ending an active session lowers the active count by exactly one; ending any other changes nothing |
| `SessionStore.SessionDatabase.GetStats` | session-memory/src/session_store.py:465-493 | the specified statistics |
| `SessionStore.StatsOf` | session-memory/src/session_store.py:465-493 | the totals count sessions, of which the active ones are a part; the average is messages per session, with zeros for no sessions |
| `AnalysisCache.Cache.constructor` | code-analysis/src/analysis_cache.py:20-32 | a cache opens on the existing files with all counters at zero |
| `AnalysisCache.KeySeparatesTypes` | code-analysis/src/analysis_cache.py:50-62 | two analysis types of one file never share a cache key |
| `AnalysisCache.KeySeparatesContents` | code-analysis/src/analysis_cache.py:50-62 | two different file contents never share a cache key |
| `AnalysisCache.GetSpec` | code-analysis/src/analysis_cache.py:75-119 | a missing source file is a miss that counts nothing; a well-formed entry is a hit returning its stored result; otherwise it is a miss, and a corrupt entry is deleted |
| `AnalysisCache.Cache.Get` | code-analysis/src/analysis_cache.py:75-119 | a lookup behaves as specified |
| `AnalysisCache.Cache.Set` | code-analysis/src/analysis_cache.py:121-150 | storing behaves as specified for each way the write can go: written, `open` failed, or `json.dump` failed after truncating the file |
| `AnalysisCache.SetThenGet` | code-analysis/src/analysis_cache.py:75-150 | a result stored for a file and type is the next lookup's hit; a save and a hit are counted |
| `AnalysisCache.SetOtherKey` | code-analysis/src/analysis_cache.py:121-150 | storing under one key leaves every other key's lookup result unchanged |
| `AnalysisCache.ChangedContentsMiss` | code-analysis/src/analysis_cache.py:34-62 | a result stored for the old contents does not answer a lookup once the contents change |
| `AnalysisCache.TypesCachedSeparately` | code-analysis/src/analysis_cache.py:50-62 | storing one analysis type does not answer a lookup of another |
| `AnalysisCache.OperationsKeepValid` | code-analysis/src/analysis_cache.py:75-150 | lookups and stores keep each key stored once, whatever happens to the write |
| `AnalysisCache.FailedDumpMisses` | code-analysis/src/analysis_cache.py:96-150 | a store whose dump fails counts no save, and the next lookup of that key finds unparsable text: it answers nothing, counts a miss and deletes the file |
| `AnalysisCache.DocumentWellFormed` | code-analysis/src/analysis_cache.py:130-140 | the stored document is well formed and carries the result under `"result"` |
| `AnalysisCache.Cache.Clear` | code-analysis/src/analysis_cache.py:152-179 | clearing removes the entries specified, and returns how many were removed |
| `AnalysisCache.KeptExactly` | code-analysis/src/analysis_cache.py:163-176 | clearing by age keeps exactly the entries modified at or after the cutoff |
| `AnalysisCache.ClearAll` | code-analysis/src/analysis_cache.py:163-176 | clearing with no age removes every entry |
| `AnalysisCache.KeptUnique` | code-analysis/src/analysis_cache.py:163-176 | the entries kept are distinct keys from the cache |
| `AnalysisCache.ClearFiles` | code-analysis/src/analysis_cache.py:163-176 | the deletion loop leaves exactly the kept entries, and counts those removed |
| `AnalysisCache.Cache.GetStats` | code-analysis/src/analysis_cache.py:181-203 | the specified statistics |
| `AnalysisCache.StatsOf` | code-analysis/src/analysis_cache.py:181-203 | the counters are reported as they are; the hit rate is hits over lookups as a percentage between 0 and 100, or 0 with no lookups; the size is the total in megabytes |
| `CodeSmells.DetectCodeSmells` | code-analysis/src/code_smells.py:7-71 | the report loop returns the specified smells |
| `CodeSmells.FunctionSmellsOf` | code-analysis/src/code_smells.py:17-44 | a function has a parameter smell exactly when it has more than 5 parameters, and a docstring smell exactly when Python code lacks a docstring |
| `CodeSmells.ParameterRule` | code-analysis/src/code_smells.py:17-30 | every function with more than 5 parameters is reported, and only those |
| `CodeSmells.DocstringRule` | code-analysis/src/code_smells.py:32-44 | every Python function without a docstring is reported, and only those; other languages get no docstring smells |
| `CodeSmells.ClassSmellsExact` | code-analysis/src/code_smells.py:46-63 | every class with more than 20 methods is reported as a god class, and only those |
| `CodeSmells.FunctionSmellsAboutFunctions` | code-analysis/src/code_smells.py:17-44 | function smells are about functions, and are never god-class smells |
| `CodeSmells.SmellOrder` | code-analysis/src/code_smells.py:7-63 | function smells all come before class smells; no input gives no smells |
| `CodeSmells.SmellPositions` | code-analysis/src/code_smells.py:7-63 | in the report, exactly the entries after the function smells are about classes |
| `CodeSmells.ClassSmellsAboutClasses` | code-analysis/src/code_smells.py:46-63 | every god-class smell is about a class |
| `CodeSmells.BySeverity` | code-analysis/src/code_smells.py:65-69 | the filter keeps exactly the smells at or above the minimum severity; `"all"` keeps every smell |
| `Complexity.CalculateComplexity` | code-analysis/src/complexity.py:7-50 | the report uses the analyser's scores when given, and otherwise a placeholder score per function |
| `Complexity.ReportOf` | code-analysis/src/complexity.py:27-50 | no scores give complexity 0; integer scores give their mean; dictionary scores give 1.0; mixed integer scores raise; the scores are passed through, and the high ones are listed |
| `Complexity.HighNames` | code-analysis/src/complexity.py:36-41 | the high-complexity list names exactly the functions scoring above 10 |
| `Complexity.PlaceholderReport` | code-analysis/src/complexity.py:12-25 | the fallback scores every function as 1, with none high |
| `Complexity.PlaceholdersExact` | code-analysis/src/complexity.py:12-25 | the fallback gives one placeholder score per named function, and to no other name |
| `Complexity.NoneHigh` | code-analysis/src/complexity.py:36-41 | when no score is above the threshold, the high list is empty |
| `Complexity.MeanBetween` | code-analysis/src/complexity.py:30-34 | the mean lies between the least and the greatest score |
| `LinqAnalysis.AnalysisOf` | efcore-analysis/src/analyzers/linq_analyzer.py:67-111 | each issue and suggestion is present exactly when its pattern occurs, and they come in the source's order |
| `LinqAnalysis.AnalyzeQuery` | efcore-analysis/src/analyzers/linq_analyzer.py:67-111 | the per-query checks return the specified analysis |
| `LinqAnalysis.SelectBeforeWhereIff` | efcore-analysis/src/analyzers/linq_analyzer.py:97-103 | the where-before-select suggestion is given exactly when a `.Select(` precedes every `.Where(`, and there is at least one |
| `LinqAnalysis.IssuesWellFormed` | efcore-analysis/src/analyzers/linq_analyzer.py:74-95 | every issue has a valid severity and a non-empty suggestion; a query has at most two issues and two suggestions |
| `LinqAnalysis.LineHoldsMatch` | efcore-analysis/src/analyzers/linq_analyzer.py:56-63 | the corrected line around a match that begins and ends with a non-space character always contains that match |
| `LinqAnalysis.AsWrittenInnerLine` | efcore-analysis/src/analyzers/linq_analyzer.py:58-60 | when a newline precedes the match and another follows it, the source's slicing gives the same line as the corrected one |
| `LinqAnalysis.DedupExact` | efcore-analysis/src/analyzers/linq_analyzer.py:62-63 | the query list holds each line once, and every line found |
| `LinqAnalysis.Lines` | efcore-analysis/src/analyzers/linq_analyzer.py:56-60 | one extracted line per match, in match order, each the line around that match under the chosen slicing (`AsWritten` is the source's, `Corrected` the intended one) |
| `LinqAnalysis.Queries` | efcore-analysis/src/analyzers/linq_analyzer.py:40-65 | a line is among the queries exactly when it is the line of some match, and no line appears twice |
| `LinqAnalysis.ExtractLinqQueries` | efcore-analysis/src/analyzers/linq_analyzer.py:40-65 | the extraction loop returns the specified query lines, under either slicing; with `AsWritten` it is the source's loop |
| `LinqAnalysis.Analyze` | efcore-analysis/src/analyzers/linq_analyzer.py:12-38 | the analysis loop returns the specified report, under either slicing |
| `LinqAnalysis.ReportFor` | efcore-analysis/src/analyzers/linq_analyzer.py:12-38 | an unreadable file is an error and nothing else is; a report counts one analysis per distinct query line, has as many issues as it reports, at most two per query, and reports an issue exactly when some analysed query has it |
| `LinqAnalysis.QueryIssueReported` | efcore-analysis/src/analyzers/linq_analyzer.py:12-38 | every issue found in a query appears in the report |
| `LinqAnalysis.IssuesOfQueries` | efcore-analysis/src/analyzers/linq_analyzer.py:22-31 | an issue is in the report exactly when one of the queries has it |
| `LinqAnalysis.SyncCallReported` | efcore-analysis/src/analyzers/linq_analyzer.py:40-111 | with the corrected slicing, every `.ToList()` the query patterns match is reported as synchronous execution |
| `LinqAnalysis.CallReported` | efcore-analysis/src/analyzers/linq_analyzer.py:12-111 | an issue raised by the line of any match appears in the report, under either slicing |
| `LinqAnalysis.SyncCallReportedAsWritten` | efcore-analysis/src/analyzers/linq_analyzer.py:40-111 | as written, a matched `.ToList()` is reported as synchronous execution when its line has a newline before and after it |
| `LinqAnalysis.IssueCount` | efcore-analysis/src/analyzers/linq_analyzer.py:12-38 | the report has at most two issues per query |
| `LinqAnalysis.AsWrittenLosesFirstLine` | efcore-analysis/src/analyzers/linq_analyzer.py:58-60 | as written, a file that is just `.ToList()` yields one empty query line, and the report has one query and no issue |
| `LinqAnalysis.AsWrittenCutsLastLine` | efcore-analysis/src/analyzers/linq_analyzer.py:58-60 | as written, a match on the last line loses its final character, and `.ToList()` is no longer recognised |
| `LinqAnalysis.LineOfKeepsOnlyLine` | efcore-analysis/src/analyzers/linq_analyzer.py:58-60 | the corrected extraction keeps the whole one-line query, and the report then has the synchronous-execution issue |
| `TaskTemplates.EstimateToolCount` | task-generator/src/task_templates.py:116-121 | the tool count is the number of tool keywords mentioned, clamped to between 3 and 8 |
| `TaskTemplates.CountContained` | task-generator/src/task_templates.py:116-121 | the count is the number of keywords the description contains |
| `TaskTemplates.McpServerShape` | task-generator/src/task_templates.py:34-114 | the MCP server plan has core logic (300 lines, no dependencies) and tools (200 + 30 per tool, after task 1); tests and documentation are present exactly when asked for |
| `TaskTemplates.McpShapeWith` | task-generator/src/task_templates.py:34-114 | for any tool count the plan has core logic and tools with those sizes and dependencies; tests and docs appear exactly when asked for |
| `TaskTemplates.OptionalKinds` | task-generator/src/task_templates.py:79-114 | the optional tasks are tests exactly when asked for and docs exactly when asked for, numbered on from the fixed tasks, depending only on tasks 1 and 2 |
| `TaskTemplates.McpWellNumbered` | task-generator/src/task_templates.py:34-114 | the MCP server plan is numbered 1..n, and each task depends only on earlier ones |
| `TaskTemplates.ApiIntegrationShape` | task-generator/src/task_templates.py:133-193 | the API plan has three fixed tasks, plus tests depending on all three when asked for |
| `TaskTemplates.DatabaseShape` | task-generator/src/task_templates.py:204-264 | the database plan has three fixed tasks, plus tests depending on all three when asked for |
| `TaskTemplates.TestingIgnoresContext` | task-generator/src/task_templates.py:275-305 | the testing plan is the same three tasks whatever the context |
| `TaskTemplates.TemplatesWellNumbered` | task-generator/src/task_templates.py:25-305 | every template numbers its tasks 1..n, and each depends only on earlier tasks |
| `TaskTemplates.GetTemplate` | task-generator/src/task_templates.py:317-329 | a name resolves to the registered template of that name; an unknown name finds none |
| `TaskTemplates.ListTemplates` | task-generator/src/task_templates.py:332-340 | the listing gives each registered template's name and description, in order |
| `TaskTemplates.ListedNamesResolve` | task-generator/src/task_templates.py:308-340 | every listed name is distinct and resolves back to its template |
| `TaskTemplates.RegistryNamesResolve` | task-generator/src/task_templates.py:308-329 | the registry names are distinct, and each resolves to its own template |
| `TaskGenerator.WithDefaults` | task-generator/src/task_generator.py:12-15 | a missing constraint takes its default of 500 lines, tests and docs |
| `TaskGenerator.Commits` | task-generator/src/task_generator.py:297-300 | the commit count is at least 1, and it fails exactly when the limit is 0 |
| `TaskGenerator.CommitsCeiling` | task-generator/src/task_generator.py:297-300 | for a positive limit, the commit count is the ceiling of total lines over the limit, and 1 for no lines |
| `TaskGenerator.EstimateComplexity` | task-generator/src/task_generator.py:140-184 | the estimate is 200 lines plus 80 per feature and 100 per indicator, at 50 lines an hour, with the level computed from both |
| `TaskGenerator.EstimateBounds` | task-generator/src/task_generator.py:140-184 | estimates lie between 200 and 1660 lines; the level is low exactly for at most one feature and no indicator; three indicators make it high |
| `TaskGenerator.LevelOfEstimate` | task-generator/src/task_generator.py:330-343 | for an estimate whose lines and level are computed from in-range feature and indicator counts, the lines lie between 200 and 1660; low exactly for at most one feature and no indicators; high from three indicators |
| `TaskGenerator.LevelMonotone` | task-generator/src/task_generator.py:330-343 | more lines and more indicators never lower the level |
| `TaskGenerator.DetectDbType` | task-generator/src/task_generator.py:216-231 | the database type is the first one, in the source's order, whose keywords the description mentions, else sqlite |
| `TaskGenerator.FirstMentioned` | task-generator/src/task_generator.py:216-231 | the type found is the first whose keywords are mentioned, with none mentioned before it; none is found exactly when no type's keywords are mentioned |
| `TaskGenerator.CustomTasksShape` | task-generator/src/task_generator.py:233-295 | custom tasks start with core logic at half the estimate; integration appears exactly for more than 3 features, tests and docs exactly when asked for; tests depend on every earlier task; tasks are numbered 1..n |
| `TaskGenerator.CustomKinds` | task-generator/src/task_generator.py:233-295 | custom tasks include integration exactly for more than 3 features, tests exactly when asked for and docs exactly when asked for |
| `TaskGenerator.CustomNumbered` | task-generator/src/task_generator.py:233-295 | custom plans begin with core logic of half the lines, their tests depend on every earlier task, and they are numbered 1..n |
| `TaskGenerator.GeneratedPlan` | task-generator/src/task_generator.py:17-77 | a plan fails exactly for a limit of 0; otherwise its totals are consistent, its tasks well numbered, and an unknown template falls back to custom tasks |
| `TaskGenerator.GenerateTaskPlan` | task-generator/src/task_generator.py:17-77 | a generated plan carries the project name, the description, the template name and the commit size after defaults |
| `TaskGenerator.Parts` | task-generator/src/task_generator.py:313-322 | a split task becomes `split_count` parts titled "Part 1".."Part n", each with the floor share of its lines |
| `TaskGenerator.FloorDiv` | task-generator/src/task_generator.py:316 | Python's `//` rounds toward negative infinity for either sign of the divisor |
| `TaskGenerator.ExpandedLength` | task-generator/src/task_generator.py:302-328 | splitting adds `split_count - 1` tasks per matching task |
| `TaskGenerator.ExpandedOthers` | task-generator/src/task_generator.py:302-328 | splitting keeps every other task, in order |
| `TaskGenerator.SplitTaskSpec` | task-generator/src/task_generator.py:302-328 | a split result is numbered 1..n; with a non-zero count it has `split_count - 1` more tasks per task of that id (none for a negative count, which drops them) |
| `TaskGenerator.SplitTask` | task-generator/src/task_generator.py:302-328 | the split loop replaces each task of that id by its parts and renumbers the result 1..n; a count of 0 fails when some task has that id |
| `TaskGenerator.AppendParts` | task-generator/src/task_generator.py:313-322 | appending a split task's parts keeps the result numbered 1..n |
| `TaskGenerator.AdjustLoc` | task-generator/src/task_generator.py:112-116 | each task whose id is adjusted takes the new estimate; the others are unchanged |
| `TaskGenerator.AdjustEstimates` | task-generator/src/task_generator.py:112-116 | the adjustment loop returns the specified tasks |
| `TaskGenerator.RenumberIntended` | task-generator/src/task_generator.py:118-126 | corrected renumbering: tasks get ids 1..n in order, and each dependency is mapped to the new id of the task it named, with dependencies on removed tasks dropped |
| `TaskGenerator.IntendedWellNumbered` | task-generator/src/task_generator.py:118-126 | the corrected renumbering of a list whose dependencies point backwards yields a well-numbered plan |
| `TaskGenerator.MappedDepEarlier` | task-generator/src/task_generator.py:118-126 | in the corrected renumbering, each mapped dependency names an earlier task |
| `TaskGenerator.RenumberingsAgreeWhenNumbered` | task-generator/src/task_generator.py:118-126 | on a plan already numbered 1..n, both renumberings change nothing |
| `TaskGenerator.AsWrittenSelfDependency` | task-generator/src/task_generator.py:118-126 | as written, removing task 1 that others depend on makes the first remaining task depend on itself |
| `TaskGenerator.IntendedDropsRemoved` | task-generator/src/task_generator.py:118-126 | on the same input, the corrected renumbering drops the dependency on the removed task |
| `TaskGenerator.RemapErrIff` | task-generator/src/task_generator.py:121-124 | as written, remapping a task's dependencies raises `IndexError` exactly when one of them is at or below minus the number of tasks, and otherwise keeps at most as many dependencies |
| `TaskGenerator.AsWrittenFromProps` | task-generator/src/task_generator.py:118-126 | the renumbering loop from any position raises exactly when a task not yet reached has such a dependency; otherwise it numbers those tasks by position, leaves earlier ones alone and changes only ids and dependencies |
| `TaskGenerator.AsWrittenProps` | task-generator/src/task_generator.py:118-126 | the renumbering as written raises exactly when some task has a dependency at or below minus the number of tasks; otherwise the tasks are numbered 1..n and keep everything but ids and dependencies |
| `TaskGenerator.RenumberTasksAsWritten` | task-generator/src/task_generator.py:118-126 | the source's renumbering loop returns the as-written renumbering, raising where it raises |
| `TaskGenerator.RenumberTasks` | task-generator/src/task_generator.py:118-126 | the renumbering loop returns the corrected renumbering |
| `TaskGenerator.RefineTaskPlan` | task-generator/src/task_generator.py:79-138 | refinement returns the specified plan, under either renumbering; with `AsWritten` it is the source's loop |
| `TaskGenerator.RefineTasks` | task-generator/src/task_generator.py:79-126 | the refined tasks are numbered 1..n; without a split the corrected refinement never fails |
| `TaskGenerator.RefinePlan` | task-generator/src/task_generator.py:79-138 | a refined plan keeps the project, description, template and commit size of the plan |
| `TaskGenerator.RefinedTotals` | task-generator/src/task_generator.py:128-138 | under either renumbering, a refined plan keeps its totals consistent; it fails exactly when the task list does or the commit size is 0 |
| `TaskGenerator.SurvivorsRemoved` | task-generator/src/task_generator.py:95-103 | every remaining task comes from the plan, and has neither a removed id nor a removed type |
| `TaskGenerator.SurvivorsOrdered` | task-generator/src/task_generator.py:95-103 | removing tasks keeps ids increasing and dependencies pointing backwards |
| `TaskGenerator.RefinedSurvivors` | task-generator/src/task_generator.py:79-126 | without a split, refinement fails exactly when it is the source's and some survivor depends on an id at or below minus the number of survivors; otherwise it keeps one task per survivor, in order, with its title and kind |
| `TaskGenerator.RefinedWellNumbered` | task-generator/src/task_generator.py:79-126 | without a split, the corrected refinement of a well-ordered plan succeeds and yields a well-numbered plan |
| `TaskGenerator.RefineRemovesFirst` | task-generator/src/task_generator.py:79-126 | removing task 1 when tasks 2 and 3 depend on it: as written, the new task 1 depends on itself and task 2 on task 1; corrected, neither keeps a dependency |

## Left out

- I/O:
  - the file system, SQLite and its FTS5 engine, FAISS's index files, and JSON and pickle
    serialisation are modelled as state: tables, a mapping and stored documents;
  - `json.dumps` and `json.loads` are taken as inverses;
  - a file that cannot be parsed is a `Corrupt` or `Unreadable` value.
- Oracles, which are parameters:
  - the similarity FAISS computes, FTS5 matching and BM25 ranking, MD5;
  - `fnmatch` and `Path.rglob` ordering, the Ollama embedding client;
  - the clock, ISO-8601 formatting and parsing, and regular-expression matching in the LINQ
    analyser, which is a list of match spans;
  - the regular expression behind `_extract_project_name`: the project name is a parameter of
    `TaskGenerator.GenerateTaskPlan`.
- Floating point:
  - scores are `real`, so `round(..., 2)` in the statistics and the hours estimate is not
    modelled;
  - timestamps are whole seconds.
- Concurrency:
  - the workspace lock is modelled only to show the deadlock below;
  - the watchdog `Observer` thread, `threading.Timer` and the `FileWatcher` wrapper class
    (`rag/src/file_watcher.py:59-107`) are not modelled: they only start and stop threads.
- Process-wide singletons: `get_workspace_state`, `get_session_store`, `get_cache` and
  `get_query_history` cache one instance per process.
- Logging throughout the core.
- The MCP server entry points, the language analysers, the dependency analyser and the other
  EF Core analysers are not part of this model.
- `Chunking.RecursiveChunker.ChunkDocument` requires a positive chunk size, because
  `chunk_size = 0` makes the source loop forever.
- `Strings.LikeContains` folds case for ASCII letters only. SQLite's `LIKE` does the same
  by default. The model has no `ESCAPE` clause, as the queries have none.
- `Strings.Lower`, `Strings.IsSpace` and `Strings.Strip` know ASCII letters and ASCII
  whitespace only, where Python's `str.lower()` and `str.strip()` know all of Unicode. The
  difference reaches `TaskGenerator.EstimateComplexity`, `TaskGenerator.DetectDbType` and
  `TaskTemplates.EstimateToolCount`, which lower the description, and `LinqAnalysis.Lines`,
  which strips each line.
- `Embeddings.OllamaEmbedder.EmbedBatch`, `Embeddings.OllamaEmbedder.EmbedSlice` and
  `Embeddings.OllamaEmbedder.GetDimension`: the provider is a fixed function, so the probe
  embedding of `"test"` that worked at construction works again when a batch falls back to
  zeros. The source calls the service again there, and a service that has gone down since
  start-up makes `get_dimension` raise out of `embed_batch`.
- `AnalysisCache.GetSpec`: a cache file holding valid JSON that is not an object is taken as
  `Corrupt`, a miss that deletes it. The source does the same for a list or a string without
  both key strings, but raises `TypeError` for a number, a boolean or `null`, and for a list or
  string containing both.
- `WorkspaceState.WorkspaceStore.Save` and the mutators that call it: writing the state file
  always succeeds. The source logs and swallows a failed write in `_save_unlocked`, so the
  cached state can then differ from the file, and a failed `json.dump` leaves a truncated file.
- `QueryHistory.QueryHistoryStore.GetStats`: the averages are exact, not rounded to two
  places.
- `TaskGenerator.EstimateComplexity`: the hours are exact, not rounded to one place.
- `TaskGenerator.RefineTaskPlan`:
  - the source updates the caller's task dictionaries in place, because it copies the list
    shallowly; the model returns a new plan and does not capture that aliasing;
  - `generate_task_plan`'s `setdefault` on the caller's constraints dictionary is likewise
    not modelled.
- `Metadata.MetadataStore.SearchText` follows the code, not the documentation:
  - an FTS5 syntax error in the query is an `Err`, because the source does not catch it;
  - results come in `ORDER BY score` order, ascending raw BM25.
- `VectorStore.FaissVectorStore.Search`: FAISS's own failures on `k < 1` and on a query of
  the wrong dimension are `Err` results.

## Findings

| source | as written | input that shows it | evidently intended | confidence | as-written member | corrected member |
|---|---|---|---|---|---|---|
| shared/workspace_state.py:130-132 | mutators take the non-reentrant `threading.Lock`, then call `load()`, which takes the same lock | `add_focus_file(...)` on a new instance whose `_state` is `None` | load the state without re-taking the lock (or use an `RLock`) | high; not executed | `WorkspaceState.NeverLoadedBlocks` | `WorkspaceState.EnterReturns` |
| task-generator/src/task_generator.py:118-126 | dependencies are read as positions into the partly renumbered list: `tasks[i-1]['id']` | `remove_task_ids=[1]` on a plan whose remaining tasks depend on task 1 | map each dependency to the new id of the task it named, and drop dependencies on removed tasks | high; not executed | `TaskGenerator.RefineRemovesFirst` | `TaskGenerator.RefinedWellNumbered` |
| efcore-analysis/src/analyzers/linq_analyzer.py:58-60 | `rfind` and `find` return -1 when no newline is found; that -1 is then used as a slice bound | `".ToList()"` as the whole file gives an empty line; `"\n.ToList()"` gives `".ToList("` | slice from just after the previous newline to the next newline, or to the end of the text | high; not executed | `LinqAnalysis.AsWrittenLosesFirstLine` | `LinqAnalysis.SyncCallReported` |

The last two rows are modelled both ways. `TaskGenerator.Renumbering` and
`LinqAnalysis.Slicing` choose between the code as written (`AsWritten`) and the corrected
code (`Corrected`). The refinement and extraction methods take that choice as a parameter, so
the source's own loops are the `AsWritten` instances. The lemmas state what each choice does.
