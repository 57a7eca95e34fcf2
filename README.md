# SOP question-answering backend: a Dafny model of its decision logic

The repository is a small Flask backend that answers questions about standard
operating procedure (SOP) documents. It splits documents into chunks, indexes
them in a FAISS vector store, and answers through a LangChain `RetrievalQA` chain
over Gemini. Most of the work happens in libraries. This model covers the
repository's own decision logic, in three modules:

- `TextChunks` (text_chunks.dfy) models `get_text_chunks` in utils.py. It is an
  imperative loop over the documents that skips those without usable text. It
  numbers each document's pieces and tags each chunk with its document's name.
  The LangChain splitter is a function parameter, and it is always called with
  the configuration chunk size 1000 and overlap 200. The loop is proved equal
  to a recursive specification, `ChunksOf`. Lemmas then give the chunk count,
  the position of every piece, the order of the chunks, where each chunk came
  from, and that chunk ids are distinct. Python's `str.strip()` whitespace set
  and decimal formatting are written out.
- `VectorStoreManager` (vector_store.dfy) models `create_vector_store`. It is a
  method of the class `StoreDirectory`, which holds the store directory and its
  two files, `sop_index.faiss` and `text_chunks.pkl`. The cache is reused only
  when both files exist, no rebuild is forced, loading raises nothing, and the
  stored chunk count matches the index count. When the cache is reused, the
  caller's chunks are ignored. Otherwise the store is rebuilt; if any step of
  the rebuild raises, both files are removed. Each library call is a success flag
  in a `Backend` value: `get_embeddings_model()` in the cache branch and again
  in the rebuild (two flags), `load_local`, `pickle.load`, `from_texts`,
  `save_local` and `pickle.dump`. The content and metadata list
  comprehensions, `get_retriever` and `get_similar_docs` are functions.
- `App` (app_state.dfy) models the module-level dict `app_state` as the class
  `AppState`. Its methods `InitializeApp`, `ProcessSops` and `AskQuestion`, and
  the function `GetStatus`, follow the corresponding handlers. HTTP replies are
  values holding a status code and the JSON fields. `ProcessSops` says, for each
  of its return statements, what every field holds afterwards. It keeps
  `Serving()`: whenever the documents count as processed, a store and a chain
  exist and no error is recorded.

Calls into code that is not modelled are parameters. These are: the document
loader, the splitter, `create_vector_store` as `process_sops` sees it, `get_llm`,
`as_retriever`, `get_conversational_chain`, the QA chain call, and the
similarity search. `Wrappers` (wrappers.dfy) holds `Option` and `Outcome`.

The only state is the flags, counts and fields of `app_state` and the two
store files.

`get_text_chunks` returns LangChain `Document` objects (utils.py:84-85), while
`create_vector_store` reads `chunk['content']`, `chunk['source']` and
`chunk['chunk_id']` as dict keys (vector_store_manager.py:50-51). So each is
modelled against its own input shape: `ChunkDocument` against `ChunkRecord`.
`ProcessSops` takes the result of `create_vector_store` as a parameter rather
than composing the two.

## Model

Some definitions state a source expression without a contract of their own;
the rows below that use them describe them. They are `TextChunks.ChunkId`
(utils.py:82), `TextChunks.HasUsableText` (utils.py:73),
`VectorStoreManager.CacheReusable` (vector_store_manager.py:32, 39),
`App.ChainOf` (app.py:127-133) and `App.SourceHits` (app.py:187).

| member | source | states |
|---|---|---|
| `TextChunks.GetTextChunks` | utils.py:59-91 | a missing or empty document list gives no chunks; otherwise the loop's result equals `ChunksOf`, each usable document's numbered pieces in input order |
| `TextChunks.StripEmptyIffBlank` | utils.py:73 | `text.strip()` is empty exactly when every character is Python whitespace (the empty text included) |
| `TextChunks.UsableTextIff` | utils.py:72-75 | a document is used exactly when its text is a string with a non-whitespace character; a missing or non-string text is skipped |
| `TextChunks.SkippedDocumentAddsNothing` | utils.py:72-75 | a document without usable text, at any position, contributes no chunks |
| `TextChunks.ChunksOfConcat` | utils.py:70-85 | chunking a concatenation of document lists concatenates their chunk lists |
| `TextChunks.ChunkCount` | utils.py:77-85 | the number of chunks equals the sum of the splitter's piece counts over the usable documents |
| `TextChunks.PieceCountConcat` | utils.py:77-85 | the piece count of a concatenation is the sum of the piece counts |
| `TextChunks.NumberedAt` | utils.py:79-85 | entry `i` of a document's numbered pieces is piece `i`, with the document's name as source and id `name_chunk_i` |
| `TextChunks.ChunksAround` | utils.py:71-85 | the chunks of a list are those of the documents before `j`, then those of document `j`, then those after it |
| `TextChunks.ChunkPlacement` | utils.py:64-85 | piece `i` of usable document `j`, from the splitter configured with size 1000 and overlap 200, is the chunk at position `PieceCount(docs[..j]) + i`, verbatim, with source the document's name and id `name_chunk_i` |
| `TextChunks.ChunkOrigin` | utils.py:77-85 | every chunk is such a piece of some usable document, at exactly that position, so there are no other chunks |
| `TextChunks.ChunkOrder` | utils.py:71-85 | chunks follow document order, and the splitter's order within a document |
| `TextChunks.ChunkIdsDistinct` | utils.py:82 | a chunk id starts with the document name, and distinct indices give distinct ids within a document |
| `TextChunks.NatToString` | utils.py:82 | the index is written as a non-empty string of decimal digits |
| `TextChunks.ParseNatToString` | utils.py:82 | reading the decimal digits back gives the index |
| `TextChunks.NatToStringInjective` | utils.py:82 | distinct indices are written differently |
| `VectorStoreManager.Contents` | vector_store_manager.py:50 | the comprehension succeeds exactly when every chunk has 'content'; it then lists the contents one per chunk, in order |
| `VectorStoreManager.Metadatas` | vector_store_manager.py:51 | the comprehension succeeds exactly when every chunk has 'source' and 'chunk_id'; it then lists one `{source, chunk_id}` per chunk, in order |
| `VectorStoreManager.Rebuild` | vector_store_manager.py:49-53 | building succeeds exactly when embeddings and `from_texts` succeed and every chunk has the three keys; the store then has one text and one metadata entry per input chunk, in order |
| `VectorStoreManager.StoreDirectory.constructor` | vector_store_manager.py:10-12 | a store directory with the given files, none outside an existing directory |
| `VectorStoreManager.StoreDirectory.CreateVectorStore` | vector_store_manager.py:23-65 | empty input returns `None` and touches nothing; the cached pair is returned exactly when both files exist, `force_recreate` is false, loading raises nothing and the counts match, and input is then ignored; otherwise a successful rebuild saves and returns the store and the input chunks, and a failed one returns `(None, None)` with both files absent |
| `VectorStoreManager.RebuildThenReuse` | vector_store_manager.py:32-58 | after a successful rebuild, the next call without `force_recreate` returns the saved store and the first call's chunks, whatever its own input |
| `VectorStoreManager.GetRetriever` | vector_store_manager.py:67-89 | a retriever exists exactly when there is a store and `as_retriever` returns; it carries the store, the search type and `k` asked for |
| `VectorStoreManager.RetrieverDefaults` | vector_store_manager.py:67 | the defaults are search type "similarity" and k = 5 |
| `VectorStoreManager.GetSimilarDocs` | vector_store_manager.py:91-100 | `[]` for a missing store or a search that raises, otherwise the search's documents |
| `App.ExitOf` | app.py:82-153 | `process_sops` reaches its success exit exactly when the key is loaded, documents load and produce chunks, a store is obtained, and the LLM, retriever and chain are all built |
| `App.AnswerOf` | app.py:174 | the answer is the chain's 'result', or "No answer found." when absent |
| `App.SlicePrefix` | app.py:189 | Python's `s[:n]`: the first `min(n, len(s))` characters |
| `App.Truncated` | app.py:189 | a source's content is its first 250 characters (all of it if shorter) followed by "... (truncated)" |
| `App.AppState.constructor` | app.py:29-37 | the initial state: no key, not processed, no store or chain, counts 0, no error |
| `App.AppState.GetStatus` | app.py:70-79 | reports the two flags, the two counts and the error message; while `Serving()` holds, a processed status has no error |
| `App.AppState.InitializeApp` | app.py:39-68 | returns true exactly when the key loads and an LLM is obtained; `api_key_loaded` equals the result, the error is cleared on success and set to the matching message on each failure; nothing else changes |
| `App.AppState.ProcessSops` | app.py:81-153 | every entry of `app_state` afterwards is `AfterProcess` of the entries before, and the reply is `ProcessReplyOf` them: each exit writes exactly the entries the code writes before that exit |
| `App.AppState.BuildQaChain` | app.py:109-147 | from the store step on, the entries and the reply are those `AfterProcess` and `ProcessReplyOf` give for the state at the start of `process_sops` |
| `App.ProcessWithoutKey` | app.py:84-86 | without the key the reply is 500 "API key not loaded..." and no entry changes |
| `App.ProcessExitsConsistent` | app.py:88-153 | past the key check, the documents are marked processed exactly on success, an error is recorded exactly on failure and equals the reply's message, and `Serving()` holds afterwards |
| `App.ProcessKeepsServing` | app.py:81-153 | `process_sops` keeps `Serving()`: processed implies a store, a chain and no error |
| `App.ProcessSuccessCounts` | app.py:97-147 | on success the reply's counts are the number of loaded documents and of their chunks |
| `App.ProcessEmptyCounts` | app.py:92-107 | with no documents both counts keep their old values; with documents but no chunks the documents are counted and the chunk count is 0 |
| `App.FailureBeforeChainKeepsChain` | app.py:90-137 | a run that fails before line 133 keeps the old `qa_chain` yet leaves the documents not processed |
| `App.AppState.Crash` | app.py:149-153 | the except branch: not processed, error "Error processing SOPs: " plus the message, reply 500 |
| `App.AppState.AskQuestion` | app.py:155-198 | 400 before calling the chain when not processed or no chain; 400 for a missing or empty question; 500 when the chain raises; otherwise 200 with the answer and one truncated source per source document, in order |
| `App.FailedReprocessThenAsk` | app.py:88-160 | a reprocess failing before the chain step keeps the old chain, yet the next question is rejected as not processed |

## Left out

- Flask routing, CORS, JSON serialisation, logging and the `__main__` blocks are web and I/O plumbing. They are not modelled; replies are values.
- `load_documents_from_sops_dir` (directory listing and PDF/DOCX/TXT extraction) is filesystem I/O and foreign parsers. Its result is a parameter of `ProcessSops`.
- The internals of `RecursiveCharacterTextSplitter` belong to a library. The splitter is a function parameter, so no chunk-size or overlap bound is claimed for its pieces.
- FAISS indexing and similarity search, Gemini embeddings and pickle are foreign calls, and similarity is floating point. They appear as success flags, as stored texts and metadata, and as a search function parameter.
- gemini_handler.py is not part of this model: key loading, LLM construction, the prompt and `RetrievalQA`. Their effects are the parameters `KeyLoad`, `llmOk` and `chain`.
- The FAISS side file `sop_index.pkl` that `save_local` writes is library internals and not modelled. So is whether a failed `save_local` or `pickle.dump` leaves a partial file; the cleanup removes both tracked files either way.
- Concurrency is not modelled. The dict is shared by the server threads without locking.
- TextChunks.GetTextChunks: every document carries a 'name', as the loader builds them. The `KeyError` a nameless document would raise is not modelled.
- App.AppState.ProcessSops: an exception raised inside the splitter is not modelled. A `None` return from `create_vector_store` (empty input), which the caller's tuple unpacking would reject, is not modelled either; the empty-chunks check before the call rules it out.
- App.AppState.AskQuestion: the question is a string or absent. Other JSON values, a body that is not JSON, and the source-logging loop (app.py:177-184) are not modelled.
- App.AppState.InitializeApp: `Serving()` is kept only when initialisation succeeds or nothing is processed. A failing re-initialisation after a successful process would leave `sops_processed` True beside an error message; the source calls `initialize_app` only once, at startup.
