/** The vector-store cache decision and cleanup of vector_store_manager.py.

    The store directory `faiss_index` holds two files that this model tracks:
    the FAISS index `sop_index.faiss` and the pickled chunk list
    `text_chunks.pkl`. FAISS, the embedding model and pickle are libraries
    whose code is not modelled: a `Backend` value says which of their calls
    succeed, and a FAISS store is represented by the texts and metadata it was
    built from (one vector per text, so `index.ntotal` is the number of texts). */
module VectorStoreManager {
  import opened Wrappers

  /** One element of `text_chunks_data`: a dict from which `create_vector_store`
      reads the keys 'content', 'source' and 'chunk_id'; `None` is a missing key. */
  datatype ChunkRecord = ChunkRecord(content: Option<string>, source: Option<string>, chunkId: Option<string>)

  /** The metadata dict `{'source': ..., 'chunk_id': ...}` stored beside each text. */
  datatype ChunkMetadata = ChunkMetadata(source: string, chunkId: string)

  /** A FAISS vector store, as loaded from or saved to `sop_index.faiss`. */
  datatype FaissStore = FaissStore(texts: seq<string>, metadatas: seq<ChunkMetadata>) {
    /** `vector_store.index.ntotal`: one embedding per text. */
    function NTotal(): nat {
      |texts|
    }
  }

  /** Which library calls succeed: `get_embeddings_model()` in the cache branch
      and again in the rebuild, `FAISS.load_local`, `pickle.load`,
      `FAISS.from_texts`, `save_local` and `pickle.dump`. */
  datatype Backend = Backend(
    loadEmbeddingsOk: bool,
    rebuildEmbeddingsOk: bool,
    loadLocalOk: bool,
    pickleLoadOk: bool,
    fromTextsOk: bool,
    saveLocalOk: bool,
    pickleDumpOk: bool)
  {
    /** Every call inside the `try` of the cache-loading branch returns. */
    predicate LoadSucceeds() {
      loadEmbeddingsOk && loadLocalOk && pickleLoadOk
    }
  }

  /** What `create_vector_store` returns: `None` for an empty input, the pair
      `(vector_store, chunks)`, or `(None, None)` after a failed rebuild. */
  datatype CreateResult = NoChunks | Store(vectorStore: FaissStore, chunks: seq<ChunkRecord>) | NoStore

  /** `[chunk['content'] for chunk in chunks]`; `None` when some chunk has no
      'content' key, which raises `KeyError`. */
  function Contents(chunks: seq<ChunkRecord>): (r: Option<seq<string>>)
    ensures r.Some? <==> forall i | 0 <= i < |chunks| :: chunks[i].content.Some?
    ensures r.Some? ==> |r.value| == |chunks|
    ensures r.Some? ==> forall i | 0 <= i < |chunks| :: r.value[i] == chunks[i].content.value
  {
    if chunks == [] then Some([])
    else match (chunks[0].content, Contents(chunks[1..]))
      case (Some(c), Some(rest)) => Some([c] + rest)
      case _ => None
  }

  /** `[{'source': chunk['source'], 'chunk_id': chunk['chunk_id']} for chunk in chunks]`;
      `None` when some chunk lacks one of the two keys. */
  function Metadatas(chunks: seq<ChunkRecord>): (r: Option<seq<ChunkMetadata>>)
    ensures r.Some? <==> forall i | 0 <= i < |chunks| :: chunks[i].source.Some? && chunks[i].chunkId.Some?
    ensures r.Some? ==> |r.value| == |chunks|
    ensures r.Some? ==> forall i | 0 <= i < |chunks| ::
      r.value[i] == ChunkMetadata(chunks[i].source.value, chunks[i].chunkId.value)
  {
    if chunks == [] then Some([])
    else match (chunks[0].source, chunks[0].chunkId, Metadatas(chunks[1..]))
      case (Some(s), Some(id), Some(rest)) => Some([ChunkMetadata(s, id)] + rest)
      case _ => None
  }

  /** The store `FAISS.from_texts` builds at vector_store_manager.py:49-53, or
      `None` if building raises. */
  function Rebuild(chunks: seq<ChunkRecord>, backend: Backend): (r: Option<FaissStore>)
    ensures r.Some? <==>
      backend.rebuildEmbeddingsOk && backend.fromTextsOk &&
      forall i | 0 <= i < |chunks| :: chunks[i].content.Some? && chunks[i].source.Some? && chunks[i].chunkId.Some?
    ensures r.Some? ==> r.value.NTotal() == |chunks| == |r.value.metadatas|
    ensures r.Some? ==> forall i | 0 <= i < |chunks| ::
      r.value.texts[i] == chunks[i].content.value &&
      r.value.metadatas[i] == ChunkMetadata(chunks[i].source.value, chunks[i].chunkId.value)
  {
    if !backend.rebuildEmbeddingsOk then None
    else match (Contents(chunks), Metadatas(chunks))
      case (Some(contents), Some(metadatas)) =>
        if backend.fromTextsOk then Some(FaissStore(contents, metadatas)) else None
      case _ => None
  }

  /** The whole rebuild, saving included, returns normally. */
  predicate RebuildSucceeds(chunks: seq<ChunkRecord>, backend: Backend) {
    Rebuild(chunks, backend).Some? && backend.saveLocalOk && backend.pickleDumpOk
  }

  /** The test at vector_store_manager.py:32 and 39 that returns the cached store:
      both files exist, no rebuild is forced, loading raises nothing, and the
      stored chunk count equals the index count. */
  predicate CacheReusable(indexFile: Option<FaissStore>, chunksFile: Option<seq<ChunkRecord>>,
                          forceRecreate: bool, backend: Backend)
  {
    indexFile.Some? && chunksFile.Some? && !forceRecreate && backend.LoadSucceeds() &&
    |chunksFile.value| == indexFile.value.NTotal()
  }

  /** The store directory `faiss_index` and the two files in it. */
  class StoreDirectory {
    var dirExists: bool
    /** `faiss_index/sop_index.faiss`, `None` when absent. */
    var indexFile: Option<FaissStore>
    /** `faiss_index/text_chunks.pkl`, `None` when absent. */
    var chunksFile: Option<seq<ChunkRecord>>

    /** Files exist only inside an existing directory. */
    ghost predicate Valid()
      reads this
    {
      !dirExists ==> indexFile.None? && chunksFile.None?
    }

    constructor (dirExists: bool, indexFile: Option<FaissStore>, chunksFile: Option<seq<ChunkRecord>>)
      requires !dirExists ==> indexFile.None? && chunksFile.None?
      ensures Valid()
      ensures this.dirExists == dirExists && this.indexFile == indexFile && this.chunksFile == chunksFile
    {
      this.dirExists := dirExists;
      this.indexFile := indexFile;
      this.chunksFile := chunksFile;
    }

    /** `create_vector_store(text_chunks_data, force_recreate)`. */
    method CreateVectorStore(textChunksData: seq<ChunkRecord>, forceRecreate: bool, backend: Backend)
      returns (r: CreateResult)
      requires Valid()
      modifies this
      ensures Valid()
      // An empty input touches nothing.
      ensures textChunksData == [] ==> r == NoChunks && unchanged(this)
      ensures textChunksData != [] ==> dirExists && !r.NoChunks?
      // The cached store is returned exactly when it is reusable; the input is then ignored.
      ensures textChunksData != [] && old(CacheReusable(indexFile, chunksFile, forceRecreate, backend)) ==>
        r == Store(old(indexFile).value, old(chunksFile).value) &&
        indexFile == old(indexFile) && chunksFile == old(chunksFile)
      // Otherwise the store is rebuilt from the input and saved ...
      ensures (textChunksData != [] && !old(CacheReusable(indexFile, chunksFile, forceRecreate, backend)) &&
               RebuildSucceeds(textChunksData, backend)) ==>
        r == Store(Rebuild(textChunksData, backend).value, textChunksData) &&
        indexFile == Rebuild(textChunksData, backend) && chunksFile == Some(textChunksData)
      // ... or, if any step of the rebuild raises, both files are removed.
      ensures (textChunksData != [] && !old(CacheReusable(indexFile, chunksFile, forceRecreate, backend)) &&
               !RebuildSucceeds(textChunksData, backend)) ==>
        r == NoStore && indexFile.None? && chunksFile.None?
    {
      if textChunksData == [] {
        return NoChunks;
      }
      if !dirExists {
        dirExists := true;
      }
      if indexFile.Some? && chunksFile.Some? && !forceRecreate {
        if backend.LoadSucceeds() {
          var vectorStore := indexFile.value;
          var storedTextChunks := chunksFile.value;
          if |storedTextChunks| == vectorStore.NTotal() {
            return Store(vectorStore, storedTextChunks);
          }
          // A count mismatch falls through to the rebuild.
        }
        // An exception while loading falls through to the rebuild.
      }
      var built := Rebuild(textChunksData, backend);
      if built.Some? && backend.saveLocalOk {
        indexFile := built;
        if backend.pickleDumpOk {
          chunksFile := Some(textChunksData);
          return Store(built.value, textChunksData);
        }
      }
      // The except branch at vector_store_manager.py:59-65.
      if indexFile.Some? {
        indexFile := None;
      }
      if chunksFile.Some? {
        chunksFile := None;
      }
      return NoStore;
    }
  }

  /** A store that was rebuilt and saved is reused by the next call that does
      not force a rebuild: the second call returns the saved store and the
      chunks of the first call, whatever its own input. */
  method RebuildThenReuse(dir: StoreDirectory, chunks: seq<ChunkRecord>, later: seq<ChunkRecord>,
                          forceFirst: bool, backend: Backend)
    returns (first: CreateResult, second: CreateResult)
    requires dir.Valid() && chunks != [] && later != []
    requires !CacheReusable(dir.indexFile, dir.chunksFile, forceFirst, backend)
    requires RebuildSucceeds(chunks, backend) && backend.LoadSucceeds()
    modifies dir
    ensures first == Store(Rebuild(chunks, backend).value, chunks)
    ensures second == first
  {
    first := dir.CreateVectorStore(chunks, forceFirst, backend);
    second := dir.CreateVectorStore(later, false, backend);
  }

  /** A retriever over a store, with its search type and `k`. */
  datatype Retriever = Retriever(vectorStore: FaissStore, searchType: string, k: int)

  /** `get_retriever(vector_store, search_type="similarity", k_results=5)`;
      `asRetrieverOk` says whether `vector_store.as_retriever` returns. */
  function GetRetriever(vectorStore: Option<FaissStore>, asRetrieverOk: bool,
                        searchType: string := "similarity", kResults: int := 5): (r: Option<Retriever>)
    ensures r.Some? <==> vectorStore.Some? && asRetrieverOk
    ensures r.Some? ==> r.value.vectorStore == vectorStore.value
    ensures r.Some? ==> r.value.searchType == searchType && r.value.k == kResults
  {
    if vectorStore.None? then None
    else if !asRetrieverOk then None
    else Some(Retriever(vectorStore.value, searchType, kResults))
  }

  /** Called with its defaults, `get_retriever` searches by similarity for 5 results. */
  lemma RetrieverDefaults(vectorStore: FaissStore)
    ensures GetRetriever(Some(vectorStore), true) == Some(Retriever(vectorStore, "similarity", 5))
  {
  }

  /** One document `similarity_search` returns. */
  datatype SearchHit = SearchHit(pageContent: string, metadata: ChunkMetadata)

  /** `vector_store.similarity_search(query, k=k)`: the documents found, or the
      exception raised. */
  type SimilaritySearch = (FaissStore, string, int) -> Outcome<seq<SearchHit>>

  /** `get_similar_docs(query, vector_store, k=5)`: never raises; a missing store
      or a failing search gives `[]`. */
  function GetSimilarDocs(query: string, vectorStore: Option<FaissStore>, search: SimilaritySearch,
                          k: int := 5): (r: seq<SearchHit>)
    ensures vectorStore.None? ==> r == []
    ensures vectorStore.Some? && search(vectorStore.value, query, k).Raised? ==> r == []
    ensures vectorStore.Some? && search(vectorStore.value, query, k).Returned? ==>
      r == search(vectorStore.value, query, k).value
  {
    if vectorStore.None? then []
    else match search(vectorStore.value, query, k)
      case Returned(docs) => docs
      case Raised(_) => []
  }
}
