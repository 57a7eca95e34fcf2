/** The process-wide status of app.py: the module-level dict `app_state` and
    the handlers that change and read it (`initialize_app`, `process_sops`,
    `ask_question`, `get_status`).

    HTTP replies are values: a status code and the JSON body's fields. The
    document loader, the LLM, the retriever's library call, the QA chain and
    `create_vector_store` are calls whose results are parameters. */
module App {
  import opened Wrappers
  import TextChunks
  import VectorStoreManager

  const LLM_INIT_FAILED := "Failed to initialize LLM. Check API key and Gemini setup."
  const UNEXPECTED_INIT_PREFIX := "An unexpected error occurred during initialization: "
  const KEY_NOT_LOADED := "API key not loaded. Please check backend logs."
  const NO_DOCUMENTS := "No documents found in 'sops' directory or failed to load."
  const NO_CHUNKS := "Documents were found but produced no text chunks for processing."
  const NO_VECTOR_STORE := "Failed to create or retrieve vector store from chunks."
  const NO_LLM := "Failed to get LLM for QA chain."
  const NO_RETRIEVER := "Failed to create retriever from vector store."
  const NO_QA_CHAIN := "Failed to create conversational QA chain."
  const PROCESS_ERROR_PREFIX := "Error processing SOPs: "
  const PROCESSED_OK := "SOPs processed successfully."
  const NOT_READY := "SOPs not processed yet or QA chain not initialized. Please process SOPs first."
  const NO_QUESTION := "No question provided."
  const ASK_ERROR_PREFIX := "Error processing question: "
  const NO_ANSWER := "No answer found."
  const TRUNCATION_SUFFIX := "... (truncated)"
  const SNIPPET_LENGTH: nat := 250

  /** What `load_api_key()` did: returned, raised `ValueError`, or raised
      another exception; the message is `str(e)`. */
  datatype KeyLoad = KeyLoaded | KeyValueError(message: string) | KeyLoadRaised(message: string)

  /** The `RetrievalQA` chain built over a retriever. */
  datatype QaChain = QaChain(retriever: VectorStoreManager.Retriever)

  /** What the calls inside `process_sops` do. `vectorStore` is the first element
      of the pair `create_vector_store(all_text_chunks)` returns; `chain` is
      whether `get_conversational_chain` returns a chain or `None`. */
  datatype ProcessEnv = ProcessEnv(
    documents: Outcome<seq<TextChunks.DocumentData>>,
    split: TextChunks.Splitter,
    vectorStore: Outcome<Option<VectorStoreManager.FaissStore>>,
    llmOk: bool,
    asRetrieverOk: bool,
    chain: Outcome<bool>)

  /** The reply of `process_sops`: its status code and the JSON fields
      `success`, `message` and, on success only, the two counts. */
  datatype ProcessReply = ProcessReply(success: bool, status: nat, message: string, counts: Option<(nat, nat)>)

  /** The `return` statements of `process_sops`, in source order. */
  datatype ProcessExit =
    | KeyNotLoaded
    | LoadRaised(message: string)
    | NoDocuments
    | NoChunks
    | StoreRaised(message: string)
    | NoVectorStore
    | NoLlm
    | NoRetriever
    | ChainRaised(message: string)
    | NoQaChain
    | Processed
  {
    /** Past app.py:97 and 102, where both counts are written. */
    predicate CountsWritten() {
      !(KeyNotLoaded? || LoadRaised? || NoDocuments?)
    }

    /** Past app.py:111, where the vector store is written. */
    predicate StoreWritten() {
      CountsWritten() && !(NoChunks? || StoreRaised?)
    }

    /** Past app.py:133, where the QA chain is written. */
    predicate ChainWritten() {
      NoQaChain? || Processed?
    }

    /** The `error_message` the exit leaves (`KeyNotLoaded` leaves it alone). */
    function ErrorMessage(): Option<string> {
      match this
      case KeyNotLoaded => None
      case LoadRaised(m) => Some(PROCESS_ERROR_PREFIX + m)
      case NoDocuments => Some(NO_DOCUMENTS)
      case NoChunks => Some(NO_CHUNKS)
      case StoreRaised(m) => Some(PROCESS_ERROR_PREFIX + m)
      case NoVectorStore => Some(NO_VECTOR_STORE)
      case NoLlm => Some(NO_LLM)
      case NoRetriever => Some(NO_RETRIEVER)
      case ChainRaised(m) => Some(PROCESS_ERROR_PREFIX + m)
      case NoQaChain => Some(NO_QA_CHAIN)
      case Processed => None
    }

    /** The status code of the reply. */
    function Status(): nat {
      match this
      case Processed => 200
      case NoDocuments => 400
      case NoChunks => 400
      case _ => 500
    }
  }

  /** The exit `process_sops` takes for the given key status and calls. */
  function ExitOf(apiKeyLoaded: bool, env: ProcessEnv): (e: ProcessExit)
    ensures e.Processed? <==>
      apiKeyLoaded && env.documents.Returned? && env.documents.value != [] &&
      TextChunks.ChunksOf(env.documents.value, env.split) != [] &&
      env.vectorStore.Returned? && env.vectorStore.value.Some? &&
      env.llmOk && env.asRetrieverOk && env.chain == Returned(true)
    ensures e.KeyNotLoaded? <==> !apiKeyLoaded
    ensures e.CountsWritten() ==> env.documents.Returned? && env.documents.value != []
    ensures e.StoreWritten() ==>
      env.vectorStore.Returned? && TextChunks.ChunksOf(env.documents.value, env.split) != []
    ensures e.ChainWritten() ==>
      env.vectorStore.value.Some? && env.llmOk && env.asRetrieverOk && env.chain.Returned?
  {
    if !apiKeyLoaded then KeyNotLoaded
    else match env.documents
      case Raised(m) => LoadRaised(m)
      case Returned(docs) =>
        if docs == [] then NoDocuments
        else if TextChunks.ChunksOf(docs, env.split) == [] then NoChunks
        else match env.vectorStore
          case Raised(m) => StoreRaised(m)
          case Returned(store) =>
            if store.None? then NoVectorStore
            else if !env.llmOk then NoLlm
            else if !env.asRetrieverOk then NoRetriever
            else match env.chain
              case Raised(m) => ChainRaised(m)
              case Returned(built) => if built then Processed else NoQaChain
  }

  /** The seven entries of `app_state`. */
  datatype AppFields = AppFields(
    apiKeyLoaded: bool,
    sopsProcessed: bool,
    vectorStore: Option<VectorStoreManager.FaissStore>,
    qaChain: Option<QaChain>,
    processedDocsCount: nat,
    processedChunksCount: nat,
    errorMessage: Option<string>)
  {
    /** When the documents count as processed, a store and a chain are in place
        and no error is recorded. */
    predicate Serving() {
      sopsProcessed ==> vectorStore.Some? && qaChain.Some? && errorMessage.None?
    }
  }

  /** The chain app.py:127-133 stores, once the chain step is reached. */
  function ChainOf(env: ProcessEnv): Option<QaChain>
    requires env.vectorStore.Returned?
  {
    match VectorStoreManager.GetRetriever(env.vectorStore.value, env.asRetrieverOk)
    case Some(retriever) => if env.chain == Returned(true) then Some(QaChain(retriever)) else None
    case None => None
  }

  /** `app_state` after `process_sops`, from `app_state` before it: each entry
      keeps its old value unless the exit taken lies past the line that writes it. */
  function AfterProcess(s: AppFields, env: ProcessEnv): AppFields {
    var e := ExitOf(s.apiKeyLoaded, env);
    if e.KeyNotLoaded? then s
    else s.(
      sopsProcessed := e.Processed?,
      errorMessage := e.ErrorMessage(),
      processedDocsCount := if e.CountsWritten() then |env.documents.value| else s.processedDocsCount,
      processedChunksCount :=
        if e.CountsWritten() then |TextChunks.ChunksOf(env.documents.value, env.split)|
        else s.processedChunksCount,
      vectorStore := if e.StoreWritten() then env.vectorStore.value else s.vectorStore,
      qaChain := if e.ChainWritten() then ChainOf(env) else s.qaChain)
  }

  /** The reply of `process_sops`. */
  function ProcessReplyOf(s: AppFields, env: ProcessEnv): ProcessReply {
    var e := ExitOf(s.apiKeyLoaded, env);
    if e.KeyNotLoaded? then ProcessReply(false, 500, KEY_NOT_LOADED, None)
    else if e.Processed? then
      var t := AfterProcess(s, env);
      ProcessReply(true, 200, PROCESSED_OK, Some((t.processedDocsCount, t.processedChunksCount)))
    else ProcessReply(false, e.Status(), e.ErrorMessage().value, None)
  }

  /** Without the key, `process_sops` fails with 500 and changes nothing. */
  lemma ProcessWithoutKey(s: AppFields, env: ProcessEnv)
    requires !s.apiKeyLoaded
    ensures AfterProcess(s, env) == s
    ensures ProcessReplyOf(s, env) == ProcessReply(false, 500, KEY_NOT_LOADED, None)
  {
  }

  /** Every exit past the key check leaves the documents marked processed
      exactly when it reports success, an error message exactly when it reports
      failure, and the serving invariant in force. */
  lemma ProcessExitsConsistent(s: AppFields, env: ProcessEnv)
    requires s.apiKeyLoaded
    ensures var t, r := AfterProcess(s, env), ProcessReplyOf(s, env);
      && (r.success <==> t.sopsProcessed)
      && (r.success <==> t.errorMessage.None?)
      && (!r.success ==> t.errorMessage == Some(r.message))
      && t.Serving()
  {
  }

  /** `process_sops` never breaks the serving invariant. */
  lemma ProcessKeepsServing(s: AppFields, env: ProcessEnv)
    requires s.Serving()
    ensures AfterProcess(s, env).Serving()
  {
  }

  /** On success the reported counts are the number of loaded documents and
      the number of chunks they produced. */
  lemma ProcessSuccessCounts(s: AppFields, env: ProcessEnv)
    requires ProcessReplyOf(s, env).success
    ensures ExitOf(s.apiKeyLoaded, env).Processed?
    ensures var t := AfterProcess(s, env);
      && t.processedDocsCount == |env.documents.value|
      && t.processedChunksCount == |TextChunks.ChunksOf(env.documents.value, env.split)|
      && ProcessReplyOf(s, env).counts == Some((t.processedDocsCount, t.processedChunksCount))
  {
  }

  /** When no document loads, the document count keeps its previous value;
      when documents load but give no chunks, the chunk count becomes 0. */
  lemma ProcessEmptyCounts(s: AppFields, env: ProcessEnv)
    requires s.apiKeyLoaded && env.documents.Returned?
    ensures env.documents.value == [] ==>
      AfterProcess(s, env).processedDocsCount == s.processedDocsCount &&
      AfterProcess(s, env).processedChunksCount == s.processedChunksCount
    ensures env.documents.value != [] && TextChunks.ChunksOf(env.documents.value, env.split) == [] ==>
      AfterProcess(s, env).processedDocsCount == |env.documents.value| &&
      AfterProcess(s, env).processedChunksCount == 0
  {
  }

  /** A run that fails before the chain step keeps the old `qa_chain`, but
      leaves the documents marked not processed. */
  lemma FailureBeforeChainKeepsChain(s: AppFields, env: ProcessEnv)
    requires s.apiKeyLoaded && !ExitOf(s.apiKeyLoaded, env).ChainWritten()
    ensures AfterProcess(s, env).qaChain == s.qaChain
    ensures !AfterProcess(s, env).sopsProcessed
  {
  }

  /** The fields `get_status` reports. */
  datatype StatusReport = StatusReport(
    apiKeyLoaded: bool,
    sopsProcessed: bool,
    processedDocsCount: nat,
    processedChunksCount: nat,
    errorMessage: Option<string>)

  /** A source document of a chain result, as the reply shows it. */
  datatype SourceEntry = SourceEntry(content: string, metadata: VectorStoreManager.ChunkMetadata)

  /** What the QA chain returns: the 'result' key (`None` if absent) and the
      'source_documents' key (`None` if absent). */
  datatype ChainResult = ChainResult(
    result: Option<string>,
    sourceDocuments: Option<seq<VectorStoreManager.SearchHit>>)

  /** The JSON body of an `ask_question` reply. */
  datatype AskBody =
    | NotReadyBody(answer: string)
    | ErrorBody(error: string)
    | AnswerBody(answer: string, sourceDocuments: seq<SourceEntry>)

  datatype AskReply = AskReply(status: nat, body: AskBody)

  /** `result.get("result", "No answer found.")` */
  function AnswerOf(res: ChainResult): (a: string)
    ensures res.result.None? ==> a == NO_ANSWER
    ensures res.result.Some? ==> a == res.result.value
  {
    if res.result.None? then NO_ANSWER else res.result.value
  }

  /** The source documents the reply lists: none when the key is absent. */
  function SourceHits(res: ChainResult): seq<VectorStoreManager.SearchHit> {
    if res.sourceDocuments.None? then [] else res.sourceDocuments.value
  }

  /** Python's `s[:n]`. */
  function SlicePrefix(s: string, n: nat): (r: string)
    ensures |r| == if |s| <= n then |s| else n
    ensures r == s[..|r|]
  {
    if |s| <= n then s else s[..n]
  }

  /** `content[:250] + "... (truncated)"`: at most 250 characters of the
      content, always followed by the suffix. */
  function Truncated(content: string): (r: string)
    ensures |r| == |TRUNCATION_SUFFIX| + if |content| <= SNIPPET_LENGTH then |content| else SNIPPET_LENGTH
    ensures r[|r| - |TRUNCATION_SUFFIX|..] == TRUNCATION_SUFFIX
    ensures r[..|r| - |TRUNCATION_SUFFIX|] == content[..|r| - |TRUNCATION_SUFFIX|]
    ensures |content| <= SNIPPET_LENGTH ==> r == content + TRUNCATION_SUFFIX
  {
    var snippet := SlicePrefix(content, SNIPPET_LENGTH);
    assert (snippet + TRUNCATION_SUFFIX)[..|snippet|] == snippet;
    snippet + TRUNCATION_SUFFIX
  }

  /** The dict `app_state`. */
  class AppState {
    var apiKeyLoaded: bool
    var sopsProcessed: bool
    var vectorStore: Option<VectorStoreManager.FaissStore>
    var qaChain: Option<QaChain>
    var processedDocsCount: nat
    var processedChunksCount: nat
    var errorMessage: Option<string>

    /** The current value of the dict. */
    function Fields(): AppFields
      reads this
    {
      AppFields(apiKeyLoaded, sopsProcessed, vectorStore, qaChain,
                processedDocsCount, processedChunksCount, errorMessage)
    }

    predicate Serving()
      reads this
    {
      Fields().Serving()
    }

    /** The initial value of `app_state` (app.py:29-37). */
    constructor ()
      ensures !apiKeyLoaded && !sopsProcessed && vectorStore.None? && qaChain.None?
      ensures processedDocsCount == 0 && processedChunksCount == 0 && errorMessage.None?
      ensures Serving()
    {
      apiKeyLoaded := false;
      sopsProcessed := false;
      vectorStore := None;
      qaChain := None;
      processedDocsCount := 0;
      processedChunksCount := 0;
      errorMessage := None;
    }

    /** `get_status()`: the flags and counts, without the store or the chain. */
    function GetStatus(): (s: StatusReport)
      reads this
      ensures s.apiKeyLoaded == apiKeyLoaded && s.sopsProcessed == sopsProcessed
      ensures s.processedDocsCount == processedDocsCount && s.processedChunksCount == processedChunksCount
      ensures s.errorMessage == errorMessage
      ensures Serving() && s.sopsProcessed ==> s.errorMessage.None?
    {
      StatusReport(apiKeyLoaded, sopsProcessed, processedDocsCount, processedChunksCount, errorMessage)
    }

    /** `initialize_app()`: load the key, then obtain an LLM. */
    method InitializeApp(keyLoad: KeyLoad, llmOk: bool) returns (ok: bool)
      modifies this
      ensures ok <==> keyLoad.KeyLoaded? && llmOk
      ensures apiKeyLoaded == ok
      ensures ok ==> errorMessage.None?
      ensures !ok ==> errorMessage == Some(
        match keyLoad
        case KeyLoaded => LLM_INIT_FAILED
        case KeyValueError(m) => m
        case KeyLoadRaised(m) => UNEXPECTED_INIT_PREFIX + m)
      ensures sopsProcessed == old(sopsProcessed) && vectorStore == old(vectorStore) && qaChain == old(qaChain)
      ensures processedDocsCount == old(processedDocsCount) && processedChunksCount == old(processedChunksCount)
      ensures old(Serving()) && (ok || !sopsProcessed) ==> Serving()
    {
      match keyLoad {
        case KeyValueError(m) =>
          apiKeyLoaded := false;
          errorMessage := Some(m);
          return false;
        case KeyLoadRaised(m) =>
          apiKeyLoaded := false;
          errorMessage := Some(UNEXPECTED_INIT_PREFIX + m);
          return false;
        case KeyLoaded =>
      }
      apiKeyLoaded := true;
      errorMessage := None;
      if !llmOk {
        errorMessage := Some(LLM_INIT_FAILED);
        apiKeyLoaded := false;
        return false;
      }
      return true;
    }

    /** `process_sops()`: load the documents, chunk them, obtain the vector store,
        the LLM, the retriever and the QA chain, updating `app_state` on the way. */
    method ProcessSops(env: ProcessEnv) returns (reply: ProcessReply)
      modifies this
      ensures Fields() == AfterProcess(old(Fields()), env)
      ensures reply == ProcessReplyOf(old(Fields()), env)
    {
      if !apiKeyLoaded {
        return ProcessReply(false, 500, KEY_NOT_LOADED, None);
      }
      sopsProcessed := false;
      if env.documents.Raised? {
        reply := Crash(env.documents.message);
        return;
      }
      var documentsData := env.documents.value;
      if documentsData == [] {
        errorMessage := Some(NO_DOCUMENTS);
        return ProcessReply(false, 400, NO_DOCUMENTS, None);
      }
      processedDocsCount := |documentsData|;
      var allTextChunks := TextChunks.GetTextChunks(Some(documentsData), env.split);
      processedChunksCount := |allTextChunks|;
      if allTextChunks == [] {
        errorMessage := Some(NO_CHUNKS);
        return ProcessReply(false, 400, NO_CHUNKS, None);
      }
      reply := BuildQaChain(env, old(Fields()));
    }

    /** The second half of `process_sops` (app.py:109-147), reached once the
        documents have produced chunks: obtain the vector store, the LLM, the
        retriever and the QA chain. `before` is `app_state` when `process_sops`
        was called. */
    method BuildQaChain(env: ProcessEnv, ghost before: AppFields) returns (reply: ProcessReply)
      requires before.apiKeyLoaded && env.documents.Returned? && env.documents.value != []
      requires TextChunks.ChunksOf(env.documents.value, env.split) != []
      requires Fields() == before.(
        sopsProcessed := false,
        processedDocsCount := |env.documents.value|,
        processedChunksCount := |TextChunks.ChunksOf(env.documents.value, env.split)|)
      modifies this
      ensures Fields() == AfterProcess(before, env)
      ensures reply == ProcessReplyOf(before, env)
    {
      if env.vectorStore.Raised? {
        reply := Crash(env.vectorStore.message);
        return;
      }
      vectorStore := env.vectorStore.value;
      if vectorStore.None? {
        errorMessage := Some(NO_VECTOR_STORE);
        return ProcessReply(false, 500, NO_VECTOR_STORE, None);
      }
      if !env.llmOk {
        errorMessage := Some(NO_LLM);
        return ProcessReply(false, 500, NO_LLM, None);
      }
      var retriever := VectorStoreManager.GetRetriever(vectorStore, env.asRetrieverOk);
      if retriever.None? {
        errorMessage := Some(NO_RETRIEVER);
        return ProcessReply(false, 500, NO_RETRIEVER, None);
      }
      if env.chain.Raised? {
        reply := Crash(env.chain.message);
        return;
      }
      qaChain := if env.chain.value then Some(QaChain(retriever.value)) else None;
      if qaChain.None? {
        errorMessage := Some(NO_QA_CHAIN);
        return ProcessReply(false, 500, NO_QA_CHAIN, None);
      }
      sopsProcessed := true;
      errorMessage := None;
      return ProcessReply(true, 200, PROCESSED_OK, Some((processedDocsCount, processedChunksCount)));
    }

    /** The `except` branch of `process_sops` (app.py:149-153). */
    method Crash(message: string) returns (reply: ProcessReply)
      modifies this`sopsProcessed, this`errorMessage
      ensures !sopsProcessed && errorMessage == Some(PROCESS_ERROR_PREFIX + message)
      ensures reply == ProcessReply(false, 500, PROCESS_ERROR_PREFIX + message, None)
    {
      sopsProcessed := false;
      errorMessage := Some(PROCESS_ERROR_PREFIX + message);
      return ProcessReply(false, 500, PROCESS_ERROR_PREFIX + message, None);
    }

    /** `ask_question()`: `question` is the request's 'question' field (`None`
        when absent); `callChain` is what calling the chain on it does. */
    method AskQuestion(question: Option<string>, callChain: (QaChain, string) -> Outcome<ChainResult>)
      returns (reply: AskReply)
      ensures !(sopsProcessed && qaChain.Some?) ==> reply == AskReply(400, NotReadyBody(NOT_READY))
      ensures sopsProcessed && qaChain.Some? && (question.None? || question.value == "") ==>
        reply == AskReply(400, ErrorBody(NO_QUESTION))
      ensures (sopsProcessed && qaChain.Some? && question.Some? && question.value != "" &&
               callChain(qaChain.value, question.value).Raised?) ==>
        reply == AskReply(500, ErrorBody(ASK_ERROR_PREFIX + callChain(qaChain.value, question.value).message))
      ensures (sopsProcessed && qaChain.Some? && question.Some? && question.value != "" &&
               callChain(qaChain.value, question.value).Returned?) ==>
        var res := callChain(qaChain.value, question.value).value;
        var hits := SourceHits(res);
        && reply.status == 200 && reply.body.AnswerBody?
        && reply.body.answer == AnswerOf(res)
        && |reply.body.sourceDocuments| == |hits|
        && forall i | 0 <= i < |hits| ::
             reply.body.sourceDocuments[i] == SourceEntry(Truncated(hits[i].pageContent), hits[i].metadata)
    {
      if !sopsProcessed || qaChain.None? {
        return AskReply(400, NotReadyBody(NOT_READY));
      }
      if question.None? || question.value == "" {
        return AskReply(400, ErrorBody(NO_QUESTION));
      }
      var outcome := callChain(qaChain.value, question.value);
      if outcome.Raised? {
        return AskReply(500, ErrorBody(ASK_ERROR_PREFIX + outcome.message));
      }
      var result := outcome.value;
      var answer := AnswerOf(result);
      var sourceDocumentsForResponse: seq<SourceEntry> := [];
      if result.sourceDocuments.Some? && result.sourceDocuments.value != [] {
        var docs := result.sourceDocuments.value;
        for i := 0 to |docs|
          invariant |sourceDocumentsForResponse| == i
          invariant forall j | 0 <= j < i ::
            sourceDocumentsForResponse[j] == SourceEntry(Truncated(docs[j].pageContent), docs[j].metadata)
        {
          var sourceInfo := SourceEntry(Truncated(docs[i].pageContent), docs[i].metadata);
          sourceDocumentsForResponse := sourceDocumentsForResponse + [sourceInfo];
        }
      }
      return AskReply(200, AnswerBody(answer, sourceDocumentsForResponse));
    }
  }

  /** A reprocess that fails before the chain is built keeps the old QA chain,
      yet the next question is turned away because the documents no longer
      count as processed. */
  method FailedReprocessThenAsk(app: AppState, env: ProcessEnv, question: Option<string>,
                                callChain: (QaChain, string) -> Outcome<ChainResult>)
    returns (processed: ProcessReply, asked: AskReply)
    requires app.apiKeyLoaded && !ExitOf(true, env).ChainWritten()
    modifies app
    ensures !processed.success && app.qaChain == old(app.qaChain)
    ensures asked == AskReply(400, NotReadyBody(NOT_READY))
  {
    processed := app.ProcessSops(env);
    asked := app.AskQuestion(question, callChain);
  }
}
