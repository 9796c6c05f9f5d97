/** backend/modules/chatbot_core.py: the APECChatbot object, its set-up,
    readiness and count guards, the prompt choice, and the shaping of a
    retrieval-chain answer into the response the HTTP layer returns. The
    embedding model, the vector store, the Gemini client and the RetrievalQA
    chain are foreign; their outcomes arrive as parameters. */
module ChatbotCore {
  import opened Wrappers
  import opened Builtins
  import Utils

  const DEFAULT_PERSIST_DIRECTORY: string := "./chroma_db_langchain_e5"
  const EMBEDDING_MODEL_NAME: string := "intfloat/multilingual-e5-large"
  const GEMINI_MODEL: string := "gemini-2.0-flash"
  const GEMINI_TEMPERATURE: real := 0.1
  const STORE_NOT_FOUND: string := "Vector store not found! Please run the RAG setup first."
  const INIT_ERROR_PREFIX: string := "Error initializing models: "
  const APOLOGY_PREFIX: string := "Sorry, I encountered an error: "
  const RETRIEVAL_PREFIX: string := "query: "
  const DEFAULT_SEARCH_TYPE: string := "similarity"
  const CHAIN_TYPE: string := "stuff"
  const PREVIEW_LIMIT: nat := 200
  const ELLIPSIS: string := "..."
  /** `str(e)` of the AttributeError raised by `None.as_retriever(...)`. */
  const NO_RETRIEVER_ERROR: string := "'NoneType' object has no attribute 'as_retriever'"

  // ---------------------------------------------------------------------
  // Handles of the foreign components, recording how they were built
  // ---------------------------------------------------------------------

  datatype EmbeddingModel = SentenceTransformer(modelName: string)
  datatype Embeddings = SentenceTransformerEmbeddings(modelName: string)
  datatype VectorStore = Chroma(persistDirectory: string, embeddingFunction: Embeddings)
  datatype Llm = ChatGoogleGenerativeAI(model: string, temperature: real,
                                        convertSystemMessageToHuman: bool, googleApiKey: string)

  /** Whether one foreign construction returns or raises. */
  datatype Step = Completes | Raises(message: string)

  /** What `os.path.exists` and `os.listdir` report for the store directory. */
  datatype Directory = Missing | Listing(entries: seq<string>) | Unlistable(message: string)

  /** The outcomes of the foreign steps of `setup_models`, in call order. */
  datatype SetupEnv = SetupEnv(embeddingModel: Step, embeddings: Step, storeDirectory: Directory,
                               chroma: Step, llm: Step)

  /** The store directory exists and lists at least one entry. */
  predicate StorePopulated(dir: Directory)
  {
    dir.Listing? && dir.entries != []
  }

  /** How many of the four fields `setup_models` assigns before it stops:
      embedding_model, embeddings, vectorstore, llm. Each step is reached
      only when the one before it completed, and the store is opened only
      when its directory is populated. */
  function StepsCompleted(env: SetupEnv): (n: nat)
    ensures n <= 4
    ensures n >= 1 <==> env.embeddingModel.Completes?
    ensures n >= 2 <==> n >= 1 && env.embeddings.Completes?
    ensures n >= 3 <==> n >= 2 && StorePopulated(env.storeDirectory) && env.chroma.Completes?
    ensures n == 4 <==> n >= 3 && env.llm.Completes?
  {
    if env.embeddingModel.Raises? then 0
    else if env.embeddings.Raises? then 1
    else if !StorePopulated(env.storeDirectory) || env.chroma.Raises? then 2
    else if env.llm.Raises? then 3
    else 4
  }

  /** `str(e)` of the exception that stops `setup_models`, if any: the
      message of the first step that raises. A missing or empty store
      directory raises the "not found" message and Chroma is never tried. */
  function SetupFailure(env: SetupEnv): (r: Option<string>)
    ensures r.None? <==> StepsCompleted(env) == 4
    ensures r.None? <==>
      env.embeddingModel.Completes? && env.embeddings.Completes? &&
      env.storeDirectory.Listing? && |env.storeDirectory.entries| > 0 &&
      env.chroma.Completes? && env.llm.Completes?
    ensures env.embeddingModel.Raises? ==> r == Some(env.embeddingModel.message)
    ensures env.embeddingModel.Completes? && env.embeddings.Raises? ==> r == Some(env.embeddings.message)
    ensures (env.embeddingModel.Completes? && env.embeddings.Completes? &&
             (env.storeDirectory.Missing? || env.storeDirectory == Listing([]))) ==>
      r == Some(STORE_NOT_FOUND)
    ensures (env.embeddingModel.Completes? && env.embeddings.Completes? && env.storeDirectory.Unlistable?) ==>
      r == Some(env.storeDirectory.message)
    ensures StepsCompleted(env) == 2 && StorePopulated(env.storeDirectory) ==> r == Some(env.chroma.message)
    ensures StepsCompleted(env) == 3 ==> r == Some(env.llm.message)
  {
    if env.embeddingModel.Raises? then Some(env.embeddingModel.message)
    else if env.embeddings.Raises? then Some(env.embeddings.message)
    else
      match env.storeDirectory
      case Missing => Some(STORE_NOT_FOUND)
      case Unlistable(m) => Some(m)
      case Listing(entries) =>
        if entries == [] then Some(STORE_NOT_FOUND)
        else if env.chroma.Raises? then Some(env.chroma.message)
        else if env.llm.Raises? then Some(env.llm.message)
        else None
  }

  // ---------------------------------------------------------------------
  // Prompt templates
  // ---------------------------------------------------------------------

  datatype PromptTemplate = PromptTemplate(template: string, inputVariables: seq<string>)

  /** The Vietnamese template: instructions, then the retrieved context, then
      the question. */
  const VI_TEMPLATE: string := VI_ROLE + VI_GUIDELINES + "{context}" + VI_BEFORE_QUESTION + "{question}" + VI_CLOSING

  const VI_ROLE: string := "Bạn là trợ lý AI chuyên về APEC 2025 Korea và các thông tin liên quan đến du lịch, văn hóa Việt Nam."

  const VI_GUIDELINES: string := @"

            Hướng dẫn:
            - Ưu tiên sử dụng thông tin được cung cấp trong ngữ cảnh để trả lời câu hỏi một cách chính xác
            - Khi trình bày dữ liệu bảng, định dạng rõ ràng và dễ đọc
            - Bao gồm các chi tiết cụ thể như ngày tháng, địa điểm và tên sự kiện
            - Nếu ngữ cảnh chứa nhiều mục liên quan, hãy liệt kê tất cả
            - Nếu câu hỏi về các chủ đề như thủ tục nhập cảnh, visa, y tế, văn hóa Việt Nam, Phú Quốc mà không có trong ngữ cảnh, hãy cung cấp thông tin hữu ích dựa trên kiến thức chung
            - Đối với câu hỏi về APEC 2025 Korea mà không tìm thấy trong ngữ cảnh, hãy nói rõ ràng và gợi ý liên hệ ban tổ chức
            - Luôn trả lời một cách hữu ích và thân thiện
            - Trả lời bằng tiếng Việt

            Ngữ cảnh:
            "

  const VI_BEFORE_QUESTION: string := @"

            Câu hỏi: "

  const VI_CLOSING: string := @"

            Trả lời:"

  /** The English template: instructions, then the retrieved context, then
      the question. */
  const EN_TEMPLATE: string := EN_ROLE + EN_GUIDELINES + "{context}" + EN_BEFORE_QUESTION + "{question}" + EN_CLOSING

  const EN_ROLE: string := "You are an expert AI assistant specializing in APEC 2025 Korea information and related travel, cultural information about Vietnam."

  const EN_GUIDELINES: string := @"

            Instructions:
            - Prioritize using the provided context to answer questions accurately
            - When presenting table data, format it clearly and readably
            - Include specific details like dates, venues, and event names
            - If the context contains multiple relevant items, list them all
            - For questions about immigration procedures, visa, healthcare, Vietnamese culture, Phu Quoc that are not in the context, provide helpful information based on general knowledge
            - For APEC 2025 Korea specific questions not found in context, clearly state this and suggest contacting the organizers
            - Always respond helpfully and in a friendly manner
            - Maintain accuracy of all factual information

            Context:
            "

  const EN_BEFORE_QUESTION: string := @"

            Question: "

  const EN_CLOSING: string := @"

            Answer:"

  /** `get_language_specific_prompt(language)`: the Vietnamese template for
      "vi" and the English one for every other value, both declaring the
      variables context and question, which both templates use. */
  function LanguageSpecificPrompt(language: string): (r: PromptTemplate)
    ensures r.inputVariables == ["context", "question"]
    ensures r.template == VI_TEMPLATE <==> language == "vi"
    ensures r.template == VI_TEMPLATE || r.template == EN_TEMPLATE
    ensures Contains(r.template, "{context}") && Contains(r.template, "{question}")
  {
    TemplatesDiffer();
    TemplatesUsePlaceholders();
    if language == "vi" then PromptTemplate(VI_TEMPLATE, ["context", "question"])
    else PromptTemplate(EN_TEMPLATE, ["context", "question"])
  }

  /** The two templates differ: their closing words ("Trả lời:" and
      "Answer:") differ in their next-to-last character. */
  lemma TemplatesDiffer()
    ensures VI_TEMPLATE != EN_TEMPLATE
  {
    assert |VI_CLOSING| >= 2 && VI_CLOSING[|VI_CLOSING| - 2] == 'i';
    assert |EN_CLOSING| >= 2 && EN_CLOSING[|EN_CLOSING| - 2] == 'r';
    EndsWithClosing(VI_ROLE + VI_GUIDELINES + "{context}" + VI_BEFORE_QUESTION + "{question}", VI_CLOSING);
    EndsWithClosing(EN_ROLE + EN_GUIDELINES + "{context}" + EN_BEFORE_QUESTION + "{question}", EN_CLOSING);
  }

  /** The next-to-last character of a template is that of its closing. */
  lemma EndsWithClosing(body: string, closing: string)
    requires |closing| >= 2
    ensures |body + closing| >= 2
    ensures (body + closing)[|body + closing| - 2] == closing[|closing| - 2]
  {
  }

  /** Both templates contain both placeholders. */
  lemma TemplatesUsePlaceholders()
    ensures Contains(VI_TEMPLATE, "{context}") && Contains(VI_TEMPLATE, "{question}")
    ensures Contains(EN_TEMPLATE, "{context}") && Contains(EN_TEMPLATE, "{question}")
  {
    PlaceholdersIn(VI_ROLE + VI_GUIDELINES, VI_BEFORE_QUESTION, VI_CLOSING);
    PlaceholdersIn(EN_ROLE + EN_GUIDELINES, EN_BEFORE_QUESTION, EN_CLOSING);
  }

  lemma PlaceholdersIn(instructions: string, beforeQuestion: string, closing: string)
    ensures var t := instructions + "{context}" + beforeQuestion + "{question}" + closing;
      Contains(t, "{context}") && Contains(t, "{question}")
  {
    ContainsSuffix(instructions, "{context}");
    ContainsExtend(instructions + "{context}", beforeQuestion, "{context}");
    ContainsExtend(instructions + "{context}" + beforeQuestion, "{question}", "{context}");
    ContainsExtend(instructions + "{context}" + beforeQuestion + "{question}", closing, "{context}");
    ContainsSuffix(instructions + "{context}" + beforeQuestion, "{question}");
    ContainsExtend(instructions + "{context}" + beforeQuestion + "{question}", closing, "{question}");
  }

  // ---------------------------------------------------------------------
  // Retrieved documents and source records
  // ---------------------------------------------------------------------

  /** A metadata value as the vector store keeps it. */
  datatype MetaValue = Str(s: string) | Int(i: int) | Float(f: real) | Bool(b: bool)

  /** A retrieved chunk: its metadata map and its text. */
  datatype Document = Document(metadata: map<string, MetaValue>, pageContent: string)

  /** One entry of the response's `sources`. The metadata fields are copied
      as stored, whatever their type. */
  datatype SourceInfo = SourceInfo(title: MetaValue, url: MetaValue, containsTable: MetaValue,
                                   chunkLength: MetaValue, contentPreview: string)

  /** Python's `metadata.get(key, default)`. */
  function MetaGet(metadata: map<string, MetaValue>, key: string, default: MetaValue): (r: MetaValue)
    ensures key in metadata ==> r == metadata[key]
    ensures key !in metadata ==> r == default
  {
    if key in metadata then metadata[key] else default
  }

  /** The preview of a chunk: its first 200 characters followed by "..."
      when it is longer than 200 characters, the whole text otherwise. */
  function ContentPreview(content: string): (r: string)
    ensures |content| <= PREVIEW_LIMIT ==> r == content
    ensures |content| > PREVIEW_LIMIT ==> |r| == PREVIEW_LIMIT + |ELLIPSIS|
    ensures |content| > PREVIEW_LIMIT ==> r[..PREVIEW_LIMIT] == content[..PREVIEW_LIMIT] && r[PREVIEW_LIMIT..] == ELLIPSIS
  {
    if |content| > PREVIEW_LIMIT then content[..PREVIEW_LIMIT] + ELLIPSIS else content
  }

  /** A preview never exceeds 203 characters and always begins with as much
      of the content as fits in 200 characters. */
  lemma PreviewBounds(content: string)
    ensures |ContentPreview(content)| <= PREVIEW_LIMIT + |ELLIPSIS|
    ensures var n := if |content| < PREVIEW_LIMIT then |content| else PREVIEW_LIMIT;
      n <= |ContentPreview(content)| && ContentPreview(content)[..n] == content[..n]
  {
  }

  /** Previewing a preview changes nothing. */
  lemma PreviewIdempotent(content: string)
    ensures ContentPreview(ContentPreview(content)) == ContentPreview(content)
  {
    if |content| > PREVIEW_LIMIT {
      var p := ContentPreview(content);
      assert p[..PREVIEW_LIMIT] == content[..PREVIEW_LIMIT];
      assert ContentPreview(p) == p[..PREVIEW_LIMIT] + ELLIPSIS;
    }
  }

  /** The source record of one document: metadata with its defaults
      (title "Unknown", url "", contains_table false, chunk_length 0) and the
      content preview. */
  function SourceOf(doc: Document): (r: SourceInfo)
    ensures "title" in doc.metadata ==> r.title == doc.metadata["title"]
    ensures "title" !in doc.metadata ==> r.title == Str("Unknown")
    ensures "url" in doc.metadata ==> r.url == doc.metadata["url"]
    ensures "url" !in doc.metadata ==> r.url == Str("")
    ensures "contains_table" in doc.metadata ==> r.containsTable == doc.metadata["contains_table"]
    ensures "contains_table" !in doc.metadata ==> r.containsTable == Bool(false)
    ensures "chunk_length" in doc.metadata ==> r.chunkLength == doc.metadata["chunk_length"]
    ensures "chunk_length" !in doc.metadata ==> r.chunkLength == Int(0)
    ensures r.contentPreview == ContentPreview(doc.pageContent)
  {
    SourceInfo(
      MetaGet(doc.metadata, "title", Str("Unknown")),
      MetaGet(doc.metadata, "url", Str("")),
      MetaGet(doc.metadata, "contains_table", Bool(false)),
      MetaGet(doc.metadata, "chunk_length", Int(0)),
      ContentPreview(doc.pageContent))
  }

  // ---------------------------------------------------------------------
  // Query responses
  // ---------------------------------------------------------------------

  /** The dictionary `query` returns. */
  datatype QueryResponse = QueryResponse(answer: string, sources: seq<SourceInfo>,
                                         numSources: int, detectedLanguage: string)

  /** The retriever `vectorstore.as_retriever(search_type, search_kwargs={"k": k})`. */
  datatype Retriever = Retriever(store: VectorStore, searchType: string, k: int)

  /** Everything the RetrievalQA chain is built from and called with. */
  datatype ChainRequest = ChainRequest(llm: Option<Llm>, chainType: string, retriever: Retriever,
                                       prompt: PromptTemplate, returnSourceDocuments: bool,
                                       query: string)

  /** What the chain call returns: `result["result"]` and
      `result["source_documents"]`. */
  datatype ChainResult = ChainResult(result: string, sourceDocuments: seq<Document>)

  /** The response of the exception handler: an apology carrying `str(e)`,
      no sources, language "en". */
  ghost predicate IsFallback(r: QueryResponse, error: string)
  {
    r.answer == APOLOGY_PREFIX + error && r.sources == [] && r.numSources == 0 && r.detectedLanguage == "en"
  }

  /** What every response satisfies: the count matches the list and every
      preview is within 203 characters. */
  ghost predicate WellFormedResponse(r: QueryResponse)
  {
    r.numSources == |r.sources| &&
    forall i :: 0 <= i < |r.sources| ==> |r.sources[i].contentPreview| <= PREVIEW_LIMIT + |ELLIPSIS|
  }

  /** The language `query` answers in: the detector's verdict on the question
      when auto-detection is on, the caller's preference verbatim otherwise. */
  function QueryLanguage(question: string, autoDetect: bool, preferredLanguage: string,
                         identified: Option<string>): (r: string)
    ensures autoDetect ==> r == Utils.DetectLanguage(question, identified)
    ensures !autoDetect ==> r == preferredLanguage
  {
    if autoDetect then Utils.DetectLanguage(question, identified) else preferredLanguage
  }

  /** With auto-detection the language is always "vi" or "en"; "vi" is
      chosen exactly when the detector says so. */
  lemma AutoDetectedLanguage(question: string, preferredLanguage: string, identified: Option<string>)
    ensures var lang := QueryLanguage(question, true, preferredLanguage, identified);
      (lang == "vi" || lang == "en") && lang == Utils.DetectLanguage(question, identified)
  {
  }

  /** Without auto-detection the preference is not validated: any value is
      reported back unchanged, and every value but "vi" gets the English
      prompt. */
  lemma PreferredLanguageUnvalidated(question: string, preferredLanguage: string, identified: Option<string>)
    ensures QueryLanguage(question, false, preferredLanguage, identified) == preferredLanguage
    ensures preferredLanguage != "vi" ==>
      LanguageSpecificPrompt(QueryLanguage(question, false, preferredLanguage, identified)).template == EN_TEMPLATE
  {
  }

  // ---------------------------------------------------------------------
  // The chatbot object
  // ---------------------------------------------------------------------

  class APECChatbot {
    var apiKey: string
    var persistDirectory: string
    var vectorstore: Option<VectorStore>
    var llm: Option<Llm>
    var embeddingModel: Option<EmbeddingModel>
    var embeddings: Option<Embeddings>

    /** The field assignments of `__init__` that precede `setup_models`. */
    constructor (apiKey: string, persistDirectory: string := DEFAULT_PERSIST_DIRECTORY)
      ensures this.apiKey == apiKey && this.persistDirectory == persistDirectory
      ensures vectorstore == None && llm == None && embeddingModel == None && embeddings == None
      ensures !IsReady()
    {
      this.apiKey := apiKey;
      this.persistDirectory := persistDirectory;
      vectorstore := None;
      llm := None;
      embeddingModel := None;
      embeddings := None;
    }

    /** `APECChatbot(api_key, persist_directory)`: construct, then set the
        models up; the object is handed out only if set-up succeeded, and
        then it is ready. */
    static method Create(apiKey: string, env: SetupEnv, persistDirectory: string := DEFAULT_PERSIST_DIRECTORY)
      returns (r: Result<APECChatbot, string>)
      ensures r.Success? <==> SetupFailure(env).None?
      ensures r.Failure? ==> r.error == INIT_ERROR_PREFIX + SetupFailure(env).value
      ensures r.Success? ==> fresh(r.value) && r.value.IsReady()
      ensures r.Success? ==> r.value.apiKey == apiKey && r.value.persistDirectory == persistDirectory
      ensures r.Success? ==>
        r.value.embeddingModel == Some(SentenceTransformer(EMBEDDING_MODEL_NAME)) &&
        r.value.embeddings == Some(SentenceTransformerEmbeddings(EMBEDDING_MODEL_NAME)) &&
        r.value.vectorstore == Some(Chroma(persistDirectory, SentenceTransformerEmbeddings(EMBEDDING_MODEL_NAME))) &&
        r.value.llm == Some(ChatGoogleGenerativeAI(GEMINI_MODEL, GEMINI_TEMPERATURE, true, apiKey))
    {
      var bot := new APECChatbot(apiKey, persistDirectory);
      var error := bot.SetupModels(env);
      if error.Some? {
        r := Failure(error.value);
      } else {
        r := Success(bot);
      }
    }

    /** `setup_models()`: load the embedding model, wrap it, open the store
        when its directory exists and is not empty, create the Gemini client.
        Each field is assigned as its step completes; the first failure
        stops the sequence and is reported with the set-up prefix. */
    method SetupModels(env: SetupEnv) returns (error: Option<string>)
      modifies this
      ensures apiKey == old(apiKey) && persistDirectory == old(persistDirectory)
      ensures error.None? <==> SetupFailure(env).None?
      ensures error.Some? ==> error.value == INIT_ERROR_PREFIX + SetupFailure(env).value
      ensures embeddingModel ==
        if StepsCompleted(env) >= 1 then Some(SentenceTransformer(EMBEDDING_MODEL_NAME)) else old(embeddingModel)
      ensures embeddings ==
        if StepsCompleted(env) >= 2 then Some(SentenceTransformerEmbeddings(EMBEDDING_MODEL_NAME)) else old(embeddings)
      ensures vectorstore ==
        if StepsCompleted(env) >= 3
        then Some(Chroma(persistDirectory, SentenceTransformerEmbeddings(EMBEDDING_MODEL_NAME)))
        else old(vectorstore)
      ensures llm ==
        if StepsCompleted(env) == 4
        then Some(ChatGoogleGenerativeAI(GEMINI_MODEL, GEMINI_TEMPERATURE, true, apiKey))
        else old(llm)
      ensures error.None? ==> IsReady()
    {
      if env.embeddingModel.Raises? {
        return Some(INIT_ERROR_PREFIX + env.embeddingModel.message);
      }
      embeddingModel := Some(SentenceTransformer(EMBEDDING_MODEL_NAME));
      if env.embeddings.Raises? {
        return Some(INIT_ERROR_PREFIX + env.embeddings.message);
      }
      var wrapper := SentenceTransformerEmbeddings(EMBEDDING_MODEL_NAME);
      embeddings := Some(wrapper);
      match env.storeDirectory {
        case Missing =>
          return Some(INIT_ERROR_PREFIX + STORE_NOT_FOUND);
        case Unlistable(m) =>
          return Some(INIT_ERROR_PREFIX + m);
        case Listing(entries) =>
          if entries == [] {
            return Some(INIT_ERROR_PREFIX + STORE_NOT_FOUND);
          }
      }
      if env.chroma.Raises? {
        return Some(INIT_ERROR_PREFIX + env.chroma.message);
      }
      vectorstore := Some(Chroma(persistDirectory, wrapper));
      if env.llm.Raises? {
        return Some(INIT_ERROR_PREFIX + env.llm.message);
      }
      llm := Some(ChatGoogleGenerativeAI(GEMINI_MODEL, GEMINI_TEMPERATURE, true, apiKey));
      return None;
    }

    /** `is_ready()`: `all` of the four components being set. */
    function IsReady(): (r: bool)
      reads this
      ensures r <==> vectorstore.Some? && llm.Some? && embeddingModel.Some? && embeddings.Some?
    {
      var checks := [vectorstore.Some?, llm.Some?, embeddingModel.Some?, embeddings.Some?];
      assert checks[0] && checks[1] && checks[2] && checks[3] ==> forall i :: 0 <= i < 4 ==> checks[i];
      All(checks)
    }

    /** `get_collection_count()`. `counted` is what counting the store's
        collection returned, or the exception it raised; it is only asked
        for when there is a store. */
    function CollectionCount(counted: Result<nat, string>): (n: nat)
      reads this
      ensures vectorstore.None? ==> n == 0
      ensures counted.Failure? ==> n == 0
      ensures n != 0 ==> vectorstore.Some? && counted == Success(n)
      ensures vectorstore.Some? && counted.Success? ==> n == counted.value
    {
      if vectorstore.Some? then
        match counted
        case Success(c) => c
        case Failure(_) => 0
      else 0
    }

    /** `query(question, top_k, auto_detect, preferred_language, **kwargs)`.
        `searchType` is the optional `search_type` keyword argument,
        `identified` what the language identifier returns for the question
        (None if it raises), and `chain` the RetrievalQA chain: built from
        and called with a request, it returns a result or raises. Whatever
        happens, a response comes back. */
    method Query(question: string, identified: Option<string>,
                 chain: ChainRequest -> Result<ChainResult, string>,
                 topK: int := 5, autoDetect: bool := true, preferredLanguage: string := "vi",
                 searchType: Option<string> := None)
      returns (r: QueryResponse)
      ensures WellFormedResponse(r)
      ensures autoDetect ==> r.detectedLanguage == "vi" || r.detectedLanguage == "en"
      ensures vectorstore.None? ==> IsFallback(r, NO_RETRIEVER_ERROR)
      ensures vectorstore.Some? ==>
        var lang := QueryLanguage(question, autoDetect, preferredLanguage, identified);
        var request := ChainRequest(llm, CHAIN_TYPE,
                                    Retriever(vectorstore.value, searchType.GetOr(DEFAULT_SEARCH_TYPE), topK),
                                    LanguageSpecificPrompt(lang), true, RETRIEVAL_PREFIX + question);
        match chain(request)
        case Failure(e) => IsFallback(r, e)
        case Success(res) =>
          r.answer == res.result && r.detectedLanguage == lang &&
          |r.sources| == |res.sourceDocuments| &&
          forall i :: 0 <= i < |r.sources| ==> r.sources[i] == SourceOf(res.sourceDocuments[i])
    {
      var detectedLanguage := QueryLanguage(question, autoDetect, preferredLanguage, identified);
      var languagePrompt := LanguageSpecificPrompt(detectedLanguage);
      if vectorstore.None? {
        return QueryResponse(APOLOGY_PREFIX + NO_RETRIEVER_ERROR, [], 0, "en");
      }
      var retriever := Retriever(vectorstore.value, searchType.GetOr(DEFAULT_SEARCH_TYPE), topK);
      var searchQuestion := RETRIEVAL_PREFIX + question;
      var outcome := chain(ChainRequest(llm, CHAIN_TYPE, retriever, languagePrompt, true, searchQuestion));
      if outcome.Failure? {
        return QueryResponse(APOLOGY_PREFIX + outcome.error, [], 0, "en");
      }
      var docs := outcome.value.sourceDocuments;
      var sources: seq<SourceInfo> := [];
      for i := 0 to |docs|
        invariant |sources| == i
        invariant forall j :: 0 <= j < i ==> sources[j] == SourceOf(docs[j])
        invariant forall j :: 0 <= j < i ==> |sources[j].contentPreview| <= PREVIEW_LIMIT + |ELLIPSIS|
      {
        var sourceInfo := SourceOf(docs[i]);
        sources := sources + [sourceInfo];
      }
      r := QueryResponse(outcome.value.result, sources, |sources|, detectedLanguage);
    }
  }
}
