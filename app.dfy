/**
 * The simplified variant of the assistant in app.py: its own two built-in
 * documents, the `FarmAISystem` wrapper (no splitting, a single string as
 * the answer) and the API-key guard of `initialize_system`. The Streamlit
 * page is not part of this model.
 */
module App {
  import opened Wrappers
  import opened Documents
  import opened LangChain
  import RagSystem

  const BaseUrl := "https://api.chatanywhere.org/v1"
  const NotReady := "The system is not ready. Please check the logs."
  const NoAnswer := "Sorry, I couldn't find an answer."
  const ErrorPrefix := "An error occurred: "

  /** `load_agricultural_data` of app.py: two documents, each with a title and content. */
  function LoadAgriculturalData(): (docs: seq<Document>)
    ensures |docs| == 2
    ensures forall i | 0 <= i < |docs| :: "title" in docs[i] && "content" in docs[i]
  {
    [
      Literal("Tomato Disease Management Guide", "Common Tomato Diseases and Management:",
                "Agricultural Extension Service", "disease_management", "tomato"),
      Literal("Rice Cultivation Best Practices", "Rice Cultivation Guidelines:",
                "Rice Research Institute", "crop_management", "rice")
    ]
  }

  /**
   * The list comprehension of the build: one record per document with its
   * whole content and only a title (empty when absent); `None` when
   * `doc['content']` raises for some document.
   */
  function AppRecords(documents: seq<Document>): (r: Option<seq<LcDocument>>)
    ensures r.Some? <==> forall i | 0 <= i < |documents| :: "content" in documents[i]
    ensures r.Some? ==> |r.value| == |documents|
    ensures r.Some? ==> forall i | 0 <= i < |documents| ::
              && r.value[i].pageContent == documents[i]["content"]
              && r.value[i].metadata == map["title" := if "title" in documents[i] then documents[i]["title"] else ""]
  {
    if forall i | 0 <= i < |documents| :: "content" in documents[i] then
      Some(seq(|documents|, i requires 0 <= i < |documents| && "content" in documents[i] =>
                              LcDocument(documents[i]["content"], map["title" := Get(documents[i], "title", "")])))
    else None
  }

  /** The whole content as its only chunk: a splitter that never splits. */
  function Unsplit(config: SplitterConfig, text: string): Option<seq<string>>
  {
    Some([text])
  }

  /** With a splitter that never splits, flattening gives one tagged record per document. */
  lemma {:induction false} UnsplitChunkRecords(documents: seq<Document>, config: SplitterConfig)
    ensures RagSystem.ChunkRecords(documents, Unsplit, config).Some?
        <==> forall i | 0 <= i < |documents| :: "content" in documents[i]
    ensures RagSystem.ChunkRecords(documents, Unsplit, config).Some? ==>
              && |RagSystem.ChunkRecords(documents, Unsplit, config).value| == |documents|
              && forall i | 0 <= i < |documents| ::
                   RagSystem.ChunkRecords(documents, Unsplit, config).value[i]
                   == LcDocument(documents[i]["content"], RagSystem.ChunkMetadata(documents[i]))
  {
    if documents != [] {
      var n := |documents| - 1;
      var init := documents[..n];
      UnsplitChunkRecords(init, config);
      forall i | 0 <= i < |init| ensures init[i] == documents[i] { }
      var rag := RagSystem.ChunkRecords(documents, Unsplit, config);
      if rag.Some? {
        var before := RagSystem.ChunkRecords(init, Unsplit, config).value;
        var doc := documents[n];
        assert rag.value == before + [LcDocument(doc["content"], RagSystem.ChunkMetadata(doc))];
      }
    }
  }

  /**
   * The records of this variant are those `FarmAIRAG` would build with a
   * splitter that never splits: same success condition, one record per
   * document, same contents, and the same title whenever the document has
   * one. Only the title default and the category differ.
   */
  lemma AppRecordsAreUnsplitChunks(documents: seq<Document>, config: SplitterConfig)
    ensures RagSystem.ChunkRecords(documents, Unsplit, config).Some? <==> AppRecords(documents).Some?
    ensures RagSystem.ChunkRecords(documents, Unsplit, config).Some? ==>
              && |RagSystem.ChunkRecords(documents, Unsplit, config).value| == |documents|
              && forall i | 0 <= i < |documents| ::
                   var rag := RagSystem.ChunkRecords(documents, Unsplit, config).value[i];
                   && rag.pageContent == AppRecords(documents).value[i].pageContent
                   && "title" in rag.metadata
                   && ("title" in documents[i] ==> rag.metadata["title"] == AppRecords(documents).value[i].metadata["title"])
  {
    UnsplitChunkRecords(documents, config);
  }

  function AppEmbeddings(apiKey: string, baseUrl: string): Embeddings
  {
    Embeddings("text-embedding-ada-002", apiKey, Some(baseUrl))
  }

  function AppLlm(apiKey: string, baseUrl: string): Llm
  {
    Llm("gpt-3.5-turbo", 0.1, 512, apiKey, Some(baseUrl))
  }

  /** The chain a build of this variant assigns, if every step succeeds. */
  function AppChain(apiKey: string, baseUrl: string, documents: seq<Document>, backend: Backend): Option<QaChain>
  {
    var embeddings := AppEmbeddings(apiKey, baseUrl);
    if !backend.embeddingsAccepted(embeddings) then None
    else match AppRecords(documents)
      case None => None
      case Some(records) =>
        var store := VectorStore(records, embeddings);
        var chain := QaChain(AppLlm(apiKey, baseUrl), "stuff", store, false);
        if backend.indexBuilt(records, embeddings) && backend.llmAccepted(AppLlm(apiKey, baseUrl))
           && backend.chainAccepted(chain)
        then Some(chain) else None
  }

  /** The configured text splitter plays no part in the build. */
  lemma AppChainIgnoresSplitter(apiKey: string, baseUrl: string, documents: seq<Document>, backend: Backend,
                                split: (SplitterConfig, string) -> Option<seq<string>>)
    ensures AppChain(apiKey, baseUrl, documents, backend.(splitText := split))
         == AppChain(apiKey, baseUrl, documents, backend)
  {
  }

  /** `FarmAISystem`: unready until a build assigns `qaChain`. */
  class FarmAISystem {
    const apiKey: string
    const baseUrl: string
    const textSplitter: SplitterConfig
    var qaChain: Option<QaChain>

    /** A fresh system has no chain. */
    constructor (apiKey: string, baseUrl: string)
      ensures this.apiKey == apiKey && this.baseUrl == baseUrl
      ensures textSplitter == SplitterConfig(1000, 200)
      ensures qaChain == None
    {
      this.apiKey := apiKey;
      this.baseUrl := baseUrl;
      textSplitter := SplitterConfig(1000, 200);
      qaChain := None;
    }

    /**
     * `build_knowledge_base`: one unsplit record per document; `true` only
     * once the chain is assigned, and any failure leaves the chain as it was.
     */
    method BuildKnowledgeBase(documents: seq<Document>, backend: Backend) returns (ok: bool)
      modifies this
      ensures ok <==> AppChain(apiKey, baseUrl, documents, backend).Some?
      ensures qaChain == if ok then AppChain(apiKey, baseUrl, documents, backend) else old(qaChain)
      ensures ok ==> qaChain.Some? && qaChain.value.store.documents == AppRecords(documents).value
    {
      var embeddings := AppEmbeddings(apiKey, baseUrl);
      if !backend.embeddingsAccepted(embeddings) {
        return false;
      }
      var langchainDocs := AppRecords(documents);
      if langchainDocs.None? {
        return false;
      }
      if !backend.indexBuilt(langchainDocs.value, embeddings) {
        return false;
      }
      var vectorstore := VectorStore(langchainDocs.value, embeddings);
      var llm := AppLlm(apiKey, baseUrl);
      if !backend.llmAccepted(llm) {
        return false;
      }
      var chain := QaChain(llm, "stuff", vectorstore, false);
      if !backend.chainAccepted(chain) {
        return false;
      }
      qaChain := Some(chain);
      return true;
    }

    /**
     * `query`: the not-ready message without a chain; otherwise the chain's
     * answer, a default when it has none, or the error text when it raises.
     */
    method Query(question: string, backend: Backend) returns (answer: string)
      ensures qaChain.None? ==> answer == "The system is not ready. Please check the logs."
      ensures qaChain.Some? && backend.invoke(qaChain.value, question).Raised? ==>
                answer == "An error occurred: " + backend.invoke(qaChain.value, question).message
      ensures qaChain.Some? && backend.invoke(qaChain.value, question).Returned? ==>
                var result := backend.invoke(qaChain.value, question).value;
                answer == if result.result.Some? then result.result.value else "Sorry, I couldn't find an answer."
    {
      if qaChain.None? {
        return NotReady;
      }
      var outcome := backend.invoke(qaChain.value, question);
      match outcome {
        case Raised(message) =>
          answer := ErrorPrefix + message;
        case Returned(result) =>
          answer := if result.result.Some? then result.result.value else NoAnswer;
      }
    }
  }

  /**
   * `initialize_system`: without a key (absent or empty) nothing is loaded
   * or built; otherwise a new system is built from the two built-in
   * documents and the build's verdict is returned with it.
   */
  method InitializeSystem(secret: Option<string>, backend: Backend) returns (system: FarmAISystem?, success: bool)
    ensures (secret.None? || secret.value == "") ==> system == null && !success
    ensures secret.Some? && secret.value != "" ==>
              && system != null && fresh(system)
              && system.apiKey == secret.value && system.baseUrl == BaseUrl
              && success == AppChain(secret.value, BaseUrl, LoadAgriculturalData(), backend).Some?
              && system.qaChain == AppChain(secret.value, BaseUrl, LoadAgriculturalData(), backend)
  {
    if secret.None? || secret.value == "" {
      return null, false;
    }
    var documents := LoadAgriculturalData();
    system := new FarmAISystem(secret.value, BaseUrl);
    success := system.BuildKnowledgeBase(documents, backend);
  }
}
