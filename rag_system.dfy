/**
 * The retrieval-augmented question answering wrapper `FarmAIRAG`
 * (src/rag_system.py): building the chunk records and the chain, and
 * answering a question with its sources. The splitter, the embeddings, the
 * vector store and the chain are the uninterpreted calls of `Backend`.
 */
module RagSystem {
  import opened Wrappers
  import opened Documents
  import opened LangChain

  const DefaultTitle := "Agricultural Guide"
  const DefaultCategory := "General"
  const NoAnswer := "No answer found."
  const NotInitialized := "Knowledge base not initialized"

  /** The in-band answer `query` gives when anything raised. */
  function Apology(message: string): string
  {
    "I apologize, but I encountered an error: " + message
  }

  // ---------------------------------------------------------------------------
  // Chunk records
  // ---------------------------------------------------------------------------

  /**
   * The metadata every chunk of a document carries: its title and category,
   * or the defaults when the document has none.
   */
  function ChunkMetadata(doc: Document): (m: map<string, string>)
    ensures m.Keys == {"title", "category"}
    ensures m["title"] == (if "title" in doc then doc["title"] else "Agricultural Guide")
    ensures m["category"] == (if "category" in doc then doc["category"] else "General")
  {
    map["title" := Get(doc, "title", DefaultTitle), "category" := Get(doc, "category", DefaultCategory)]
  }

  /** One record per chunk, all with the same metadata. */
  function Tag(chunks: seq<string>, metadata: map<string, string>): seq<LcDocument>
  {
    seq(|chunks|, i requires 0 <= i < |chunks| => LcDocument(chunks[i], metadata))
  }

  /**
   * The records one document yields; `None` when `doc['content']` raises
   * (no such key) or the splitter raises.
   */
  function DocumentChunks(doc: Document, split: (SplitterConfig, string) -> Option<seq<string>>,
                          config: SplitterConfig): Option<seq<LcDocument>>
  {
    if "content" !in doc then None
    else match split(config, doc["content"])
      case None => None
      case Some(chunks) => Some(Tag(chunks, ChunkMetadata(doc)))
  }

  /** The records the two nested loops of the build gather, document by document. */
  function ChunkRecords(documents: seq<Document>, split: (SplitterConfig, string) -> Option<seq<string>>,
                        config: SplitterConfig): Option<seq<LcDocument>>
  {
    if documents == [] then Some([])
    else
      match ChunkRecords(documents[..|documents| - 1], split, config)
      case None => None
      case Some(records) =>
        match DocumentChunks(documents[|documents| - 1], split, config)
        case None => None
        case Some(chunks) => Some(records + chunks)
  }

  /** The document has a `content` key and the splitter accepts that content. */
  predicate Splittable(doc: Document, split: (SplitterConfig, string) -> Option<seq<string>>,
                       config: SplitterConfig)
  {
    "content" in doc && split(config, doc["content"]).Some?
  }

  /**
   * Flattening succeeds exactly when every document has a `content` key and
   * the splitter accepts every content: no document is filtered out first.
   */
  lemma {:induction false} ChunkRecordsSucceedIff(documents: seq<Document>,
                                                  split: (SplitterConfig, string) -> Option<seq<string>>,
                                                  config: SplitterConfig)
    ensures ChunkRecords(documents, split, config).Some?
        <==> forall i | 0 <= i < |documents| :: Splittable(documents[i], split, config)
  {
    if documents != [] {
      var n := |documents| - 1;
      var init := documents[..n];
      ChunkRecordsSucceedIff(init, split, config);
      assert ChunkRecords(documents, split, config).Some?
          <==> ChunkRecords(init, split, config).Some? && Splittable(documents[n], split, config);
      assert (forall i | 0 <= i < |documents| :: Splittable(documents[i], split, config))
          <==> (forall i | 0 <= i < |init| :: Splittable(init[i], split, config))
               && Splittable(documents[n], split, config)
      by {
        forall i | 0 <= i < |init| ensures init[i] == documents[i] { }
      }
    }
  }

  /** Flattening a concatenation of document lists concatenates their records. */
  lemma {:induction false} ChunkRecordsAppend(a: seq<Document>, b: seq<Document>,
                                              split: (SplitterConfig, string) -> Option<seq<string>>,
                                              config: SplitterConfig)
    ensures ChunkRecords(a + b, split, config).Some?
        <==> ChunkRecords(a, split, config).Some? && ChunkRecords(b, split, config).Some?
    ensures ChunkRecords(a + b, split, config).Some? ==>
              ChunkRecords(a + b, split, config).value
              == ChunkRecords(a, split, config).value + ChunkRecords(b, split, config).value
    decreases |b|
  {
    if b == [] {
      assert a + b == a;
    } else {
      var init := b[..|b| - 1];
      ChunkRecordsAppend(a, init, split, config);
      assert (a + b)[..|a + b| - 1] == a + init;
      assert (a + b)[|a + b| - 1] == b[|b| - 1];
    }
  }

  /**
   * Every record is one chunk of one document, tagged with that document's
   * own metadata.
   */
  lemma {:induction false} ChunkRecordsTagged(documents: seq<Document>,
                                              split: (SplitterConfig, string) -> Option<seq<string>>,
                                              config: SplitterConfig, k: nat)
    requires ChunkRecords(documents, split, config).Some?
    requires k < |ChunkRecords(documents, split, config).value|
    ensures exists i | 0 <= i < |documents| ::
              && "content" in documents[i]
              && split(config, documents[i]["content"]).Some?
              && ChunkRecords(documents, split, config).value[k].pageContent
                 in split(config, documents[i]["content"]).value
              && ChunkRecords(documents, split, config).value[k].metadata == ChunkMetadata(documents[i])
  {
    var n := |documents| - 1;
    var init := documents[..n];
    var records := ChunkRecords(init, split, config).value;
    var doc := documents[n];
    if k < |records| {
      ChunkRecordsTagged(init, split, config, k);
      var i :| 0 <= i < |init| && "content" in init[i] && split(config, init[i]["content"]).Some?
               && records[k].pageContent in split(config, init[i]["content"]).value
               && records[k].metadata == ChunkMetadata(init[i]);
      assert init[i] == documents[i];
    } else {
      var chunks := split(config, doc["content"]).value;
      assert ChunkRecords(documents, split, config).value[k] == LcDocument(chunks[k - |records|], ChunkMetadata(doc));
    }
  }

  /** The source record `query` makes of a returned document. */
  datatype Source = Source(content: string, title: string, category: string)

  /** The dictionary `query` returns. */
  datatype RagResponse = RagResponse(response: string, sources: seq<Source>)

  /** The source record of one returned document, with the same defaults as the chunk metadata. */
  function SourceOf(doc: LcDocument): Source
  {
    Source(doc.pageContent, Get(doc.metadata, "title", DefaultTitle), Get(doc.metadata, "category", DefaultCategory))
  }

  /**
   * A chunk built from a document comes back as a source naming that
   * document's title and category, or the same defaults the build used.
   */
  lemma SourceOfChunk(doc: Document, chunk: string)
    ensures SourceOf(LcDocument(chunk, ChunkMetadata(doc)))
         == Source(chunk, Get(doc, "title", "Agricultural Guide"), Get(doc, "category", "General"))
  {
  }

  // ---------------------------------------------------------------------------
  // The external objects the build creates
  // ---------------------------------------------------------------------------

  function RagEmbeddings(apiKey: string): Embeddings
  {
    Embeddings("text-embedding-ada-002", apiKey, None)
  }

  function RagLlm(apiKey: string): Llm
  {
    Llm("gpt-3.5-turbo", 0.1, 512, apiKey, None)
  }

  function RagChain(apiKey: string, store: VectorStore): QaChain
  {
    QaChain(RagLlm(apiKey), "stuff", store, true)
  }

  /** The vector store a build assigns, if it gets that far. */
  function IndexedStore(apiKey: string, config: SplitterConfig, documents: seq<Document>,
                        backend: Backend): Option<VectorStore>
  {
    var embeddings := RagEmbeddings(apiKey);
    if !backend.embeddingsAccepted(embeddings) then None
    else match ChunkRecords(documents, backend.splitText, config)
      case None => None
      case Some(records) =>
        if backend.indexBuilt(records, embeddings) then Some(VectorStore(records, embeddings)) else None
  }

  /** The chain a build assigns, if every step succeeds. */
  function BuiltChain(apiKey: string, config: SplitterConfig, documents: seq<Document>,
                      backend: Backend): Option<QaChain>
  {
    match IndexedStore(apiKey, config, documents, backend)
    case None => None
    case Some(store) =>
      if backend.llmAccepted(RagLlm(apiKey)) && backend.chainAccepted(RagChain(apiKey, store))
      then Some(RagChain(apiKey, store)) else None
  }

  /**
   * A build never succeeds while some document lacks `content`, and a
   * successful build indexes exactly the flattened chunk records.
   */
  lemma BuiltChainIndexesChunks(apiKey: string, config: SplitterConfig, documents: seq<Document>,
                                backend: Backend)
    ensures (exists i | 0 <= i < |documents| :: "content" !in documents[i]) ==>
              BuiltChain(apiKey, config, documents, backend) == None
    ensures BuiltChain(apiKey, config, documents, backend).Some? ==>
              && ChunkRecords(documents, backend.splitText, config).Some?
              && BuiltChain(apiKey, config, documents, backend).value.store.documents
                 == ChunkRecords(documents, backend.splitText, config).value
              && BuiltChain(apiKey, config, documents, backend).value.returnSourceDocuments
  {
    ChunkRecordsSucceedIff(documents, backend.splitText, config);
  }

  // ---------------------------------------------------------------------------
  // The wrapper object
  // ---------------------------------------------------------------------------

  /** `FarmAIRAG`: unready until a build assigns `qaChain`. */
  class FarmAIRag {
    const apiKey: string
    const textSplitter: SplitterConfig
    var embeddings: Option<Embeddings>
    var vectorstore: Option<VectorStore>
    var qaChain: Option<QaChain>

    /** A fresh wrapper has no embeddings, no store and no chain. */
    constructor (apiKey: string)
      ensures this.apiKey == apiKey
      ensures textSplitter == SplitterConfig(1000, 200)
      ensures embeddings == None && vectorstore == None && qaChain == None
    {
      this.apiKey := apiKey;
      textSplitter := SplitterConfig(1000, 200);
      embeddings, vectorstore, qaChain := None, None, None;
    }

    /** The object answers questions only once a chain is assigned. */
    predicate Ready()
      reads this
    {
      qaChain.Some?
    }

    /**
     * `build_knowledge_base`: each field is assigned as soon as its step
     * succeeds, so a failure leaves the later ones as they were; `true` is
     * returned only once the chain is assigned.
     */
    method BuildKnowledgeBase(documents: seq<Document>, backend: Backend) returns (ok: bool)
      modifies this
      ensures embeddings == if backend.embeddingsAccepted(RagEmbeddings(apiKey))
                            then Some(RagEmbeddings(apiKey)) else old(embeddings)
      ensures vectorstore == if IndexedStore(apiKey, textSplitter, documents, backend).Some?
                             then IndexedStore(apiKey, textSplitter, documents, backend) else old(vectorstore)
      ensures ok <==> BuiltChain(apiKey, textSplitter, documents, backend).Some?
      ensures qaChain == if ok then BuiltChain(apiKey, textSplitter, documents, backend) else old(qaChain)
      ensures ok ==> Ready()
    {
      var emb := RagEmbeddings(apiKey);
      if !backend.embeddingsAccepted(emb) {
        return false;
      }
      embeddings := Some(emb);

      var langchainDocs: seq<LcDocument> := [];
      var i := 0;
      while i < |documents|
        invariant 0 <= i <= |documents|
        invariant ChunkRecords(documents[..i], backend.splitText, textSplitter) == Some(langchainDocs)
        invariant embeddings == Some(emb) && vectorstore == old(vectorstore) && qaChain == old(qaChain)
      {
        var doc := documents[i];
        assert documents[..i + 1][..i] == documents[..i];
        if "content" !in doc {
          ChunkRecordsSucceedIff(documents, backend.splitText, textSplitter);
          return false;
        }
        var split := backend.splitText(textSplitter, doc["content"]);
        if split.None? {
          ChunkRecordsSucceedIff(documents, backend.splitText, textSplitter);
          return false;
        }
        var chunks := split.value;
        var metadata := ChunkMetadata(doc);
        ghost var gathered := langchainDocs;
        for j := 0 to |chunks|
          invariant langchainDocs == gathered + Tag(chunks[..j], metadata)
        {
          assert Tag(chunks[..j + 1], metadata) == Tag(chunks[..j], metadata) + [LcDocument(chunks[j], metadata)];
          langchainDocs := langchainDocs + [LcDocument(chunks[j], metadata)];
        }
        assert chunks[..|chunks|] == chunks;
        i := i + 1;
      }
      assert documents[..|documents|] == documents;

      if !backend.indexBuilt(langchainDocs, emb) {
        return false;
      }
      vectorstore := Some(VectorStore(langchainDocs, emb));
      var llm := RagLlm(apiKey);
      if !backend.llmAccepted(llm) {
        return false;
      }
      var chain := QaChain(llm, "stuff", vectorstore.value, true);
      if !backend.chainAccepted(chain) {
        return false;
      }
      qaChain := Some(chain);
      return true;
    }

    /**
     * `query`: before a successful build, or when the chain raises, an
     * apology with no sources; otherwise the chain's answer (or a default)
     * and one source per returned document, in order. It never raises.
     */
    method Query(question: string, backend: Backend) returns (r: RagResponse)
      ensures qaChain.None? ==> r == RagResponse(Apology("Knowledge base not initialized"), [])
      ensures qaChain.Some? && backend.invoke(qaChain.value, question).Raised? ==>
                r == RagResponse(Apology(backend.invoke(qaChain.value, question).message), [])
      ensures qaChain.Some? && backend.invoke(qaChain.value, question).Returned? ==>
                var result := backend.invoke(qaChain.value, question).value;
                && r.response == (if result.result.Some? then result.result.value else "No answer found.")
                && (result.sourceDocuments.None? ==> r.sources == [])
                && (result.sourceDocuments.Some? ==>
                      var docs := result.sourceDocuments.value;
                      && |r.sources| == |docs|
                      && forall k | 0 <= k < |docs| ::
                           && r.sources[k].content == docs[k].pageContent
                           && r.sources[k].title == Get(docs[k].metadata, "title", "Agricultural Guide")
                           && r.sources[k].category == Get(docs[k].metadata, "category", "General"))
    {
      if qaChain.None? {
        return RagResponse(Apology(NotInitialized), []);
      }
      var outcome := backend.invoke(qaChain.value, question);
      if outcome.Raised? {
        return RagResponse(Apology(outcome.message), []);
      }
      var result := outcome.value;
      var sources: seq<Source> := [];
      if result.sourceDocuments.Some? {
        var docs := result.sourceDocuments.value;
        for i := 0 to |docs|
          invariant |sources| == i
          invariant forall k | 0 <= k < i :: sources[k] == SourceOf(docs[k])
        {
          sources := sources + [SourceOf(docs[i])];
        }
      }
      r := RagResponse(if result.result.Some? then result.result.value else NoAnswer, sources);
    }
  }
}
