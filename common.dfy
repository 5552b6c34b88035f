/** An optional value, standing for Python's `None` versus a present value. */
module Wrappers {

  datatype Option<+T> = None | Some(value: T)
}

/**
 * Knowledge documents as the Python code handles them: dictionaries from
 * string keys to string values.
 */
module Documents {

  /** A knowledge document (`Dict[str, Any]` in the source, with string values). */
  type Document = map<string, string>

  /** Python's `d.get(key, default)`: the stored value when the key is present. */
  function Get(doc: map<string, string>, key: string, default: string): string
  {
    if key in doc then doc[key] else default
  }

  /**
   * A literal knowledge document with the five keys the built-in lists use.
   * The long texts of the literals are abbreviated to their first line.
   */
  function Literal(title: string, content: string, source: string, category: string, crop: string): Document
  {
    map["title" := title, "content" := content, "source" := source, "category" := category, "crop" := crop]
  }
}

/**
 * The values the LangChain library hands back and the calls into it, which
 * are not part of this model: every constructor that may raise is a
 * predicate of `Backend` saying whether it succeeds, the text splitter is a
 * function that may fail (`None`), and invoking a chain either raises with a
 * message or returns a result dictionary.
 */
module LangChain {
  import opened Wrappers

  /** `langchain.docstore.document.Document`: page content plus a metadata dictionary. */
  datatype LcDocument = LcDocument(pageContent: string, metadata: map<string, string>)

  /** The settings of a `RecursiveCharacterTextSplitter`. */
  datatype SplitterConfig = SplitterConfig(chunkSize: nat, chunkOverlap: nat)

  /** `OpenAIEmbeddings(model=..., openai_api_key=..., openai_api_base=...)`. */
  datatype Embeddings = Embeddings(model: string, apiKey: string, apiBase: Option<string>)

  /** `FAISS.from_documents(documents, embeddings)`: the store records what it indexed. */
  datatype VectorStore = VectorStore(documents: seq<LcDocument>, embeddings: Embeddings)

  /** `OpenAI(temperature=..., model=..., max_tokens=..., ...)`. */
  datatype Llm = Llm(model: string, temperature: real, maxTokens: nat, apiKey: string, apiBase: Option<string>)

  /** `RetrievalQA.from_chain_type(llm, chain_type, retriever=store.as_retriever(), ...)`. */
  datatype QaChain = QaChain(llm: Llm, chainType: string, store: VectorStore, returnSourceDocuments: bool)

  /**
   * The dictionary `qa_chain.invoke` returns: the `"result"` and
   * `"source_documents"` keys, each possibly absent.
   */
  datatype ChainResult = ChainResult(result: Option<string>, sourceDocuments: Option<seq<LcDocument>>)

  /** The outcome of `qa_chain.invoke(question)`: an exception with its message, or a result. */
  datatype Invocation = Raised(message: string) | Returned(value: ChainResult)

  /**
   * The behaviour of the external services, left uninterpreted: whether each
   * constructor accepts its arguments, what the splitter makes of a text
   * (`None` when it raises), whether the index can be built, and what a
   * chain answers to a question.
   */
  datatype Backend = Backend(
    embeddingsAccepted: Embeddings -> bool,
    splitText: (SplitterConfig, string) -> Option<seq<string>>,
    indexBuilt: (seq<LcDocument>, Embeddings) -> bool,
    llmAccepted: Llm -> bool,
    chainAccepted: QaChain -> bool,
    invoke: (QaChain, string) -> Invocation)
}
