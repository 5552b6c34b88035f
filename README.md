# FarmAI knowledge assistant: a verified model of its document handling and RAG wrappers

FarmAI answers farming questions by retrieval-augmented generation. It embeds a
set of agricultural knowledge documents into a FAISS vector store and hands
questions to a LangChain `RetrievalQA` chain. The repository is mostly glue
between Streamlit, LangChain and OpenAI. This project models the parts that are
its own logic, with every call into those libraries replaced by an
uninterpreted function that may fail (`LangChain.Backend`):

- **Knowledge documents** (`src/data_loader.py`, module `DataLoader`).
  - Required-field validation.
  - Metadata enrichment, which fills in defaults in place. The dictionary is a
    `DocumentObject` whose `entries` map the method updates, and the same object
    is returned.
  - Loading JSON payloads from the `data` directory. The directory is given as
    its listing, with each file's parse outcome.
  - The built-in list, the fallback document, and the rule that combines them.
- **`FarmAIRAG`** (`src/rag_system.py`, module `RagSystem`). The object is
  unready until a build assigns `qaChain`.
  - The build flattens the documents into chunk records, each tagged with its
    own document's title and category. `embeddings` and `vectorstore` are
    assigned as soon as their steps succeed, and `qaChain` only at the very end.
    A failed build can therefore leave a new `vectorstore` next to the chain of
    an earlier build. The object then stays ready.
  - `query` turns every failure into an in-band apology with no sources.
    Otherwise it reshapes the chain's result into a response and one source per
    returned document.
- **`FarmAISystem`** and the API-key guard (`app.py`, module `App`).
  - The same lifecycle, but the build makes one record per document with the
    whole text and a title that defaults to `''`. The configured splitter is
    never used.
  - `query` returns a single string.
  - `initialize_system` returns `(None, False)` when the key is absent or empty.

Documents are `map<string, string>` (`Documents.Document`), and Python's
`dict.get` is `Documents.Get`.

Some behaviour of the code that a reader might not expect:

- No validation filter runs before indexing. A document without `content` makes
  the whole build fail (`RagSystem.ChunkRecordsSucceedIff`).
- The category default is `'General'` in the RAG records, but `'general'` in
  `enrich_document_metadata`.
- A query before a successful build does not raise a distinct condition. It
  returns the apology text with an empty source list.
- An empty document list is not rejected by the wrapper. Whether an empty index
  can be built is left to the store, through `Backend.indexBuilt`.

The methods' contracts refer to reference definitions, each of which stands
for specific source lines:

- `DataLoader.Enriched` (data_loader.dfy) is the result of the enrichment loop at
  src/data_loader.py:318-327. It is `DataLoader.EnrichWith` applied to the four
  defaults, in their order.
- `DataLoader.FromEntries` and `DataLoader.FileDocuments` (data_loader.dfy) are the
  documents gathered by the file loop at src/data_loader.py:275-291, file by file.
- `RagSystem.ChunkRecords` (rag_system.dfy) is the list that the two nested loops at
  src/rag_system.py:31-41 build, or `None` when one of them raises.
- `RagSystem.IndexedStore` and `RagSystem.BuiltChain` (rag_system.dfy) are the
  vector store of src/rag_system.py:26-43 and the chain of src/rag_system.py:45-57.
  Each is present only when every step up to it succeeds.
- `App.AppRecords` and `App.AppChain` (app.dfy) are the records of the comprehension
  at app.py:53 and the chain that the build at app.py:44-71 assigns when every
  step succeeds.

## Model

| member | source | states |
|---|---|---|
| `DataLoader.ValidateDocument` | src/data_loader.py:311-314 | true exactly when both `title` and `content` are keys. Only presence counts, so empty values pass |
| `DataLoader.EnrichWith` | src/data_loader.py:325-327 | the enrichment loop adds exactly the default keys to those already present |
| `DataLoader.EnrichWithValues` | src/data_loader.py:325-327 | enrichment never overwrites a present key. An added key gets the value its default pairs it with |
| `DataLoader.EnrichedMetadata` | src/data_loader.py:316-327 | after enrichment the key set is the old keys plus `source`, `category`, `crop` and `language`. Old values are kept. Each added key holds `'Agricultural Knowledge Base'`, `'general'`, `'general'` or `'en'` |
| `DataLoader.EnrichIdempotent` | src/data_loader.py:325-327 | enriching twice gives the same dictionary as enriching once |
| `DataLoader.EnrichDocumentMetadata` | src/data_loader.py:316-329 | updates the given dictionary object in place to its enrichment and returns that same object |
| `DataLoader.LoadFromFiles` | src/data_loader.py:273-291 | returns the documents of the listing, file by file in listing order. A missing directory gives `[]` |
| `DataLoader.FromEntriesAppend` | src/data_loader.py:279-289 | loading two parts of a listing gives the first part's documents followed by the second's |
| `DataLoader.FileEntryEffect` | src/data_loader.py:279-289 | wherever a file stands: a `.json` list payload is spliced in whole and in order, and a `.json` dict payload is added as one document. Another JSON value, a load that raised, or a name not ending in `.json` contributes nothing and does not stop the later files |
| `DataLoader.FromEntriesProvenance` | src/data_loader.py:279-289 | a document is loaded exactly when some `.json` file parsed to a list containing it or to a dict equal to it |
| `DataLoader.LoadBuiltinKnowledge` | src/data_loader.py:24-271 | six built-in documents, each passing validation |
| `DataLoader.GetFallbackData` | src/data_loader.py:293-309 | a single document that passes validation |
| `DataLoader.LoadAgriculturalData` | src/data_loader.py:7-22 | the built-in documents followed by the file documents, at least six and the first six valid. The fallback branch is never taken |
| `RagSystem.ChunkMetadata` | src/rag_system.py:37-40 | a chunk's metadata has exactly `title` and `category`: the document's own values, or `'Agricultural Guide'` and `'General'` |
| `RagSystem.ChunkRecordsSucceedIff` | src/rag_system.py:31-41 | flattening succeeds exactly when every document has `content` and the splitter accepts it. There is no filtering first |
| `RagSystem.ChunkRecordsAppend` | src/rag_system.py:31-41 | flattening concatenated document lists concatenates their records, in order |
| `RagSystem.ChunkRecordsTagged` | src/rag_system.py:32-41 | every record is a chunk of some document's content and carries that document's metadata |
| `RagSystem.SourceOfChunk` | src/rag_system.py:73-78 | a chunk record comes back from `query` as a source with its document's title and category, or the same defaults the build used |
| `RagSystem.BuiltChainIndexesChunks` | src/rag_system.py:31-58 | no build succeeds while a document lacks `content`. A successful build indexes exactly the flattened records and asks for source documents |
| `RagSystem.FarmAIRag.constructor` | src/rag_system.py:13-21 | a new object has no embeddings, no vector store and no chain, and a 1000/200 splitter |
| `RagSystem.FarmAIRag.BuildKnowledgeBase` | src/rag_system.py:23-61 | assigns embeddings, vector store and chain each only once its own step succeeds, and leaves them as they were otherwise. Returns true exactly when the chain is assigned |
| `RagSystem.FarmAIRag.Query` | src/rag_system.py:63-88 | without a chain, or when invoke raises, returns the apology with the message and no sources. Otherwise returns `result` or `'No answer found.'`, and one source per returned document in order, with content, title and category defaulted |
| `App.LoadAgriculturalData` | app.py:18-32 | two built-in documents, each with a title and content |
| `App.AppRecords` | app.py:53 | one record per document with its whole content and a `title` that defaults to `''`. Fails exactly when some document lacks `content` |
| `App.UnsplitChunkRecords` | src/rag_system.py:31-41 | with a splitter that never splits, the RAG flattening gives one record per document, tagged with its metadata |
| `App.AppRecordsAreUnsplitChunks` | app.py:53 | this variant's records are the RAG records of a never-splitting splitter: same success condition, same contents, same title when the document has one |
| `App.AppChainIgnoresSplitter` | app.py:42-66 | the build's outcome does not depend on the text splitter |
| `App.FarmAISystem.constructor` | app.py:38-42 | a new system has no chain and keeps its key and base URL |
| `App.FarmAISystem.BuildKnowledgeBase` | app.py:44-71 | true exactly when every step succeeds, and then the chain indexes the unsplit records. Any failure leaves the chain as it was |
| `App.FarmAISystem.Query` | app.py:73-80 | without a chain returns `'The system is not ready. Please check the logs.'`. Otherwise returns `result`, `"Sorry, I couldn't find an answer."`, or `'An error occurred: '` followed by the message |
| `App.InitializeSystem` | app.py:88-101 | with no key or an empty key returns no system and false, without loading or building. Otherwise returns a new system built from the two built-in documents, with the build's verdict |

## Left out

- The Streamlit page, the session history, `st.error`, `st.cache_resource` and `st.secrets` are not modelled. The secret is a parameter of `App.InitializeSystem`.
- LangChain and OpenAI are not modelled: `RecursiveCharacterTextSplitter`, `OpenAIEmbeddings`, `FAISS.from_documents`, `OpenAI`, `RetrievalQA` and `invoke`. Each is an uninterpreted function of `LangChain.Backend` that may fail. No bound on chunk length or overlap is claimed.
- The file system is not modelled: `os.path.exists`, `os.listdir`, `open` and `json.load`. The listing, in whatever order `os.listdir` gives it, and each file's parse outcome are inputs. An exception from `os.listdir` itself, which the source does not catch, is not represented.
- Dictionary values are strings, and a list payload holds documents. A JSON list element that is not an object, or a value that is not a string, is not represented.
- The long texts of the literal knowledge documents are abbreviated to their first line. Only the count and the keys of those lists matter to the model.
- The messages printed or logged (`print`, `logging`) are not modelled, nor is the error text of a failed build.
- `RagSystem.FarmAIRag.Query`: an exception raised while packaging the sources cannot occur, because the model's result type always has page content and metadata. Such an exception would give the apology response in the source.
- `src/agents.py` is not part of this model. `process_query` only delegates to `query`, and the classifier it builds is never invoked.
- `DataLoader.EnrichDocumentMetadata`: a Dafny `map` has no key order, so the Python dict's insertion order is not captured. In the source, the added keys come after the existing ones, in the order `source`, `category`, `crop`, `language`. No modelled behaviour depends on that order.
