/**
 * Loading, validating and enriching the agricultural knowledge documents
 * (src/data_loader.py). The file system is not modelled: the `data`
 * directory is given as its listing, each `.json` file with the outcome of
 * opening and parsing it.
 */
module DataLoader {
  import opened Documents

  // ---------------------------------------------------------------------------
  // Validation
  // ---------------------------------------------------------------------------

  /** The keys `validate_document` demands, in the order it checks them. */
  const RequiredFields: seq<string> := ["title", "content"]

  /**
   * `validate_document`: every required field is a key of the document.
   * Only presence is checked, so empty values pass.
   */
  function ValidateDocument(doc: Document): (valid: bool)
    ensures valid <==> "title" in doc && "content" in doc
  {
    assert RequiredFields[0] == "title" && RequiredFields[1] == "content";
    forall i | 0 <= i < |RequiredFields| :: RequiredFields[i] in doc
  }

  // ---------------------------------------------------------------------------
  // Metadata enrichment
  // ---------------------------------------------------------------------------

  /** The `defaults` dictionary of `enrich_document_metadata`, in insertion order. */
  const MetadataDefaults: seq<(string, string)> := [
    ("source", "Agricultural Knowledge Base"),
    ("category", "general"),
    ("crop", "general"),
    ("language", "en")
  ]

  /** The keys of a list of (key, value) pairs. */
  function KeysOf(entries: seq<(string, string)>): set<string>
  {
    set i | 0 <= i < |entries| :: entries[i].0
  }

  /** No key occurs twice in a list of (key, value) pairs, as in a dictionary. */
  ghost predicate DistinctKeys(entries: seq<(string, string)>)
  {
    forall i, j | 0 <= i < j < |entries| :: entries[i].0 != entries[j].0
  }

  /** One step of the enrichment loop: add the pair unless its key is present. */
  function Fill(doc: Document, entry: (string, string)): Document
  {
    if entry.0 in doc then doc else doc[entry.0 := entry.1]
  }

  /**
   * The document after the enrichment loop has visited `defaults` in order.
   * Exactly the default keys are added to those already present.
   */
  function EnrichWith(doc: Document, defaults: seq<(string, string)>): (r: Document)
    ensures r.Keys == doc.Keys + KeysOf(defaults)
  {
    if defaults == [] then doc
    else
      var init := defaults[..|defaults| - 1];
      assert KeysOf(defaults) == KeysOf(init) + {defaults[|defaults| - 1].0} by {
        forall k | k in KeysOf(defaults) ensures k in KeysOf(init) + {defaults[|defaults| - 1].0} {
          var i :| 0 <= i < |defaults| && defaults[i].0 == k;
          if i < |defaults| - 1 { assert init[i] == defaults[i]; }
        }
      }
      Fill(EnrichWith(doc, init), defaults[|defaults| - 1])
  }

  /** What `enrich_document_metadata` turns a document into. */
  function Enriched(doc: Document): Document
  {
    EnrichWith(doc, MetadataDefaults)
  }

  /**
   * Enrichment never overwrites a present key, and a key it adds gets the
   * value the defaults list pairs it with.
   */
  lemma {:induction false} EnrichWithValues(doc: Document, defaults: seq<(string, string)>, k: string)
    requires DistinctKeys(defaults)
    ensures k in doc ==> EnrichWith(doc, defaults)[k] == doc[k]
    ensures forall i | 0 <= i < |defaults| && defaults[i].0 == k && k !in doc ::
              EnrichWith(doc, defaults)[k] == defaults[i].1
  {
    if defaults != [] {
      var n := |defaults| - 1;
      var init, last := defaults[..n], defaults[n];
      assert DistinctKeys(init) by {
        forall i, j | 0 <= i < j < |init| ensures init[i].0 != init[j].0 {
          assert init[i] == defaults[i] && init[j] == defaults[j];
        }
      }
      EnrichWithValues(doc, init, k);
      var before := EnrichWith(doc, init);
      assert EnrichWith(doc, defaults) == Fill(before, last);
      forall i | 0 <= i < |defaults| && defaults[i].0 == k && k !in doc
        ensures Fill(before, last)[k] == defaults[i].1
      {
        if i < n {
          assert init[i] == defaults[i];
        } else {
          forall j | 0 <= j < |init| ensures init[j].0 != k {
            assert init[j] == defaults[j];
          }
        }
      }
    }
  }

  /**
   * After enrichment the four metadata keys are present; present keys keep
   * their values; each added key holds its default; no other key appears.
   */
  lemma EnrichedMetadata(doc: Document)
    ensures Enriched(doc).Keys == doc.Keys + {"source", "category", "crop", "language"}
    ensures forall k | k in doc :: Enriched(doc)[k] == doc[k]
    ensures "source" !in doc ==> Enriched(doc)["source"] == "Agricultural Knowledge Base"
    ensures "category" !in doc ==> Enriched(doc)["category"] == "general"
    ensures "crop" !in doc ==> Enriched(doc)["crop"] == "general"
    ensures "language" !in doc ==> Enriched(doc)["language"] == "en"
  {
    var d := MetadataDefaults;
    assert KeysOf(d) == {"source", "category", "crop", "language"} by {
      assert d[0].0 == "source" && d[1].0 == "category" && d[2].0 == "crop" && d[3].0 == "language";
    }
    forall k | k in doc ensures Enriched(doc)[k] == doc[k] {
      EnrichWithValues(doc, d, k);
    }
    EnrichWithValues(doc, d, "source");
    EnrichWithValues(doc, d, "category");
    EnrichWithValues(doc, d, "crop");
    EnrichWithValues(doc, d, "language");
    assert d[0].0 == "source" && d[1].0 == "category" && d[2].0 == "crop" && d[3].0 == "language";
  }

  /** Enriching an enriched document changes nothing. */
  lemma EnrichIdempotent(doc: Document)
    ensures Enriched(Enriched(doc)) == Enriched(doc)
  {
    EnrichedMetadata(doc);
    EnrichedMetadata(Enriched(doc));
  }

  /** A dictionary object that callers share by reference. */
  class DocumentObject {
    var entries: Document

    constructor (entries: Document)
      ensures this.entries == entries
    {
      this.entries := entries;
    }
  }

  /**
   * `enrich_document_metadata`: fills in the missing defaults in place and
   * returns the very object it was given.
   */
  method EnrichDocumentMetadata(doc: DocumentObject) returns (r: DocumentObject)
    modifies doc
    ensures r == doc
    ensures doc.entries == Enriched(old(doc.entries))
  {
    ghost var original := doc.entries;
    for i := 0 to |MetadataDefaults|
      invariant doc.entries == EnrichWith(original, MetadataDefaults[..i])
    {
      var key, value := MetadataDefaults[i].0, MetadataDefaults[i].1;
      assert MetadataDefaults[..i + 1][..i] == MetadataDefaults[..i];
      if key !in doc.entries {
        doc.entries := doc.entries[key := value];
      }
    }
    assert MetadataDefaults[..|MetadataDefaults|] == MetadataDefaults;
    r := doc;
  }

  // ---------------------------------------------------------------------------
  // Loading from the data directory
  // ---------------------------------------------------------------------------

  /** What `json.load` produced: a list, a dictionary, or any other JSON value. */
  datatype Payload = JsonList(items: seq<Document>) | JsonObject(doc: Document) | JsonOther

  /** Opening and parsing one file: its payload, or an exception. */
  datatype FileOutcome = Parsed(payload: Payload) | Unreadable

  /** One name of the directory listing and what loading it gives. */
  datatype FileEntry = FileEntry(name: string, outcome: FileOutcome)

  /** The `data` directory: absent, or its listing in the order `os.listdir` gives it. */
  datatype DataDirectory = Missing | Listing(entries: seq<FileEntry>)

  /** `filename.endswith('.json')`. */
  predicate IsJsonName(name: string)
  {
    |name| >= 5 && name[|name| - 5..] == ".json"
  }

  /** The documents one directory entry contributes. */
  function Contribution(entry: FileEntry): seq<Document>
  {
    if !IsJsonName(entry.name) then []
    else match entry.outcome
      case Unreadable => []
      case Parsed(JsonList(items)) => items
      case Parsed(JsonObject(doc)) => [doc]
      case Parsed(JsonOther) => []
  }

  /** The documents the loop over the listing has gathered. */
  function FromEntries(entries: seq<FileEntry>): seq<Document>
  {
    if entries == [] then []
    else FromEntries(entries[..|entries| - 1]) + Contribution(entries[|entries| - 1])
  }

  /** What `load_from_files` returns for a directory. */
  function FileDocuments(dir: DataDirectory): seq<Document>
  {
    match dir
    case Missing => []
    case Listing(entries) => FromEntries(entries)
  }

  /**
   * `load_from_files`: a missing directory gives nothing; otherwise every
   * `.json` file is loaded in listing order.
   */
  method LoadFromFiles(dir: DataDirectory) returns (documents: seq<Document>)
    ensures documents == FileDocuments(dir)
    ensures dir.Missing? ==> documents == []
  {
    documents := [];
    if dir.Listing? {
      var entries := dir.entries;
      for i := 0 to |entries|
        invariant documents == FromEntries(entries[..i])
      {
        assert entries[..i + 1][..i] == entries[..i];
        var entry := entries[i];
        if IsJsonName(entry.name) {
          match entry.outcome {
            case Parsed(JsonList(items)) =>
              documents := documents + items;
            case Parsed(JsonObject(doc)) =>
              documents := documents + [doc];
            case Parsed(JsonOther) =>
            case Unreadable =>
          }
        }
      }
      assert entries[..|entries|] == entries;
    }
  }

  /** Loading two parts of a listing one after the other. */
  lemma {:induction false} FromEntriesAppend(a: seq<FileEntry>, b: seq<FileEntry>)
    ensures FromEntries(a + b) == FromEntries(a) + FromEntries(b)
    decreases |b|
  {
    if b == [] {
      assert a + b == a;
    } else {
      var init := b[..|b| - 1];
      FromEntriesAppend(a, init);
      assert (a + b)[..|a + b| - 1] == a + init;
      assert (a + b)[|a + b| - 1] == b[|b| - 1];
    }
  }

  /**
   * The effect of one file wherever it stands in the listing: a list is
   * spliced in whole, a dictionary is added as one document, and anything
   * else (another JSON value, a load that raised, a name not ending in
   * `.json`) contributes nothing without stopping the files after it.
   */
  lemma FileEntryEffect(before: seq<FileEntry>, entry: FileEntry, after: seq<FileEntry>)
    ensures !IsJsonName(entry.name) ==>
              FromEntries(before + [entry] + after) == FromEntries(before) + FromEntries(after)
    ensures IsJsonName(entry.name) && entry.outcome == Unreadable ==>
              FromEntries(before + [entry] + after) == FromEntries(before) + FromEntries(after)
    ensures IsJsonName(entry.name) && entry.outcome == Parsed(JsonOther) ==>
              FromEntries(before + [entry] + after) == FromEntries(before) + FromEntries(after)
    ensures IsJsonName(entry.name) && entry.outcome.Parsed? && entry.outcome.payload.JsonList? ==>
              FromEntries(before + [entry] + after)
              == FromEntries(before) + entry.outcome.payload.items + FromEntries(after)
    ensures IsJsonName(entry.name) && entry.outcome.Parsed? && entry.outcome.payload.JsonObject? ==>
              FromEntries(before + [entry] + after)
              == FromEntries(before) + [entry.outcome.payload.doc] + FromEntries(after)
  {
    FromEntriesAppend(before + [entry], after);
    FromEntriesAppend(before, [entry]);
    assert [entry][..0] == [];
  }

  /** The file entry supplies the document: a parsed `.json` list holding it, or a parsed `.json` dictionary equal to it. */
  predicate Supplies(entry: FileEntry, d: Document)
  {
    && IsJsonName(entry.name)
    && entry.outcome.Parsed?
    && (|| (entry.outcome.payload.JsonList? && d in entry.outcome.payload.items)
        || entry.outcome.payload == JsonObject(d))
  }

  /** A document is loaded from the listing exactly when some file entry supplies it. */
  lemma {:induction false} FromEntriesProvenance(entries: seq<FileEntry>, d: Document)
    ensures d in FromEntries(entries) <==> exists i | 0 <= i < |entries| :: Supplies(entries[i], d)
  {
    if entries != [] {
      var n := |entries| - 1;
      var init := entries[..n];
      FromEntriesProvenance(init, d);
      assert d in Contribution(entries[n]) <==> Supplies(entries[n], d);
      if d in FromEntries(entries) {
        if d in FromEntries(init) {
          var i :| 0 <= i < |init| && Supplies(init[i], d);
          assert entries[i] == init[i];
        }
      }
      if exists i | 0 <= i < |entries| :: Supplies(entries[i], d) {
        var i :| 0 <= i < |entries| && Supplies(entries[i], d);
        if i < n {
          assert init[i] == entries[i];
        }
      }
    }
  }

  // ---------------------------------------------------------------------------
  // Built-in and fallback knowledge, and the combined load
  // ---------------------------------------------------------------------------

  /** `load_builtin_knowledge`: six documents, each with a title and content. */
  function LoadBuiltinKnowledge(): (docs: seq<Document>)
    ensures |docs| == 6
    ensures forall i | 0 <= i < |docs| :: ValidateDocument(docs[i])
  {
    [
      Literal("Tomato Disease Management Guide", "Common Tomato Diseases and Management:",
                "Agricultural Extension Service", "disease_management", "tomato"),
      Literal("Rice Cultivation Best Practices", "Rice Cultivation Guidelines:",
                "Rice Research Institute", "crop_management", "rice"),
      Literal("Wheat Disease Identification and Control", "Major Wheat Diseases:",
                "Wheat Research Institute", "disease_management", "wheat"),
      Literal("Integrated Pest Management Strategies", "Integrated Pest Management (IPM) Principles:",
                "IPM Guidelines", "pest_management", "general"),
      Literal("Soil Health and Fertility Management", "Soil Health Management:",
                "Soil Science Department", "soil_management", "general"),
      Literal("Climate-Smart Agriculture Practices", "Climate-Smart Agriculture Strategies:",
                "Climate Change Research Center", "climate_adaptation", "general")
    ]
  }

  /** `get_fallback_data`: a single valid document. */
  function GetFallbackData(): (docs: seq<Document>)
    ensures |docs| == 1 && ValidateDocument(docs[0])
  {
    [Literal("Basic Agricultural Principles",
               "Fundamental principles of agriculture include proper soil preparation,",
               "Agricultural Basics", "general", "general")]
  }

  /**
   * `load_agricultural_data`: the built-in documents followed by those of the
   * data directory, with the fallback document only if both are empty. As the
   * built-in list is never empty, the fallback is never used.
   */
  method LoadAgriculturalData(dir: DataDirectory) returns (documents: seq<Document>)
    ensures documents == LoadBuiltinKnowledge() + FileDocuments(dir)
    ensures |documents| >= 6
    ensures forall i | 0 <= i < 6 :: ValidateDocument(documents[i])
  {
    documents := [];
    documents := documents + LoadBuiltinKnowledge();
    var fromFiles := LoadFromFiles(dir);
    documents := documents + fromFiles;
    if documents == [] {
      documents := GetFallbackData();
    }
  }
}
