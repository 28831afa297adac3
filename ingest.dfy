/** PDF ingestion: validate, choose a provider, build its embeddings client, load and split
    the PDF, clean each chunk's metadata, count tokens for the log and store every chunk in
    one batch. */
module Ingest {
  import opened Wrappers
  import opened Settings
  import opened Providers
  import opened Backends
  import PyStr

  // ---------------------------------------------------------------- metadata filter

  /** A metadata value survives the filter unless it equals "" or None. */
  predicate Retained(v: Scalar) {
    v != Str("") && v != Null
  }

  /** `sub` is `s` with some entries left out, the rest in their order. */
  predicate IsSubsequence<T(==)>(sub: seq<T>, s: seq<T>) {
    if sub == [] then true
    else if s == [] then false
    else if sub[0] == s[0] then IsSubsequence(sub[1..], s[1..])
    else IsSubsequence(sub, s[1..])
  }

  /** The metadata of a chunk without the entries whose value is the empty string or None. */
  function FilterMetadata(md: Metadata): (r: Metadata)
    ensures IsSubsequence(r, md)
    ensures forall e :: e in r <==> e in md && Retained(e.1)
  {
    if md == [] then []
    else if Retained(md[0].1) then [md[0]] + FilterMetadata(md[1..])
    else FilterMetadata(md[1..])
  }

  /** Each key at most once, as in a dict. */
  predicate DistinctKeys(md: Metadata) {
    forall i, j :: 0 <= i < j < |md| ==> md[i].0 != md[j].0
  }

  /** md[key], or None when the key is absent. */
  function Lookup(md: Metadata, key: string): Option<Scalar> {
    if md == [] then None
    else if md[0].0 == key then Some(md[0].1)
    else Lookup(md[1..], key)
  }

  lemma {:induction false} LookupFound(md: Metadata, key: string, v: Scalar)
    requires DistinctKeys(md)
    ensures Lookup(md, key) == Some(v) <==> (key, v) in md
  {
    if md != [] {
      assert DistinctKeys(md[1..]) by {
        forall i, j | 0 <= i < j < |md[1..]| ensures md[1..][i].0 != md[1..][j].0 {
          assert md[1..][i] == md[i + 1] && md[1..][j] == md[j + 1];
        }
      }
      LookupFound(md[1..], key, v);
      if md[0].0 == key {
        forall e | e in md[1..] ensures e.0 != key {
          var j :| 0 <= j < |md[1..]| && md[1..][j] == e;
          assert md[j + 1] == e;
        }
      }
    }
  }

  /** The filter keeps a dict a dict. */
  lemma {:induction false} FilterKeepsDistinctKeys(md: Metadata)
    requires DistinctKeys(md)
    ensures DistinctKeys(FilterMetadata(md))
  {
    if md != [] {
      assert DistinctKeys(md[1..]) by {
        forall i, j | 0 <= i < j < |md[1..]| ensures md[1..][i].0 != md[1..][j].0 {
          assert md[1..][i] == md[i + 1] && md[1..][j] == md[j + 1];
        }
      }
      FilterKeepsDistinctKeys(md[1..]);
      var rest := FilterMetadata(md[1..]);
      if Retained(md[0].1) {
        forall e | e in rest ensures e.0 != md[0].0 {
          assert e in md[1..];
          var j :| 0 <= j < |md[1..]| && md[1..][j] == e;
          assert md[j + 1] == e;
        }
        var r := [md[0]] + rest;
        forall i, j | 0 <= i < j < |r| ensures r[i].0 != r[j].0 {
          if i == 0 {
            assert r[j] in rest;
          } else {
            assert r[i] == rest[i - 1] && r[j] == rest[j - 1];
          }
        }
      }
    }
  }

  /** A key keeps its value exactly when that value is neither "" nor None; every other key
      is dropped. Values such as 0, False and 0.0 are kept. */
  lemma FilteredLookup(md: Metadata, key: string)
    requires DistinctKeys(md)
    ensures Lookup(FilterMetadata(md), key) ==
              if Lookup(md, key).Some? && Retained(Lookup(md, key).value) then Lookup(md, key) else None
  {
    FilterKeepsDistinctKeys(md);
    var r := FilterMetadata(md);
    match Lookup(md, key)
    case None =>
      if Lookup(r, key).Some? {
        LookupFound(r, key, Lookup(r, key).value);
        LookupFound(md, key, Lookup(r, key).value);
      }
    case Some(v) =>
      LookupFound(md, key, v);
      LookupFound(r, key, v);
      if !Retained(v) && Lookup(r, key).Some? {
        LookupFound(r, key, Lookup(r, key).value);
        LookupFound(md, key, Lookup(r, key).value);
      }
  }

  /** Filtering twice is filtering once. */
  lemma {:induction false} FilterIdempotent(md: Metadata)
    ensures FilterMetadata(FilterMetadata(md)) == FilterMetadata(md)
  {
    if md != [] {
      FilterIdempotent(md[1..]);
      if Retained(md[0].1) {
        assert ([md[0]] + FilterMetadata(md[1..]))[1..] == FilterMetadata(md[1..]);
      }
    }
  }

  // ---------------------------------------------------------------- process_documents

  /** A chunk with its page content unchanged and its metadata filtered. */
  function CleanDocument(d: Document): Document {
    Document(d.pageContent, FilterMetadata(d.metadata))
  }

  /** The list comprehension over the chunks: one cleaned document per chunk, in order. */
  function CleanDocuments(chunks: seq<Document>): (r: seq<Document>)
    ensures |r| == |chunks|
    ensures forall i :: 0 <= i < |chunks| ==> r[i].pageContent == chunks[i].pageContent
    ensures forall i :: 0 <= i < |chunks| ==> r[i].metadata == FilterMetadata(chunks[i].metadata)
  {
    seq(|chunks|, i requires 0 <= i < |chunks| => CleanDocument(chunks[i]))
  }

  /** The exceptions ingestion raises, by kind. */
  datatype IngestError =
    | ConfigurationError(message: string)
    | EndOfInput
    | ClientError(message: string)
    | DocumentNotFound(path: string)
    | LoadError(message: string)
    | NoChunks
    | StoreError(message: string)

  const NotFoundPrefix: string := "PDF file not found: "
  const NoChunksMessage: string := "No document chunks were created"

  /** The message of the exception, which ingest_pdf logs before re-raising it; a missing file
      is named in its message, after the fixed prefix. */
  function ErrorMessage(e: IngestError): (m: string)
    ensures e.DocumentNotFound? ==>
              PyStr.ContainsAt(m, NotFoundPrefix, 0) && PyStr.ContainsAt(m, e.path, |NotFoundPrefix|)
    ensures e.NoChunks? ==> m == NoChunksMessage
    ensures e.EndOfInput? ==> m == EofMessage
  {
    match e
    case ConfigurationError(m) => m
    case EndOfInput => EofMessage
    case ClientError(m) => m
    case DocumentNotFound(path) =>
      assert (NotFoundPrefix + path)[..|NotFoundPrefix|] == NotFoundPrefix;
      assert (NotFoundPrefix + path)[|NotFoundPrefix|..] == path;
      NotFoundPrefix + path
    case LoadError(m) => m
    case NoChunks => NoChunksMessage
    case StoreError(m) => m
  }

  /** process_documents: refuse a missing file before loading anything, refuse an empty split,
      otherwise return the cleaned chunks. */
  function ProcessDocuments(path: string, world: World): (r: Result<seq<Document>, IngestError>)
    ensures r == Failure(DocumentNotFound(path)) <==> !world.pathExists(path)
    ensures r.Success? ==> |r.value| > 0
    ensures r.Success? ==>
              world.loadPdf(path).Success? &&
              r.value == CleanDocuments(world.splitDocuments(world.loadPdf(path).value))
    ensures r == Failure(NoChunks) <==>
              world.pathExists(path) && world.loadPdf(path).Success? &&
              world.splitDocuments(world.loadPdf(path).value) == []
    ensures world.pathExists(path) && world.loadPdf(path).Failure? ==>
              r == Failure(LoadError(world.loadPdf(path).error))
    ensures world.pathExists(path) && world.loadPdf(path).Success? &&
            world.splitDocuments(world.loadPdf(path).value) != [] ==>
              r == Success(CleanDocuments(world.splitDocuments(world.loadPdf(path).value)))
  {
    if !world.pathExists(path) then Failure(DocumentNotFound(path))
    else match world.loadPdf(path)
      case Failure(m) => Failure(LoadError(m))
      case Success(pages) =>
        var chunks := world.splitDocuments(pages);
        if chunks == [] then Failure(NoChunks) else Success(CleanDocuments(chunks))
  }

  // ---------------------------------------------------------------- store_documents

  /** The sum of the family's token counts of the page contents of all the documents. */
  function TotalTokens(p: Provider, env: Env, tiktoken: Tokenizer, docs: seq<Document>): nat {
    if docs == [] then 0
    else CountTokens(p, env, tiktoken, docs[0].pageContent) + TotalTokens(p, env, tiktoken, docs[1..])
  }

  /** With Gemini the total is the sum of the per-document estimates, each at most a quarter of
      its page content. */
  lemma {:induction false} GeminiTotalIsBounded(env: Env, tiktoken: Tokenizer, docs: seq<Document>)
    ensures 4 * TotalTokens(Gemini, env, tiktoken, docs) <= TotalCharacters(docs)
  {
    if docs != [] {
      GeminiTotalIsBounded(env, tiktoken, docs[1..]);
    }
  }

  function TotalCharacters(docs: seq<Document>): nat {
    if docs == [] then 0 else |docs[0].pageContent| + TotalCharacters(docs[1..])
  }

  // ---------------------------------------------------------------- ingest_pdf

  /** What ingestion has done, in order: the steps with an effect on the outside or the log. */
  datatype IngestStep =
    | Validated
    | ProviderChosen(provider: Provider, linesRead: nat)
    | EmbeddingsCreated(client: Client)
    | DocumentsProcessed(documents: seq<Document>)
    | TokensCounted(total: nat)
    | BatchAdded(store: Store, embeddings: Client, documents: seq<Document>)

  /** The position of each kind of step in the fixed sequence. */
  function Rank(s: IngestStep): nat {
    match s
    case Validated => 0
    case ProviderChosen(_, _) => 1
    case EmbeddingsCreated(_) => 2
    case DocumentsProcessed(_) => 3
    case TokensCounted(_) => 4
    case BatchAdded(_, _, _) => 5
  }

  /** store_documents: log the token total, then add every document in one call. */
  method StoreDocuments(docs: seq<Document>, embeddings: Client, p: Provider, env: Env, world: World)
    returns (error: Option<string>, steps: seq<IngestStep>)
    ensures steps == [TokensCounted(TotalTokens(p, env, world.tiktoken, docs)),
                      BatchAdded(ConfiguredStore(env), embeddings, docs)]
    ensures error == world.addDocuments(ConfiguredStore(env), embeddings, docs)
  {
    var total := TotalTokens(p, env, world.tiktoken, docs);
    var store := ConfiguredStore(env);
    steps := [TokensCounted(total), BatchAdded(store, embeddings, docs)];
    error := world.addDocuments(store, embeddings, docs);
  }

  /** How a run ends (Pass, or the exception ingest_pdf re-raises) and what it did. */
  datatype IngestReport = IngestReport(outcome: Outcome<IngestError>, steps: seq<IngestStep>)

  /** ingest_pdf, reading the provider choice from `lines`: validate, choose, then go on with
      the chosen family; the first exception ends the run. */
  function Ingestion(env: Env, lines: seq<string>, world: World): IngestReport {
    match ValidateEnvironment(env)
    case Fail(message) => IngestReport(Fail(ConfigurationError(message)), [])
    case Pass =>
      match ProviderSelection(lines)
      case InputExhausted => IngestReport(Fail(EndOfInput), [Validated])
      case Selected(p, n) =>
        assert PdfPath in AllVars;
        IngestWith(p, n, env, env[PdfPath], world)
  }

  /** The rest of ingest_pdf once family p was chosen on line n: build the embeddings client,
      process the PDF at `path`, store the documents. */
  function IngestWith(p: Provider, n: nat, env: Env, path: string, world: World): (r: IngestReport)
    ensures |r.steps| >= 2 && r.steps[..2] == [Validated, ProviderChosen(p, n)]
  {
    var embeddings := GetEmbeddings(p, env);
    var chosen := [Validated, ProviderChosen(p, n)];
    match world.clientError(embeddings)
    case Some(message) => IngestReport(Fail(ClientError(message)), chosen)
    case None =>
      var created := chosen + [EmbeddingsCreated(embeddings)];
      match ProcessDocuments(path, world)
      case Failure(e) => IngestReport(Fail(e), created)
      case Success(docs) =>
        var store := ConfiguredStore(env);
        var stored := created + [DocumentsProcessed(docs),
                                 TokensCounted(TotalTokens(p, env, world.tiktoken, docs)),
                                 BatchAdded(store, embeddings, docs)];
        match world.addDocuments(store, embeddings, docs)
        case None => IngestReport(Pass, stored)
        case Some(message) => IngestReport(Fail(StoreError(message)), stored)
  }

  /** A configuration failure ends the run before any input is read or any step is taken. */
  lemma ValidationComesFirst(env: Env, lines: seq<string>, world: World)
    requires ValidateEnvironment(env).Fail?
    ensures Ingestion(env, lines, world) == IngestReport(Fail(ConfigurationError(ValidateEnvironment(env).error)), [])
  {
  }

  /** After family p is chosen, step i of the run is the i-th of the fixed sequence. */
  lemma IngestWithInFixedOrder(p: Provider, n: nat, env: Env, path: string, world: World)
    ensures forall i :: 0 <= i < |IngestWith(p, n, env, path, world).steps| ==>
              Rank(IngestWith(p, n, env, path, world).steps[i]) == i
  {
  }

  /** Steps happen in the fixed order validate, choose, embeddings, process, count, store, each
      at most once: every document goes to the store in a single batch. */
  lemma StepsInFixedOrder(env: Env, lines: seq<string>, world: World)
    ensures forall i :: 0 <= i < |Ingestion(env, lines, world).steps| ==>
              Rank(Ingestion(env, lines, world).steps[i]) == i
    ensures |Ingestion(env, lines, world).steps| <= 6
  {
    var steps := Ingestion(env, lines, world).steps;
    if ValidateEnvironment(env).Pass? && ProviderSelection(lines).Selected? {
      assert PdfPath in AllVars;
      var sel := ProviderSelection(lines);
      IngestWithInFixedOrder(sel.provider, sel.consumed, env, env[PdfPath], world);
    }
    if steps != [] {
      assert Rank(steps[|steps| - 1]) == |steps| - 1;
    }
  }

  /** A successful run took every stage, and the store got every cleaned chunk of the PDF, in
      one batch, through the chosen family's embeddings client (the converse is
      PassesIffEveryStageSucceeds). */
  lemma SuccessStoresEveryChunk(env: Env, lines: seq<string>, world: World)
    requires Ingestion(env, lines, world).outcome.Pass?
    ensures ValidateEnvironment(env).Pass? && ProviderSelection(lines).Selected?
    ensures PdfPath in env
    ensures |Ingestion(env, lines, world).steps| == 6
    ensures ProcessDocuments(env[PdfPath], world).Success?
    ensures Ingestion(env, lines, world).steps[5] ==
              BatchAdded(ConfiguredStore(env), GetEmbeddings(ProviderSelection(lines).provider, env),
                         ProcessDocuments(env[PdfPath], world).value)
  {
    assert ValidateEnvironment(env).Pass?;
    assert PdfPath in AllVars;
    var sel := ProviderSelection(lines);
    assert sel.Selected?;
    assert Ingestion(env, lines, world) == IngestWith(sel.provider, sel.consumed, env, env[PdfPath], world);
    IngestWithSuccess(sel.provider, sel.consumed, env, env[PdfPath], world);
  }

  /** Once a family is chosen, a successful run has taken all six steps and stored the
      processed documents of `path`. */
  lemma IngestWithSuccess(p: Provider, n: nat, env: Env, path: string, world: World)
    requires IngestWith(p, n, env, path, world).outcome.Pass?
    ensures |IngestWith(p, n, env, path, world).steps| == 6
    ensures ProcessDocuments(path, world).Success?
    ensures IngestWith(p, n, env, path, world).steps[5] ==
              BatchAdded(ConfiguredStore(env), GetEmbeddings(p, env), ProcessDocuments(path, world).value)
    ensures world.addDocuments(ConfiguredStore(env), GetEmbeddings(p, env), ProcessDocuments(path, world).value).None?
  {
  }

  /** Once family p is chosen, the run ends with the exception of the first stage that fails,
      re-raised unchanged, and passes exactly when every stage succeeds. */
  lemma IngestWithOutcome(p: Provider, n: nat, env: Env, path: string, world: World)
    ensures world.clientError(GetEmbeddings(p, env)).Some? ==>
              IngestWith(p, n, env, path, world).outcome ==
                Fail(ClientError(world.clientError(GetEmbeddings(p, env)).value))
    ensures world.clientError(GetEmbeddings(p, env)).None? && ProcessDocuments(path, world).Failure? ==>
              IngestWith(p, n, env, path, world).outcome == Fail(ProcessDocuments(path, world).error)
    ensures world.clientError(GetEmbeddings(p, env)).None? && ProcessDocuments(path, world).Success? &&
            world.addDocuments(ConfiguredStore(env), GetEmbeddings(p, env), ProcessDocuments(path, world).value).Some? ==>
              IngestWith(p, n, env, path, world).outcome ==
                Fail(StoreError(world.addDocuments(ConfiguredStore(env), GetEmbeddings(p, env),
                                                   ProcessDocuments(path, world).value).value))
    ensures IngestWith(p, n, env, path, world).outcome.Pass? <==>
              && world.clientError(GetEmbeddings(p, env)).None?
              && ProcessDocuments(path, world).Success?
              && world.addDocuments(ConfiguredStore(env), GetEmbeddings(p, env), ProcessDocuments(path, world).value).None?
  {
  }

  /** Input that runs out before a provider is chosen ends the run with the EOFError, after
      validation and before any other step. */
  lemma ExhaustedChoiceEndsRun(env: Env, lines: seq<string>, world: World)
    requires ValidateEnvironment(env).Pass? && ProviderSelection(lines).InputExhausted?
    ensures Ingestion(env, lines, world) == IngestReport(Fail(EndOfInput), [Validated])
  {
  }

  /** After validation and the choice, the run goes on with the chosen family and PDF_PATH. */
  lemma IngestionAfterChoice(env: Env, lines: seq<string>, world: World)
    requires ValidateEnvironment(env).Pass? && ProviderSelection(lines).Selected?
    ensures PdfPath in env
    ensures Ingestion(env, lines, world) ==
              IngestWith(ProviderSelection(lines).provider, ProviderSelection(lines).consumed, env, env[PdfPath], world)
  {
    assert PdfPath in AllVars;
  }

  /** ingest_pdf passes exactly when validation, the choice, the embeddings client, the
      processing of PDF_PATH and the store call all succeed. */
  lemma PassesIffEveryStageSucceeds(env: Env, lines: seq<string>, world: World)
    ensures Ingestion(env, lines, world).outcome.Pass? <==>
              && ValidateEnvironment(env).Pass?
              && ProviderSelection(lines).Selected?
              && PdfPath in env
              && world.clientError(GetEmbeddings(ProviderSelection(lines).provider, env)).None?
              && ProcessDocuments(env[PdfPath], world).Success?
              && world.addDocuments(ConfiguredStore(env), GetEmbeddings(ProviderSelection(lines).provider, env),
                                    ProcessDocuments(env[PdfPath], world).value).None?
  {
    if ValidateEnvironment(env).Pass? && ProviderSelection(lines).Selected? {
      var sel := ProviderSelection(lines);
      IngestionAfterChoice(env, lines, world);
      IngestWithOutcome(sel.provider, sel.consumed, env, env[PdfPath], world);
    }
  }

  /** A missing PDF stops the run with FileNotFoundError before the loader or the splitter
      is consulted: their behaviour makes no difference. Once validation, the choice and the
      embeddings client have passed, the run fails with FileNotFoundError for PDF_PATH, and
      the message ingest_pdf logs names that path after the fixed prefix. */
  lemma MissingPdfStopsBeforeLoading(env: Env, lines: seq<string>, world: World,
                                     loader: string -> Result<seq<Document>, string>,
                                     splitter: seq<Document> -> seq<Document>)
    requires PdfPath in env && !world.pathExists(env[PdfPath])
    ensures Ingestion(env, lines, world) == Ingestion(env, lines, world.(loadPdf := loader, splitDocuments := splitter))
    ensures Ingestion(env, lines, world).outcome.Fail? && !Ingestion(env, lines, world).outcome.error.NoChunks?
    ensures ValidateEnvironment(env).Pass? && ProviderSelection(lines).Selected? &&
            world.clientError(GetEmbeddings(ProviderSelection(lines).provider, env)).None? ==>
              && Ingestion(env, lines, world).outcome == Fail(DocumentNotFound(env[PdfPath]))
              && PyStr.ContainsAt(ErrorMessage(Ingestion(env, lines, world).outcome.error), env[PdfPath], |NotFoundPrefix|)
  {
    if ValidateEnvironment(env).Pass? && ProviderSelection(lines).Selected? {
      var sel := ProviderSelection(lines);
      IngestionAfterChoice(env, lines, world);
      IngestWithOutcome(sel.provider, sel.consumed, env, env[PdfPath], world);
    }
  }

  /** The token total only feeds the log: the tokenizer never changes how a run ends. */
  lemma TokenTotalOnlyLogged(env: Env, lines: seq<string>, world: World, tiktoken: Tokenizer)
    ensures Ingestion(env, lines, world).outcome == Ingestion(env, lines, world.(tiktoken := tiktoken)).outcome
  {
  }

  /** ingest_pdf as a sequence of effectful calls. */
  method IngestPdf(env: Env, lines: seq<string>, world: World) returns (report: IngestReport)
    ensures report == Ingestion(env, lines, world)
  {
    var validation := ValidateEnvironment(env);
    if validation.Fail? {
      return IngestReport(Fail(ConfigurationError(validation.error)), []);
    }
    var selection := GetProviderChoice(lines);
    if selection.InputExhausted? {
      return IngestReport(Fail(EndOfInput), [Validated]);
    }
    assert PdfPath in AllVars;
    report := IngestChosen(selection.provider, selection.consumed, env, env[PdfPath], world);
  }

  /** The calls ingest_pdf makes once family p was chosen on line n. */
  method IngestChosen(p: Provider, n: nat, env: Env, path: string, world: World) returns (report: IngestReport)
    ensures report == IngestWith(p, n, env, path, world)
  {
    var steps := [Validated, ProviderChosen(p, n)];
    var embeddings := GetEmbeddings(p, env);
    var clientError := world.clientError(embeddings);
    if clientError.Some? {
      return IngestReport(Fail(ClientError(clientError.value)), steps);
    }
    steps := steps + [EmbeddingsCreated(embeddings)];
    var documents := ProcessDocuments(path, world);
    if documents.Failure? {
      return IngestReport(Fail(documents.error), steps);
    }
    steps := steps + [DocumentsProcessed(documents.value)];
    var storeError, storeSteps := StoreDocuments(documents.value, embeddings, p, env, world);
    steps := steps + storeSteps;
    if storeError.Some? {
      return IngestReport(Fail(StoreError(storeError.value)), steps);
    }
    return IngestReport(Pass, steps);
  }
}
