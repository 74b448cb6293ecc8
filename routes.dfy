/** The HTTP handlers (app/api/routes.py): upload runs validation, parsing,
    chunking, embedding and storage in that order and maps each error kind to
    a status; query embeds the question, searches the store, and asks the
    model only when something was found; health reports the stored count;
    delete removes one document's records. The services are the ones of this
    model; their foreign parts (readers, providers, the engine, the clock and
    `uuid4`) are parameters. */
module Routes {
  import opened Common
  import opened Text
  import opened DocumentService
  import opened Chunking
  import opened Embedding
  import opened VectorService
  import opened LlmService
  import opened Schemas

  /** An `HTTPException`: its status code and `detail`. */
  datatype HttpError = HttpError(status: int, detail: string)

  /** What a handler answers: a response body, or an HTTP error. */
  datatype Reply<T> = Success(value: T) | Failure(error: HttpError)

  const NoContentText: string := "No content could be extracted from the document"
  const UploadFailedText: string := "Upload failed"
  const QueryFailedText: string := "Query failed"
  const NoResultsAnswer: string :=
    "I couldn't find relevant information in the documents to answer your question."

  /** The model name reported when no model was asked. */
  const NoModel: string := "N/A"

  /** The similarity floor of every query. */
  const MinSimilarity: real := 0.5

  /** The number of characters of a source shown before `...`. */
  const PreviewLength: nat := 200

  // ---------------------------------------------------------------------------
  // upload_document

  /** The handlers of `upload_document`: client errors (validation 400,
      parsing 422) and the embedding and storage errors keep their message;
      any other exception becomes a 500 with a fixed text. */
  function UploadError(e: Error): (h: HttpError)
    ensures h.status in {400, 422, 500}
    ensures h.status == 400 <==> e.kind == FileValidation
    ensures h.status == 422 <==> e.kind == DocumentParsing
    ensures e.kind in {FileValidation, DocumentParsing, EmbeddingGeneration, VectorStore} ==> h.detail == e.message
    ensures e.kind !in {FileValidation, DocumentParsing, EmbeddingGeneration, VectorStore} ==>
              h == HttpError(500, UploadFailedText)
  {
    match e.kind
    case FileValidation => HttpError(400, e.message)
    case DocumentParsing => HttpError(422, e.message)
    case EmbeddingGeneration => HttpError(500, e.message)
    case VectorStore => HttpError(500, e.message)
    case _ => HttpError(500, UploadFailedText)
  }

  /** The chunks of a parsed document, numbered, with the default size and
      overlap. */
  function ChunksFor(doc: ParsedDocument): seq<Chunk> {
    Numbered(UnnumberedChunks(doc, DefaultChunkSize, DefaultOverlap))
  }

  /** The embedding step of an upload: no chunks is a parsing error and
      makes no call; otherwise the chunks with their vectors, or the
      provider's error. */
  function Embedded(chunks: seq<Chunk>, provider: Provider, embeddingModel: string): (r: Result<seq<Chunk>>)
    ensures r.Err? ==> r.error.kind in {DocumentParsing, EmbeddingGeneration}
    ensures r.Err? && r.error.kind == DocumentParsing ==> chunks == [] && r.error.message == NoContentText
    ensures r.Ok? ==> |r.value| == |chunks| && r.value != []
  {
    if chunks == [] then Err(Error(DocumentParsing, NoContentText))
    else
      var vectors := BatchOutcome(provider, embeddingModel, ContentsOf(chunks), DefaultBatchSize);
      EmbedBatchesErrorKind(provider, embeddingModel, Batches(ContentsOf(chunks), DefaultBatchSize));
      if vectors.Err? then Err(vectors.error) else Ok(WithEmbeddings(chunks, vectors.value))
  }

  /** The chunks `upload_document` hands to the store, or the error of the
      first step that fails: validate the size of the contents and the name,
      parse, chunk, then embed. */
  function Prepared(filename: string, contents: seq<bv8>, extractors: Extractors, provider: Provider,
                    embeddingModel: string, allowedText: string): Result<seq<Chunk>>
  {
    var checked := ValidateFile(filename, |contents|, DefaultMaxFileSizeMb, allowedText);
    if checked.Err? then Err(checked.error)
    else
      var parsed := ParseOutcome(filename, contents, extractors);
      if parsed.Err? then Err(parsed.error)
      else Embedded(ChunksFor(parsed.value), provider, embeddingModel)
  }

  /** Steps 3 and 4 of `upload_document`: stop on an empty chunk list, else
      embed. */
  method EmbedForUpload(chunks: seq<Chunk>, provider: Provider, embeddingModel: string) returns (r: Result<seq<Chunk>>)
    ensures r == Embedded(chunks, provider, embeddingModel)
  {
    if chunks == [] {
      return Err(Error(DocumentParsing, NoContentText));
    }
    r := EmbedChunks(provider, embeddingModel, chunks);
  }

  /** Steps 1 to 4 of `upload_document`, up to the store. */
  method PrepareUpload(filename: string, contents: seq<bv8>, extractors: Extractors, provider: Provider,
                       embeddingModel: string, allowedText: string)
    returns (r: Result<seq<Chunk>>)
    ensures r == Prepared(filename, contents, extractors, provider, embeddingModel, allowedText)
  {
    var checked := ValidateFile(filename, |contents|, DefaultMaxFileSizeMb, allowedText);
    if checked.Err? {
      return Err(checked.error);
    }
    var parsed := ParseDocument(filename, contents, extractors);
    if parsed.Err? {
      return Err(parsed.error);
    }
    var chunks := ChunkDocument(parsed.value, DefaultChunkSize, DefaultOverlap);
    r := EmbedForUpload(chunks, provider, embeddingModel);
  }

  /** `upload_document`: nothing is stored unless every step succeeds; the
      response reports the id, the name, the byte size and the chunk count. */
  method UploadDocument(store: VectorStore, documentId: string, filename: string, contents: seq<bv8>,
                        extractors: Extractors, provider: Provider, embeddingModel: string, allowedText: string,
                        fault: Option<string>)
    returns (r: Reply<DocumentUploadResponse>)
    requires store.Valid()
    modifies store
    ensures store.Valid()
    ensures var p := Prepared(filename, contents, extractors, provider, embeddingModel, allowedText);
            && (p.Err? ==> r == Failure(UploadError(p.error)) && store.entries == old(store.entries))
            && (p.Ok? && MissingKey(p.value).Some? ==>
                  r == Failure(HttpError(500, "Failed to add document: " + MissingKey(p.value).value))
                  && store.entries == old(store.entries))
            && (p.Ok? && MissingKey(p.value).None? && fault.Some? ==>
                  r == Failure(HttpError(500, "Failed to add document: " + fault.value))
                  && store.entries == old(store.entries))
            && (p.Ok? && MissingKey(p.value).None? && fault.None? ==>
                  r == Success(DocumentUploadResponse(documentId, filename, |contents|, |p.value|))
                  && store.entries == old(store.entries) + NewEntries(documentId, p.value))
  {
    var prepared := PrepareUpload(filename, contents, extractors, provider, embeddingModel, allowedText);
    if prepared.Err? {
      return Failure(UploadError(prepared.error));
    }
    var chunks := prepared.value;
    var stored := store.AddDocument(documentId, chunks, fault);
    if stored.Err? {
      return Failure(UploadError(stored.error));
    }
    r := Success(DocumentUploadResponse(documentId, filename, |contents|, |chunks|));
  }

  /** The steps run in order: a file that fails validation is neither parsed
      nor embedded, whatever the readers and the provider would do, and is
      answered with 400. */
  lemma ValidationComesFirst(filename: string, contents: seq<bv8>, e1: Extractors, e2: Extractors,
                             p1: Provider, p2: Provider, embeddingModel: string, allowedText: string)
    requires ValidateFile(filename, |contents|, DefaultMaxFileSizeMb, allowedText).Err?
    ensures Prepared(filename, contents, e1, p1, embeddingModel, allowedText) == Prepared(filename, contents, e2, p2, embeddingModel, allowedText)
    ensures UploadError(Prepared(filename, contents, e1, p1, embeddingModel, allowedText).error).status == 400
  {
  }

  /** A document with no text to chunk is answered with 422 before any
      embedding: the provider is never consulted. A text file whose decoded
      content is blank is such a document. */
  lemma BlankTextIsUnprocessable(text: string, p1: Provider, p2: Provider, embeddingModel: string)
    requires IsBlank(text)
    ensures Embedded(ChunksFor(TextDocument(text)), p1, embeddingModel)
              == Embedded(ChunksFor(TextDocument(text)), p2, embeddingModel)
              == Err(Error(DocumentParsing, NoContentText))
    ensures UploadError(Embedded(ChunksFor(TextDocument(text)), p1, embeddingModel).error) == HttpError(422, NoContentText)
  {
    ChunksOfProperties(text, Some(map[]), DefaultChunkSize, DefaultOverlap);
    assert UnnumberedChunks(TextDocument(text), DefaultChunkSize, DefaultOverlap) == [];
  }

  /** The errors an upload can end with before the store is reached are
      validation, parsing and embedding errors, so each is answered with its
      own message: 400, 422 or 500. */
  lemma UploadErrorsKeepMessages(filename: string, contents: seq<bv8>, extractors: Extractors, provider: Provider,
                                 embeddingModel: string, allowedText: string)
    requires Prepared(filename, contents, extractors, provider, embeddingModel, allowedText).Err?
    ensures var e := Prepared(filename, contents, extractors, provider, embeddingModel, allowedText).error;
            && e.kind in {FileValidation, DocumentParsing, EmbeddingGeneration}
            && UploadError(e) == HttpError(if e.kind == FileValidation then 400
                                           else if e.kind == DocumentParsing then 422 else 500, e.message)
  {
  }

  /** The chunks handed to the store carry the ids of their positions; when
      the provider gave a vector for every chunk, every chunk can be stored. */
  lemma EmbeddedChunksStorable(chunks: seq<Chunk>, provider: Provider, embeddingModel: string)
    requires Embedded(Numbered(chunks), provider, embeddingModel).Ok?
    ensures var stored := Embedded(Numbered(chunks), provider, embeddingModel).value;
            forall k :: 0 <= k < |stored| ==> stored[k].chunkId == Some(ChunkIdFor(k))
    ensures var vectors := BatchOutcome(provider, embeddingModel, ContentsOf(Numbered(chunks)), DefaultBatchSize);
            vectors.Ok? && |vectors.value| >= |chunks| ==>
              MissingKey(Embedded(Numbered(chunks), provider, embeddingModel).value).None?
  {
    var vectors := BatchOutcome(provider, embeddingModel, ContentsOf(Numbered(chunks)), DefaultBatchSize);
    var stored := WithEmbeddings(Numbered(chunks), vectors.value);
    assert Embedded(Numbered(chunks), provider, embeddingModel).value == stored;
    if |vectors.value| >= |chunks| {
      assert Storable(stored);
    }
  }

  // ---------------------------------------------------------------------------
  // query_documents

  /** The handlers of `query_documents`: every error is a 500; the
      embedding, storage and model errors keep their message. */
  function QueryError(e: Error): (h: HttpError)
    ensures h.status == 500
    ensures e.kind in {EmbeddingGeneration, VectorStore, LLM} ==> h.detail == e.message
    ensures e.kind !in {EmbeddingGeneration, VectorStore, LLM} ==> h.detail == QueryFailedText
  {
    if e.kind in {EmbeddingGeneration, VectorStore, LLM} then HttpError(500, e.message)
    else HttpError(500, QueryFailedText)
  }

  /** The text of a source: its first 200 characters and `...` when it is
      longer, else all of it. */
  function Preview(content: string): (p: string)
    ensures |content| <= PreviewLength ==> p == content
    ensures |content| > PreviewLength ==>
              |p| == PreviewLength + 3 && p[..PreviewLength] == content[..PreviewLength] && p[PreviewLength..] == "..."
  {
    if |content| > PreviewLength then content[..PreviewLength] + "..." else content
  }

  /** `metadata.get('page_number')`. */
  function PageNumberOf(metadata: Metadata): (n: Option<MetaValue>)
    ensures n.Some? <==> "page_number" in metadata
    ensures n.Some? ==> n.value == metadata["page_number"]
  {
    if "page_number" in metadata then Some(metadata["page_number"]) else None
  }

  /** The sources of a response, one per hit in the order of the hits. */
  function Sources(hits: seq<Hit>): (s: seq<SourceChunk>)
    ensures |s| == |hits|
    ensures forall k :: 0 <= k < |hits| ==>
              && s[k].content == Preview(hits[k].content) && s[k].similarity == hits[k].similarity
              && s[k].chunkId == hits[k].chunkId && s[k].pageNumber == PageNumberOf(hits[k].metadata)
  {
    seq(|hits|, k requires 0 <= k < |hits| =>
      SourceChunk(Preview(hits[k].content), hits[k].similarity, hits[k].chunkId, PageNumberOf(hits[k].metadata)))
  }

  /** The hits of a query: the query vector, then the store searched with the
      request's `top_k` and document filter and the similarity floor. */
  function QueryHits(request: QueryRequest, entries: map<string, Entry>, embedder: Provider, embeddingModel: string,
                     engine: Engine): Result<seq<Hit>>
  {
    var vector := GenerateQueryEmbedding(embedder, embeddingModel, request.query);
    if vector.Err? then Err(vector.error)
    else SearchOutcome(engine(entries, vector.value, request.topK, WhereFilter(request.documentId)), MinSimilarity)
  }

  /** The response to hits that exist: the model's answer over them, with
      the configured model name and the estimated token total. */
  function Answered(request: QueryRequest, hits: seq<Hit>, generator: Generator, llmModel: string,
                    relevance: real -> string): Reply<QueryResponse>
  {
    var prompt := PromptOf(request.query, hits, relevance);
    var reply := generator(LlmService.RequestFor(llmModel, prompt));
    if reply.Raised? then Failure(QueryError(Error(LLM, "Failed to generate answer: " + reply.message)))
    else Success(QueryResponse(reply.value, Sources(hits), llmModel, Usage(llmModel, prompt, reply.value).tokensUsed))
  }

  /** What `query_documents` answers. */
  function QueryOutcome(request: QueryRequest, entries: map<string, Entry>, embedder: Provider, embeddingModel: string,
                        engine: Engine, generator: Generator, llmModel: string, relevance: real -> string)
    : (r: Reply<QueryResponse>)
    ensures r.Failure? ==> r.error.status == 500
    ensures r.Success? && r.value.modelUsed != llmModel ==> r.value.modelUsed == NoModel && r.value.sources == []
  {
    var hits := QueryHits(request, entries, embedder, embeddingModel, engine);
    if hits.Err? then Failure(QueryError(hits.error))
    else if hits.value == [] then Success(QueryResponse(NoResultsAnswer, [], NoModel, 0))
    else Answered(request, hits.value, generator, llmModel, relevance)
  }

  /** Steps 1 and 2 of `query_documents`. */
  method FindHits(store: VectorStore, request: QueryRequest, embedder: Provider, embeddingModel: string, engine: Engine)
    returns (r: Result<seq<Hit>>)
    ensures r == QueryHits(request, store.entries, embedder, embeddingModel, engine)
  {
    var queryEmbedding := GenerateQueryEmbedding(embedder, embeddingModel, request.query);
    if queryEmbedding.Err? {
      return Err(queryEmbedding.error);
    }
    r := store.Search(engine, queryEmbedding.value, request.topK, request.documentId, MinSimilarity);
  }

  /** The comprehension over the hits that builds the sources. */
  method CollectSources(hits: seq<Hit>) returns (sources: seq<SourceChunk>)
    ensures sources == Sources(hits)
  {
    sources := [];
    for k := 0 to |hits|
      invariant sources == Sources(hits[..k])
    {
      var chunk := hits[k];
      sources := sources + [SourceChunk(Preview(chunk.content), chunk.similarity, chunk.chunkId,
                                        PageNumberOf(chunk.metadata))];
    }
    assert hits[..|hits|] == hits;
  }

  /** Step 3 of `query_documents` and the response. */
  method AnswerHits(request: QueryRequest, hits: seq<Hit>, generator: Generator, llmModel: string,
                    relevance: real -> string)
    returns (r: Reply<QueryResponse>)
    ensures r == Answered(request, hits, generator, llmModel, relevance)
  {
    var llmResult := GenerateAnswer(generator, llmModel, request.query, hits, relevance);
    if llmResult.Err? {
      return Failure(QueryError(llmResult.error));
    }
    var sources := CollectSources(hits);
    r := Success(QueryResponse(llmResult.value.answer, sources, llmResult.value.metadata.model,
                               llmResult.value.metadata.tokensUsed));
  }

  /** `query_documents`; the store is only read. */
  method QueryDocuments(store: VectorStore, request: QueryRequest, embedder: Provider, embeddingModel: string,
                        engine: Engine, generator: Generator, llmModel: string, relevance: real -> string)
    returns (r: Reply<QueryResponse>)
    ensures r == QueryOutcome(request, store.entries, embedder, embeddingModel, engine, generator, llmModel, relevance)
  {
    var similarChunks := FindHits(store, request, embedder, embeddingModel, engine);
    if similarChunks.Err? {
      return Failure(QueryError(similarChunks.error));
    }
    if similarChunks.value == [] {
      return Success(QueryResponse(NoResultsAnswer, [], NoModel, 0));
    }
    r := AnswerHits(request, similarChunks.value, generator, llmModel, relevance);
  }

  /** Without hits the model is not asked: the answer is the fixed text with
      no sources, no model and no tokens, whatever the model would say. */
  lemma NoHitsNoModelCall(request: QueryRequest, entries: map<string, Entry>, embedder: Provider,
                          embeddingModel: string, engine: Engine, g1: Generator, g2: Generator, llmModel: string,
                          relevance: real -> string)
    requires QueryHits(request, entries, embedder, embeddingModel, engine) == Ok([])
    ensures QueryOutcome(request, entries, embedder, embeddingModel, engine, g1, llmModel, relevance)
              == QueryOutcome(request, entries, embedder, embeddingModel, engine, g2, llmModel, relevance)
              == Success(QueryResponse(NoResultsAnswer, [], NoModel, 0))
  {
  }

  /** With hits, the response cites every hit in order and reports the
      model's answer; a failure of the model is a 500 that keeps the
      `LLMError` text. */
  lemma HitsAreCited(request: QueryRequest, entries: map<string, Entry>, embedder: Provider, embeddingModel: string,
                     engine: Engine, generator: Generator, llmModel: string, relevance: real -> string)
    requires QueryHits(request, entries, embedder, embeddingModel, engine).Ok?
    requires QueryHits(request, entries, embedder, embeddingModel, engine).value != []
    ensures var hits := QueryHits(request, entries, embedder, embeddingModel, engine).value;
            var reply := generator(LlmService.RequestFor(llmModel, PromptOf(request.query, hits, relevance)));
            var r := QueryOutcome(request, entries, embedder, embeddingModel, engine, generator, llmModel, relevance);
            && (reply.Returned? ==> r.Success? && r.value.answer == reply.value && r.value.sources == Sources(hits)
                                    && r.value.modelUsed == llmModel && |r.value.sources| == |hits|)
            && (reply.Raised? ==> r == Failure(HttpError(500, "Failed to generate answer: " + reply.message)))
  {
  }

  /** A source is shortened only when its text is longer than 200
      characters, and never beyond 203. */
  lemma PreviewBounds(content: string)
    ensures |Preview(content)| <= PreviewLength + 3
    ensures |Preview(content)| == |content| <==> |content| <= PreviewLength || |content| == PreviewLength + 3
    ensures Preview(content)[..Min(|content|, PreviewLength)] == content[..Min(|content|, PreviewLength)]
  {
  }

  // ---------------------------------------------------------------------------
  // health_check and delete_document

  /** `health_check`: healthy with the record count, or unhealthy with 0 when
      the store cannot be reached (`fault`). */
  method HealthCheck(store: VectorStore, fault: Option<string>) returns (h: HealthResponse)
    ensures h.status == "healthy" <==> fault.None?
    ensures h.status != "healthy" ==> h == HealthResponse("unhealthy", 0)
    ensures fault.None? ==> h.documentsStored == |store.entries|
  {
    if fault.Some? {
      return HealthResponse("unhealthy", 0);
    }
    h := HealthResponse("healthy", store.Count());
  }

  /** `delete_document`: the records of the document are removed, or a
      failing store answers 500 with its message. */
  method DeleteDocument(store: VectorStore, documentId: string, fault: Option<string>) returns (r: Reply<string>)
    requires store.Valid()
    modifies store
    ensures store.Valid()
    ensures fault.Some? ==>
              r == Failure(HttpError(500, "Delete failed: " + fault.value)) && store.entries == old(store.entries)
    ensures fault.None? ==>
              r == Success("Document " + documentId + " deleted successfully")
              && store.entries == Remaining(old(store.entries), documentId)
  {
    var deleted := store.DeleteDocument(documentId, fault);
    if deleted.Err? {
      return Failure(HttpError(500, deleted.error.message));
    }
    r := Success("Document " + documentId + " deleted successfully");
  }
}
