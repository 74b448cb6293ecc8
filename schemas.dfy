/** The request and response models of the HTTP API (app/models/schemas.py).
    Field validation is the part with behaviour: a query of 3 to 500
    characters that is not blank, returned stripped; a `top_k` from 1 to 10,
    5 when absent; an optional document id. */
module Schemas {
  import opened Common
  import opened Text

  /** The bounds of `query` and `top_k`, and the default of `top_k`. */
  const QueryMinLength: nat := 3
  const QueryMaxLength: nat := 500
  const TopKMin: int := 1
  const TopKMax: int := 10
  const DefaultTopK: int := 5

  /** The message of the `query_not_empty` validator. */
  const EmptyQueryText: string := "Query cannot be empty"

  /** A validation error, one per failing field: the length constraints of
      `query`, the error its validator raises, and the bounds of `top_k`. */
  datatype Issue =
    | QueryTooShort
    | QueryTooLong
    | QueryRejected(message: string)
    | TopKTooSmall
    | TopKTooLarge

  /** The outcome of validating a field or a model: the value, or every
      error found. */
  datatype Validated<T> = Valid(value: T) | Invalid(issues: seq<Issue>)

  /** `QueryRequest`; `query` holds the stripped text. */
  datatype QueryRequest = QueryRequest(query: string, documentId: Option<string>, topK: int)

  /** `SourceChunk`: one cited source of an answer; `page_number` is absent
      unless given. */
  datatype SourceChunk = SourceChunk(content: string, similarity: real, chunkId: string,
                                     pageNumber: Option<MetaValue> := None)

  /** `QueryResponse`, without the measured `query_time_ms`. */
  datatype QueryResponse = QueryResponse(answer: string, sources: seq<SourceChunk>, modelUsed: string, tokensUsed: int)

  /** `DocumentUploadResponse`, without the `upload_time` clock reading. */
  datatype DocumentUploadResponse = DocumentUploadResponse(documentId: string, filename: string, sizeBytes: nat,
                                                           chunkCount: nat)

  datatype HealthResponse = HealthResponse(status: string, documentsStored: nat)

  /** The `query` field: the length constraints first, on the text as sent;
      only a text within them reaches the validator, which rejects a blank
      text and returns the others stripped. */
  function CheckQuery(query: string): (r: Validated<string>)
    ensures r.Valid? <==> QueryMinLength <= |query| <= QueryMaxLength && !IsBlank(query)
    ensures r.Valid? ==> r.value == Strip(query) && r.value != [] && |r.value| <= |query|
    ensures r.Valid? ==> !IsSpace(r.value[0]) && !IsSpace(r.value[|r.value| - 1])
    ensures r.Invalid? ==> |r.issues| == 1
    ensures |query| < QueryMinLength ==> r == Invalid([QueryTooShort])
    ensures |query| > QueryMaxLength ==> r == Invalid([QueryTooLong])
  {
    if |query| < QueryMinLength then Invalid([QueryTooShort])
    else if |query| > QueryMaxLength then Invalid([QueryTooLong])
    else if Strip(query) == [] then Invalid([QueryRejected(EmptyQueryText)])
    else Valid(Strip(query))
  }

  /** The `top_k` field: 5 when absent, else an integer from 1 to 10. */
  function CheckTopK(topK: Option<int>): (r: Validated<int>)
    ensures r.Valid? <==> topK.None? || TopKMin <= topK.value <= TopKMax
    ensures r.Valid? ==> TopKMin <= r.value <= TopKMax
    ensures topK.None? ==> r == Valid(DefaultTopK)
    ensures topK.Some? && r.Valid? ==> r.value == topK.value
  {
    match topK
    case None => Valid(DefaultTopK)
    case Some(k) =>
      if k < TopKMin then Invalid([TopKTooSmall])
      else if k > TopKMax then Invalid([TopKTooLarge])
      else Valid(k)
  }

  /** Errors of the fields in declaration order. */
  function IssuesOf<T>(v: Validated<T>): seq<Issue> {
    if v.Invalid? then v.issues else []
  }

  /** Building a `QueryRequest`: every field is checked, and the request
      exists only when none fails; the errors of all failing fields are
      reported together. */
  function ParseQueryRequest(query: string, documentId: Option<string>, topK: Option<int>): (r: Validated<QueryRequest>)
    ensures r.Valid? <==> CheckQuery(query).Valid? && CheckTopK(topK).Valid?
    ensures r.Valid? ==> r.value.query == Strip(query) && r.value.documentId == documentId
                         && TopKMin <= r.value.topK <= TopKMax
    ensures r.Valid? && topK.None? ==> r.value.topK == DefaultTopK
    ensures r.Invalid? ==> r.issues == IssuesOf(CheckQuery(query)) + IssuesOf(CheckTopK(topK)) && r.issues != []
  {
    var q := CheckQuery(query);
    var k := CheckTopK(topK);
    if q.Valid? && k.Valid? then Valid(QueryRequest(q.value, documentId, k.value))
    else Invalid(IssuesOf(q) + IssuesOf(k))
  }

  /** The length constraints apply to the text as sent: a query of three
      characters whose stripped form is one character is accepted. */
  lemma StrippedQueryMayBeShorter(c: char)
    requires !IsSpace(c)
    ensures CheckQuery([c, ' ', ' ']) == Valid([c])
  {
    var q := [c, ' ', ' '];
    assert ' ' in Whitespace;
    assert !IsBlank(q) by { assert q[0] !in Whitespace; }
    assert LeftCut(q, Whitespace) == 0;
    assert q[..2] == [c, ' '] && [c, ' '][..1] == [c];
    assert RightCut([c], Whitespace) == 1;
    assert RightCut([c, ' '], Whitespace) == 1;
    assert RightCut(q, Whitespace) == 1;
    assert q[0..1] == [c];
  }

  /** An accepted query that is still long enough is accepted again
      unchanged: validation is idempotent. */
  lemma CheckQueryIdempotent(query: string)
    requires CheckQuery(query).Valid? && |CheckQuery(query).value| >= QueryMinLength
    ensures CheckQuery(CheckQuery(query).value) == CheckQuery(query)
  {
    StripIdempotent(query);
  }
}
