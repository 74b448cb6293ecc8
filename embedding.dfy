/** The embedding batcher (app/services/embedding_service.py). The provider's
    `embed_content` is foreign code: it is a function from the model name, the
    content and the task type to a reply that may hold `embeddings`,
    `embedding`, both or neither, or to a raised exception. */
module Embedding {
  import opened Common
  import opened Text
  import opened Chunking

  /** `batch_size` of `generate_embeddings_batch` when `embed_chunks` calls it. */
  const DefaultBatchSize: int := 100

  datatype TaskType = RetrievalDocument | RetrievalQuery

  /** What is sent: one text, or a list of texts. */
  datatype Content = Single(text: string) | Many(texts: seq<string>)

  /** The keys of the reply dictionary the service reads. */
  datatype EmbedReply = EmbedReply(embeddings: Option<seq<Vector>>, embedding: Option<Vector>)

  type Provider = (string, Content, TaskType) -> Call<EmbedReply>

  /** `str(KeyError('embedding'))`, the text of the missing-key error. */
  const MissingEmbeddingKey: string := "'embedding'"

  /** The single-text embedders: the reply's `embedding`, or an
      `EmbeddingGenerationError` whose message starts with `prefix` when the
      call raises or the key is missing. */
  function SingleOutcome(reply: Call<EmbedReply>, prefix: string): (r: Result<Vector>)
    ensures r.Ok? <==> reply.Returned? && reply.value.embedding.Some?
    ensures r.Ok? ==> r.value == reply.value.embedding.value
    ensures r.Err? ==> r.error.kind == EmbeddingGeneration && |prefix| <= |r.error.message|
                       && r.error.message[..|prefix|] == prefix
  {
    match reply
    case Raised(msg) => Err(Error(EmbeddingGeneration, prefix + msg))
    case Returned(rep) =>
      if rep.embedding.Some? then Ok(rep.embedding.value)
      else Err(Error(EmbeddingGeneration, prefix + MissingEmbeddingKey))
  }

  /** `generate_embedding`: one text, sent as a document; the reply's
      `embedding`, else an `EmbeddingGenerationError`. */
  function GenerateEmbedding(provider: Provider, model: string, text: string): (r: Result<Vector>)
    ensures var reply := provider(model, Single(text), RetrievalDocument);
            && (r.Ok? <==> reply.Returned? && reply.value.embedding.Some?)
            && (r.Ok? ==> r.value == reply.value.embedding.value)
            && (r.Err? ==> r.error.kind == EmbeddingGeneration)
            && (reply.Raised? ==> r.error.message == "Failed to generate embedding: " + reply.message)
  {
    SingleOutcome(provider(model, Single(text), RetrievalDocument), "Failed to generate embedding: ")
  }

  /** `generate_query_embedding`: the same, sent as a query. */
  function GenerateQueryEmbedding(provider: Provider, model: string, text: string): (r: Result<Vector>)
    ensures var reply := provider(model, Single(text), RetrievalQuery);
            && (r.Ok? <==> reply.Returned? && reply.value.embedding.Some?)
            && (r.Ok? ==> r.value == reply.value.embedding.value)
            && (r.Err? ==> r.error.kind == EmbeddingGeneration)
            && (reply.Raised? ==> r.error.message == "Failed to generate query embedding: " + reply.message)
  {
    SingleOutcome(provider(model, Single(text), RetrievalQuery), "Failed to generate query embedding: ")
  }

  function Min(a: int, b: int): int {
    if a <= b then a else b
  }

  /** The slices `texts[i:i + batchSize]` for `i` in `range(0, len(texts), batchSize)`. */
  function Batches(texts: seq<string>, batchSize: nat): seq<seq<string>>
    requires batchSize > 0
    decreases |texts|
  {
    if texts == [] then [] else [texts[..Min(batchSize, |texts|)]] + Batches(texts[Min(batchSize, |texts|)..], batchSize)
  }

  /** The batches, concatenated, are the input, in order. */
  lemma {:induction false} BatchesConcat(texts: seq<string>, batchSize: nat)
    requires batchSize > 0
    ensures Concat(Batches(texts, batchSize)) == texts
    decreases |texts|
  {
    if texts != [] {
      var m := Min(batchSize, |texts|);
      var rest := texts[m..];
      BatchesConcat(rest, batchSize);
      assert Batches(texts, batchSize) == [texts[..m]] + Batches(rest, batchSize);
      ConcatAppend([texts[..m]], Batches(rest, batchSize));
      assert Concat([texts[..m]]) == Concat([]) + texts[..m];
      assert texts[..m] + rest == texts;
    }
  }

  /** There are ⌈n / batchSize⌉ batches (the fewest whose capacity holds
      all n texts), each non-empty and of at most `batchSize` texts, all but
      the last of exactly `batchSize`. */
  lemma BatchesSizes(texts: seq<string>, batchSize: nat)
    requires batchSize > 0
    ensures |texts| <= |Batches(texts, batchSize)| * batchSize < |texts| + batchSize
    ensures forall k :: 0 <= k < |Batches(texts, batchSize)| ==>
              0 < |Batches(texts, batchSize)[k]| <= batchSize
    ensures forall k :: 0 <= k < |Batches(texts, batchSize)| - 1 ==> |Batches(texts, batchSize)[k]| == batchSize
  {
    BatchCount(texts, batchSize);
    BatchLengths(texts, batchSize);
  }

  lemma {:induction false} BatchCount(texts: seq<string>, batchSize: nat)
    requires batchSize > 0
    ensures |texts| <= |Batches(texts, batchSize)| * batchSize < |texts| + batchSize
    decreases |texts|
  {
    if texts != [] {
      var m := Min(batchSize, |texts|);
      var rest := texts[m..];
      BatchCount(rest, batchSize);
      var n := |Batches(rest, batchSize)|;
      assert |Batches(texts, batchSize)| == n + 1;
      assert (n + 1) * batchSize == n * batchSize + batchSize;
      if m < batchSize {
        assert rest == [];
      }
    }
  }

  lemma {:induction false} BatchLengths(texts: seq<string>, batchSize: nat)
    requires batchSize > 0
    ensures forall k :: 0 <= k < |Batches(texts, batchSize)| ==>
              0 < |Batches(texts, batchSize)[k]| <= batchSize
    ensures forall k :: 0 <= k < |Batches(texts, batchSize)| - 1 ==> |Batches(texts, batchSize)[k]| == batchSize
    decreases |texts|
  {
    if texts != [] {
      var m := Min(batchSize, |texts|);
      var rest := texts[m..];
      BatchLengths(rest, batchSize);
      var bs := Batches(texts, batchSize);
      var tail := Batches(rest, batchSize);
      assert bs == [texts[..m]] + tail;
      forall k | 0 < k < |bs| ensures bs[k] == tail[k - 1] { }
      if m < batchSize {
        assert rest == [];
      }
    }
  }

  /** The vectors one batch contributes: its `embeddings`, or its single
      `embedding` when there is no `embeddings` key; with no length check. */
  function BatchVectors(reply: Call<EmbedReply>): (r: Result<seq<Vector>>)
    ensures r.Err? ==> r.error.kind == EmbeddingGeneration
    ensures reply.Returned? && reply.value.embeddings.None? && r.Ok? ==> |r.value| == 1
  {
    match reply
    case Raised(msg) => Err(Error(EmbeddingGeneration, "Batch embedding failed: " + msg))
    case Returned(rep) =>
      if rep.embeddings.Some? then Ok(rep.embeddings.value)
      else if rep.embedding.Some? then Ok([rep.embedding.value])
      else Err(Error(EmbeddingGeneration, "Batch embedding failed: " + MissingEmbeddingKey))
  }

  function BatchReply(provider: Provider, model: string, batch: seq<string>): Call<EmbedReply> {
    provider(model, Many(batch), RetrievalDocument)
  }

  /** Embed the batches in order, stopping at the first failure. */
  function EmbedBatches(provider: Provider, model: string, batches: seq<seq<string>>): Result<seq<Vector>> {
    if batches == [] then Ok([])
    else
      match BatchVectors(BatchReply(provider, model, batches[0]))
      case Err(e) => Err(e)
      case Ok(vs) =>
        match EmbedBatches(provider, model, batches[1..])
        case Err(e) => Err(e)
        case Ok(rest) => Ok(vs + rest)
  }

  /** A failure of the batches is the failure of one batch: an
      `EmbeddingGenerationError`. */
  lemma {:induction false} EmbedBatchesErrorKind(provider: Provider, model: string, batches: seq<seq<string>>)
    ensures EmbedBatches(provider, model, batches).Err? ==>
              EmbedBatches(provider, model, batches).error.kind == EmbeddingGeneration
    decreases |batches|
  {
    if batches != [] {
      EmbedBatchesErrorKind(provider, model, batches[1..]);
    }
  }

  /** The vectors of every batch, in batch order (meaningful when all succeed). */
  function AllBatchVectors(provider: Provider, model: string, batches: seq<seq<string>>): seq<Vector>
    requires forall k :: 0 <= k < |batches| ==> BatchVectors(BatchReply(provider, model, batches[k])).Ok?
  {
    if batches == [] then []
    else BatchVectors(BatchReply(provider, model, batches[0])).value + AllBatchVectors(provider, model, batches[1..])
  }

  /** Batched embedding succeeds exactly when every batch does, and then
      returns every batch's vectors concatenated in batch order; otherwise it
      fails with the error of the first failing batch, and no partial list is
      returned. */
  lemma {:induction false} EmbedBatchesCharacterized(provider: Provider, model: string, batches: seq<seq<string>>)
    ensures EmbedBatches(provider, model, batches).Ok? <==>
              forall k :: 0 <= k < |batches| ==> BatchVectors(BatchReply(provider, model, batches[k])).Ok?
    ensures EmbedBatches(provider, model, batches).Ok? ==>
              EmbedBatches(provider, model, batches).value == AllBatchVectors(provider, model, batches)
    ensures EmbedBatches(provider, model, batches).Err? ==>
              exists k :: 0 <= k < |batches|
                && (forall j :: 0 <= j < k ==> BatchVectors(BatchReply(provider, model, batches[j])).Ok?)
                && BatchVectors(BatchReply(provider, model, batches[k])) == EmbedBatches(provider, model, batches)
  {
    if batches != [] {
      var tail := batches[1..];
      EmbedBatchesCharacterized(provider, model, tail);
      forall k | 0 < k < |batches| ensures batches[k] == tail[k - 1] { }
      var head := BatchVectors(BatchReply(provider, model, batches[0]));
      if head.Ok? && EmbedBatches(provider, model, tail).Err? {
        var k :| 0 <= k < |tail|
          && (forall j :: 0 <= j < k ==> BatchVectors(BatchReply(provider, model, tail[j])).Ok?)
          && BatchVectors(BatchReply(provider, model, tail[k])) == EmbedBatches(provider, model, tail);
        assert batches[k + 1] == tail[k];
        assert forall j :: 0 <= j < k + 1 ==> BatchVectors(BatchReply(provider, model, batches[j])).Ok? by {
          forall j | 0 < j < k + 1 ensures BatchVectors(BatchReply(provider, model, batches[j])).Ok? {
            assert batches[j] == tail[j - 1];
          }
        }
      }
    }
  }

  /** Where every reply holds one vector per text, the output has one vector
      per input text. */
  lemma {:induction false} OneVectorPerText(provider: Provider, model: string, batches: seq<seq<string>>)
    requires forall k :: 0 <= k < |batches| ==>
               var reply := BatchReply(provider, model, batches[k]);
               reply.Returned? && reply.value.embeddings.Some? && |reply.value.embeddings.value| == |batches[k]|
    ensures EmbedBatches(provider, model, batches).Ok?
    ensures |EmbedBatches(provider, model, batches).value| == |Concat(batches)|
  {
    if batches != [] {
      var tail := batches[1..];
      assert forall k :: 0 <= k < |tail| ==> tail[k] == batches[k + 1];
      OneVectorPerText(provider, model, tail);
      assert batches == [batches[0]] + tail;
      ConcatAppend([batches[0]], tail);
      assert Concat([batches[0]]) == Concat([]) + batches[0];
    }
  }

  /** What `generate_embeddings_batch(texts, batchSize)` returns. A zero step
      makes `range` raise `ValueError` before any call; a negative step gives
      an empty range. */
  function BatchOutcome(provider: Provider, model: string, texts: seq<string>, batchSize: int): Result<seq<Vector>> {
    if batchSize == 0 then Err(Error(ValueError, "range() arg 3 must not be zero"))
    else if batchSize < 0 then Ok([])
    else EmbedBatches(provider, model, Batches(texts, batchSize))
  }

  /** Continue a result with vectors already gathered in front. */
  function Prepend(acc: seq<Vector>, r: Result<seq<Vector>>): Result<seq<Vector>> {
    if r.Ok? then Ok(acc + r.value) else r
  }

  lemma PrependNothing(r: Result<seq<Vector>>)
    ensures Prepend([], r) == r
  {
    if r.Ok? {
      assert [] + r.value == r.value;
    }
  }

  /** Embedding a first batch and then the rest. */
  lemma EmbedBatchesCons(provider: Provider, model: string, batch: seq<string>, rest: seq<seq<string>>, acc: seq<Vector>)
    ensures BatchVectors(BatchReply(provider, model, batch)).Err? ==>
              Prepend(acc, EmbedBatches(provider, model, [batch] + rest)) == BatchVectors(BatchReply(provider, model, batch))
    ensures BatchVectors(BatchReply(provider, model, batch)).Ok? ==>
              Prepend(acc, EmbedBatches(provider, model, [batch] + rest))
                == Prepend(acc + BatchVectors(BatchReply(provider, model, batch)).value, EmbedBatches(provider, model, rest))
  {
    var bs := [batch] + rest;
    assert bs[0] == batch && bs[1..] == rest;
    var head := BatchVectors(BatchReply(provider, model, batch));
    var tail := EmbedBatches(provider, model, rest);
    if head.Ok? && tail.Ok? {
      assert acc + (head.value + tail.value) == acc + head.value + tail.value;
    }
  }

  lemma BatchesStep(texts: seq<string>, i: nat, batchSize: nat)
    requires batchSize > 0 && i < |texts|
    ensures Batches(texts[i..], batchSize)
              == [texts[i..Min(i + batchSize, |texts|)]] + Batches(texts[Min(i + batchSize, |texts|)..], batchSize)
  {
    var rest := texts[i..];
    assert rest[..Min(batchSize, |rest|)] == texts[i..Min(i + batchSize, |texts|)];
    assert rest[Min(batchSize, |rest|)..] == texts[Min(i + batchSize, |texts|)..];
  }

  /** `generate_embeddings_batch`: one provider call per batch, in order, a
      pause after every batch that another batch follows, and an abort on the
      first failing batch. `calls` are the batches sent and `pauses` the
      number of waits. */
  method GenerateEmbeddingsBatch(provider: Provider, model: string, texts: seq<string>, batchSize: int)
    returns (r: Result<seq<Vector>>, ghost calls: seq<seq<string>>, ghost pauses: nat)
    ensures r == BatchOutcome(provider, model, texts, batchSize)
    ensures batchSize > 0 && r.Ok? ==> calls == Batches(texts, batchSize)
    ensures batchSize > 0 && r.Err? ==>
              calls != [] && calls <= Batches(texts, batchSize)
              && BatchVectors(BatchReply(provider, model, calls[|calls| - 1])).Err?
    ensures batchSize <= 0 ==> calls == []
    ensures pauses == if calls == [] then 0 else |calls| - 1
  {
    if batchSize == 0 {
      return Err(Error(ValueError, "range() arg 3 must not be zero")), [], 0;
    }
    if batchSize < 0 {
      return Ok([]), [], 0;
    }
    r, calls, pauses := BatchLoop(provider, model, texts, batchSize);
  }

  /** The loop of `generate_embeddings_batch` for a positive step. */
  method BatchLoop(provider: Provider, model: string, texts: seq<string>, batchSize: nat)
    returns (r: Result<seq<Vector>>, ghost calls: seq<seq<string>>, ghost pauses: nat)
    requires batchSize > 0
    ensures r == EmbedBatches(provider, model, Batches(texts, batchSize))
    ensures r.Ok? ==> calls == Batches(texts, batchSize)
    ensures r.Err? ==>
              calls != [] && calls <= Batches(texts, batchSize)
              && BatchVectors(BatchReply(provider, model, calls[|calls| - 1])).Err?
    ensures pauses == if calls == [] then 0 else |calls| - 1
  {
    calls := [];
    pauses := 0;
    var allEmbeddings: seq<Vector> := [];
    var i := 0;
    assert texts[0..] == texts;
    PrependNothing(EmbedBatches(provider, model, Batches(texts, batchSize)));
    while i < |texts|
      invariant 0 <= i <= |texts|
      invariant calls + Batches(texts[i..], batchSize) == Batches(texts, batchSize)
      invariant Prepend(allEmbeddings, EmbedBatches(provider, model, Batches(texts[i..], batchSize)))
                == EmbedBatches(provider, model, Batches(texts, batchSize))
      invariant pauses == if i < |texts| then |calls| else if calls == [] then 0 else |calls| - 1
      decreases |texts| - i
    {
      var next := Min(i + batchSize, |texts|);
      var batch := texts[i..next];
      BatchesStep(texts, i, batchSize);
      ghost var remaining := Batches(texts[next..], batchSize);
      EmbedBatchesCons(provider, model, batch, remaining, allEmbeddings);
      var result := provider(model, Many(batch), RetrievalDocument);
      calls := calls + [batch];
      assert calls + remaining == Batches(texts, batchSize);
      var vectors := BatchVectors(result);
      if vectors.Err? {
        return vectors, calls, pauses;
      }
      allEmbeddings := allEmbeddings + vectors.value;
      if i + batchSize < |texts| {
        pauses := pauses + 1;
      }
      i := next;
    }
    assert Batches(texts[i..], batchSize) == [];
    assert calls == Batches(texts, batchSize);
    assert EmbedBatches(provider, model, []) == Ok([]);
    assert allEmbeddings + [] == allEmbeddings;
    r := Ok(allEmbeddings);
  }

  /** `embed_chunks`: chunk `k` gets vector `k`, for as many positions as both
      lists have (`zip` truncates); every other field and every chunk beyond
      the vectors is unchanged. A batching failure propagates. */
  method EmbedChunks(provider: Provider, model: string, chunks: seq<Chunk>) returns (r: Result<seq<Chunk>>)
    ensures BatchOutcome(provider, model, ContentsOf(chunks), DefaultBatchSize).Err? ==>
              r == Err(BatchOutcome(provider, model, ContentsOf(chunks), DefaultBatchSize).error)
    ensures BatchOutcome(provider, model, ContentsOf(chunks), DefaultBatchSize).Ok? ==>
              r == Ok(WithEmbeddings(chunks, BatchOutcome(provider, model, ContentsOf(chunks), DefaultBatchSize).value))
  {
    var texts := ContentsOf(chunks);
    var embeddings, _, _ := GenerateEmbeddingsBatch(provider, model, texts, DefaultBatchSize);
    if embeddings.Err? {
      return Err(embeddings.error);
    }
    var vs := embeddings.value;
    var result := chunks;
    for k := 0 to Min(|chunks|, |vs|)
      invariant |result| == |chunks|
      invariant forall j :: 0 <= j < k ==> result[j] == chunks[j].(embedding := Some(vs[j]))
      invariant forall j :: k <= j < |chunks| ==> result[j] == chunks[j]
    {
      result := result[k := result[k].(embedding := Some(vs[k]))];
    }
    assert result == WithEmbeddings(chunks, vs);
    r := Ok(result);
  }

  /** `zip(chunks, embeddings)` with `chunk['embedding'] = embedding`: chunk
      `k` gets vector `k` for as many positions as both lists have; every
      other field, and every chunk beyond the vectors, is unchanged. */
  function WithEmbeddings(chunks: seq<Chunk>, vectors: seq<Vector>): (r: seq<Chunk>)
    ensures |r| == |chunks|
    ensures forall k :: 0 <= k < |chunks| ==>
              && r[k].content == chunks[k].content && r[k].metadata == chunks[k].metadata
              && r[k].chunkId == chunks[k].chunkId
              && (k < |vectors| ==> r[k].embedding == Some(vectors[k]))
              && (k >= |vectors| ==> r[k] == chunks[k])
  {
    seq(|chunks|, k requires 0 <= k < |chunks| =>
      if k < |vectors| then chunks[k].(embedding := Some(vectors[k])) else chunks[k])
  }

  /** `[chunk['content'] for chunk in chunks]`. */
  function ContentsOf(chunks: seq<Chunk>): (texts: seq<string>)
    ensures |texts| == |chunks| && forall k :: 0 <= k < |chunks| ==> texts[k] == chunks[k].content
  {
    seq(|chunks|, k requires 0 <= k < |chunks| => chunks[k].content)
  }

  /** Empty input makes no provider call and gives no vectors. */
  lemma EmptyInputNoCall(provider: Provider, model: string, batchSize: int)
    requires batchSize != 0
    ensures BatchOutcome(provider, model, [], batchSize) == Ok([])
  {
    if batchSize > 0 {
      assert Batches([], batchSize) == [];
    }
  }
}
