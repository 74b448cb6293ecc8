/** The vector store façade (app/services/vector_service.py). The Chroma
    collection is the map `entries` owned by `VectorStore`; its
    nearest-neighbour query is foreign code, given as `Engine`, and a failure
    of its add or delete is given as a `fault` message. */
module VectorService {
  import opened Common
  import opened Text
  import opened Chunking

  /** A record of the collection: vector, text and metadata. */
  datatype Entry = Entry(embedding: Vector, document: string, metadata: Metadata)

  /** A formatted search result. */
  datatype Hit = Hit(content: string, similarity: real, metadata: Metadata, chunkId: string)

  /** The lists of a one-query result, as `results[key][0]`: the ids of the
      hits in the engine's order, their distances and metadatas when the result
      holds them, and their texts. */
  datatype QueryResult = QueryResult(
    ids: seq<string>,
    distances: Option<seq<real>>,
    documents: seq<string>,
    metadatas: Option<seq<Metadata>>)

  /** The collection's `query(query_embeddings, n_results, where)`. */
  type Engine = (map<string, Entry>, Vector, int, Option<string>) -> Call<QueryResult>

  /** `str(IndexError)` for a list index out of range. */
  const IndexErrorText: string := "list index out of range"

  /** `f"{document_id}_{chunk['chunk_id']}"`. */
  function CompositeId(documentId: string, chunkId: string): string {
    documentId + "_" + chunkId
  }

  /** The stored metadata: the chunk's own, then `document_id` and `chunk_id`,
      which win over same-named keys. */
  function StoredMetadata(documentId: string, chunk: Chunk): (m: Metadata)
    requires chunk.chunkId.Some?
    ensures "document_id" in m && m["document_id"] == TextValue(documentId)
    ensures "chunk_id" in m && m["chunk_id"] == TextValue(chunk.chunkId.value)
    ensures m.Keys == chunk.metadata.Keys + {"document_id", "chunk_id"}
    ensures forall k :: k in chunk.metadata && k != "document_id" && k != "chunk_id" ==> m[k] == chunk.metadata[k]
  {
    chunk.metadata + map["document_id" := TextValue(documentId), "chunk_id" := TextValue(chunk.chunkId.value)]
  }

  predicate Storable(chunks: seq<Chunk>) {
    forall k :: 0 <= k < |chunks| ==> chunks[k].chunkId.Some? && chunks[k].embedding.Some?
  }

  /** The record `add` writes for one chunk: its vector, its text and the
      merged metadata. */
  function StoredRecord(documentId: string, chunk: Chunk): Entry
    requires chunk.chunkId.Some? && chunk.embedding.Some?
  {
    Entry(chunk.embedding.value, chunk.content, StoredMetadata(documentId, chunk))
  }

  /** The records `add` writes, keyed by composite id; a later chunk with the
      same id replaces an earlier one. */
  function NewEntries(documentId: string, chunks: seq<Chunk>): map<string, Entry>
    requires Storable(chunks)
    decreases |chunks|
  {
    if chunks == [] then map[]
    else
      var c := chunks[|chunks| - 1];
      NewEntries(documentId, chunks[..|chunks| - 1])[CompositeId(documentId, c.chunkId.value) := StoredRecord(documentId, c)]
  }

  /** The key error the list comprehensions of `add_document` raise first, if any. */
  function MissingKey(chunks: seq<Chunk>): (r: Option<string>)
    ensures r.None? <==> Storable(chunks)
    ensures r == Some("'chunk_id'") <==> exists k :: 0 <= k < |chunks| && chunks[k].chunkId.None?
  {
    if exists k :: 0 <= k < |chunks| && chunks[k].chunkId.None? then Some("'chunk_id'")
    else if exists k :: 0 <= k < |chunks| && chunks[k].embedding.None? then Some("'embedding'")
    else None
  }

  lemma CompositeIdInjective(documentId: string, a: string, b: string)
    requires CompositeId(documentId, a) == CompositeId(documentId, b)
    ensures a == b
  {
    assert CompositeId(documentId, a)[|documentId| + 1..] == a;
    assert CompositeId(documentId, b)[|documentId| + 1..] == b;
  }

  /** `add` writes only the composite ids of the chunks. */
  lemma {:induction false} NewEntriesKeys(documentId: string, chunks: seq<Chunk>)
    requires Storable(chunks)
    ensures forall id :: id in NewEntries(documentId, chunks) ==>
              exists k :: 0 <= k < |chunks| && id == CompositeId(documentId, chunks[k].chunkId.value)
    decreases |chunks|
  {
    if chunks != [] {
      var n := |chunks|;
      var init := chunks[..n - 1];
      var c := chunks[n - 1];
      NewEntriesKeys(documentId, init);
      forall id | id in NewEntries(documentId, chunks)
        ensures exists k :: 0 <= k < n && id == CompositeId(documentId, chunks[k].chunkId.value)
      {
        if id != CompositeId(documentId, c.chunkId.value) {
          assert id in NewEntries(documentId, init);
          var k :| 0 <= k < n - 1 && id == CompositeId(documentId, init[k].chunkId.value);
          assert init[k] == chunks[k];
        }
      }
    }
  }

  /** With distinct chunk ids, every chunk is stored under its composite id
      with its vector, its text and the merged metadata. */
  lemma {:induction false} NewEntriesValues(documentId: string, chunks: seq<Chunk>)
    requires Storable(chunks)
    requires forall i, j :: 0 <= i < j < |chunks| ==> chunks[i].chunkId != chunks[j].chunkId
    ensures forall k :: 0 <= k < |chunks| ==>
              CompositeId(documentId, chunks[k].chunkId.value) in NewEntries(documentId, chunks)
              && NewEntries(documentId, chunks)[CompositeId(documentId, chunks[k].chunkId.value)]
                 == StoredRecord(documentId, chunks[k])
    decreases |chunks|
  {
    if chunks != [] {
      var n := |chunks|;
      var init := chunks[..n - 1];
      var c := chunks[n - 1];
      assert forall k :: 0 <= k < n - 1 ==> init[k] == chunks[k];
      NewEntriesValues(documentId, init);
      var key := CompositeId(documentId, c.chunkId.value);
      var before := NewEntries(documentId, init);
      assert NewEntries(documentId, chunks) == before[key := StoredRecord(documentId, c)];
      forall k | 0 <= k < n - 1
        ensures CompositeId(documentId, chunks[k].chunkId.value) != key
      {
        if CompositeId(documentId, chunks[k].chunkId.value) == key {
          CompositeIdInjective(documentId, chunks[k].chunkId.value, c.chunkId.value);
        }
      }
    }
  }

  /** A record whose metadata names the document `documentId`. */
  predicate OfDocument(e: Entry, documentId: string) {
    "document_id" in e.metadata && e.metadata["document_id"] == TextValue(documentId)
  }

  /** `where_filter`: only a non-empty `document_id` filters. */
  function WhereFilter(documentId: Option<string>): (f: Option<string>)
    ensures f.Some? <==> documentId.Some? && documentId.value != ""
    ensures f.Some? ==> f == documentId
  {
    if documentId.Some? && documentId.value != "" then documentId else None
  }

  /** The distance of row `i`: the returned one, or 0 when the result holds none. */
  function Distance(q: QueryResult, i: nat): real
    requires q.distances.None? || i < |q.distances.value|
  {
    if q.distances.Some? then q.distances.value[i] else 0.0
  }

  /** Row `i` of the formatting loop: an index error, the row dropped by the
      threshold, or the formatted hit. The dictionary is built in key order,
      so the text is read before the metadata. */
  function Row(q: QueryResult, minSimilarity: real, i: nat): (r: Result<Option<Hit>>)
    requires i < |q.ids|
    ensures r == Ok(None) <==> (q.distances.None? || i < |q.distances.value|) && 1.0 - Distance(q, i) < minSimilarity
    ensures r.Ok? && r.value.Some? ==>
              && (q.distances.None? || i < |q.distances.value|)
              && i < |q.documents| && (q.metadatas.None? || i < |q.metadatas.value|)
              && r.value.value == Hit(q.documents[i], 1.0 - Distance(q, i),
                                      if q.metadatas.Some? then q.metadatas.value[i] else map[], q.ids[i])
              && r.value.value.similarity >= minSimilarity
  {
    if q.distances.Some? && i >= |q.distances.value| then Err(Error(Other, IndexErrorText))
    else
      var similarity := 1.0 - Distance(q, i);
      if similarity < minSimilarity then Ok(None)
      else if i >= |q.documents| then Err(Error(Other, IndexErrorText))
      else if q.metadatas.Some? && i >= |q.metadatas.value| then Err(Error(Other, IndexErrorText))
      else
        var metadata := if q.metadatas.Some? then q.metadatas.value[i] else map[];
        Ok(Some(Hit(q.documents[i], similarity, metadata, q.ids[i])))
  }

  /** The formatting loop over the first `n` rows. */
  function FormatRows(q: QueryResult, minSimilarity: real, n: nat): Result<seq<Hit>>
    requires n <= |q.ids|
  {
    if n == 0 then Ok([])
    else
      match FormatRows(q, minSimilarity, n - 1)
      case Err(e) => Err(e)
      case Ok(prev) =>
        match Row(q, minSimilarity, n - 1)
        case Err(e) => Err(e)
        case Ok(None) => Ok(prev)
        case Ok(Some(h)) => Ok(prev + [h])
  }

  /** The first error stops the loop: later rows do not change it. */
  lemma {:induction false} FormatRowsErrorSticks(q: QueryResult, minSimilarity: real, m: nat, n: nat)
    requires m <= n <= |q.ids|
    requires FormatRows(q, minSimilarity, m).Err?
    ensures FormatRows(q, minSimilarity, n) == FormatRows(q, minSimilarity, m)
    decreases n
  {
    if m < n {
      FormatRowsErrorSticks(q, minSimilarity, m, n - 1);
    }
  }

  /** The indices of the first `n` rows that pass the threshold, in order. */
  function KeptRows(q: QueryResult, minSimilarity: real, n: nat): (kept: seq<nat>)
    requires n <= |q.ids|
    ensures forall k :: 0 <= k < |kept| ==> kept[k] < n
  {
    if n == 0 then []
    else KeptRows(q, minSimilarity, n - 1) + (if Row(q, minSimilarity, n - 1) == Ok(None) then [] else [n - 1])
  }

  lemma {:induction false} KeptRowsSorted(q: QueryResult, minSimilarity: real, n: nat)
    requires n <= |q.ids|
    ensures forall a, b :: 0 <= a < b < |KeptRows(q, minSimilarity, n)| ==>
              KeptRows(q, minSimilarity, n)[a] < KeptRows(q, minSimilarity, n)[b]
  {
    if n > 0 {
      KeptRowsSorted(q, minSimilarity, n - 1);
    }
  }

  lemma {:induction false} KeptRowsMembers(q: QueryResult, minSimilarity: real, n: nat)
    requires n <= |q.ids|
    ensures forall j :: 0 <= j < n ==> (j in KeptRows(q, minSimilarity, n) <==> Row(q, minSimilarity, j) != Ok(None))
  {
    if n > 0 {
      KeptRowsMembers(q, minSimilarity, n - 1);
    }
  }

  /** A successful formatting of `n` rows formats each of them without error. */
  lemma {:induction false} RowsBeforeOk(q: QueryResult, minSimilarity: real, n: nat, j: nat)
    requires j < n <= |q.ids|
    requires FormatRows(q, minSimilarity, n).Ok?
    ensures Row(q, minSimilarity, j).Ok?
    decreases n
  {
    if j < n - 1 {
      RowsBeforeOk(q, minSimilarity, n - 1, j);
    }
  }

  lemma {:induction false} FormatRowsHits(q: QueryResult, minSimilarity: real, n: nat)
    requires n <= |q.ids|
    requires FormatRows(q, minSimilarity, n).Ok?
    ensures |FormatRows(q, minSimilarity, n).value| == |KeptRows(q, minSimilarity, n)|
    ensures forall k :: 0 <= k < |KeptRows(q, minSimilarity, n)| ==>
              Row(q, minSimilarity, KeptRows(q, minSimilarity, n)[k]) == Ok(Some(FormatRows(q, minSimilarity, n).value[k]))
  {
    if n > 0 {
      FormatRowsHits(q, minSimilarity, n - 1);
    }
  }

  /** When the formatting succeeds, the hits are exactly the rows whose
      similarity `1 - distance` reaches the threshold, in the engine's order:
      the kept row indices increase, a row is kept exactly when its similarity
      is at least `minSimilarity`, and each hit carries its row's text,
      similarity, metadata (or `{}`) and stored id. */
  lemma FormatRowsFilter(q: QueryResult, minSimilarity: real, n: nat)
    requires n <= |q.ids|
    requires FormatRows(q, minSimilarity, n).Ok?
    ensures var hits := FormatRows(q, minSimilarity, n).value;
            var kept := KeptRows(q, minSimilarity, n);
            && |hits| == |kept|
            && (forall a, b :: 0 <= a < b < |kept| ==> kept[a] < kept[b])
            && (q.distances.None? || n <= |q.distances.value|)
            && (forall j :: 0 <= j < n ==> (j in kept <==> 1.0 - Distance(q, j) >= minSimilarity))
            && (forall k :: 0 <= k < |kept| ==>
                  && kept[k] < |q.documents| && (q.metadatas.None? || kept[k] < |q.metadatas.value|)
                  && hits[k] == Hit(q.documents[kept[k]], 1.0 - Distance(q, kept[k]),
                                    if q.metadatas.Some? then q.metadatas.value[kept[k]] else map[],
                                    q.ids[kept[k]]))
  {
    forall j | 0 <= j < n ensures Row(q, minSimilarity, j).Ok? {
      RowsBeforeOk(q, minSimilarity, n, j);
    }
    if q.distances.Some? && n > 0 {
      assert Row(q, minSimilarity, n - 1).Ok?;
    }
    KeptRowsSorted(q, minSimilarity, n);
    KeptRowsMembers(q, minSimilarity, n);
    FormatRowsHits(q, minSimilarity, n);
  }

  /** Without distances every row has similarity 1, so every row is kept
      under any threshold up to 1. */
  lemma NoDistancesKeepsAll(q: QueryResult, minSimilarity: real, n: nat)
    requires n <= |q.ids| && q.distances.None? && minSimilarity <= 1.0
    requires FormatRows(q, minSimilarity, n).Ok?
    ensures |FormatRows(q, minSimilarity, n).value| == n
    ensures forall k :: 0 <= k < n ==> FormatRows(q, minSimilarity, n).value[k].similarity == 1.0
  {
    FormatRowsFilter(q, minSimilarity, n);
    var kept := KeptRows(q, minSimilarity, n);
    KeptRowsAll(q, minSimilarity, n);
  }

  lemma {:induction false} KeptRowsAll(q: QueryResult, minSimilarity: real, n: nat)
    requires n <= |q.ids| && q.distances.None? && minSimilarity <= 1.0
    ensures KeptRows(q, minSimilarity, n) == seq(n, j => j)
  {
    if n > 0 {
      KeptRowsAll(q, minSimilarity, n - 1);
      assert Row(q, minSimilarity, n - 1) != Ok(None);
      assert seq(n - 1, j => j) + [n - 1] == seq(n, j => j);
    }
  }

  /** What `search` returns for the engine's reply: an engine failure or an
      index error is a `VectorStoreError`; an empty id list gives no hits. */
  function SearchOutcome(reply: Call<QueryResult>, minSimilarity: real): (r: Result<seq<Hit>>)
    ensures r.Err? ==> r.error.kind == VectorStore
    ensures reply.Returned? && reply.value.ids == [] ==> r == Ok([])
  {
    match reply
    case Raised(msg) => Err(Error(VectorStore, "Search failed: " + msg))
    case Returned(q) =>
      if q.ids == [] then Ok([])
      else
        match FormatRows(q, minSimilarity, |q.ids|)
        case Err(e) => Err(Error(VectorStore, "Search failed: " + e.message))
        case Ok(hits) => Ok(hits)
  }

  class VectorStore {
    /** The collection: composite id to record. */
    var entries: map<string, Entry>

    /** Every record is stored under `document_id + "_" + chunk_id` of its own
        metadata. */
    ghost predicate Valid()
      reads this
    {
      forall id :: id in entries ==>
        var md := entries[id].metadata;
        && "document_id" in md && md["document_id"].TextValue?
        && "chunk_id" in md && md["chunk_id"].TextValue?
        && id == CompositeId(md["document_id"].s, md["chunk_id"].s)
    }

    constructor()
      ensures entries == map[] && Valid()
    {
      entries := map[];
    }

    /** `add_document`: a missing `chunk_id` or `embedding` key, or a failure
        of the collection, is a `VectorStoreError` and nothing is written;
        otherwise every chunk is written under its composite id. */
    method AddDocument(documentId: string, chunks: seq<Chunk>, fault: Option<string>) returns (r: Result<()>)
      requires Valid()
      modifies this
      ensures Valid()
      ensures MissingKey(chunks).Some? ==>
                r == Err(Error(VectorStore, "Failed to add document: " + MissingKey(chunks).value))
                && entries == old(entries)
      ensures MissingKey(chunks).None? && fault.Some? ==>
                r == Err(Error(VectorStore, "Failed to add document: " + fault.value)) && entries == old(entries)
      ensures MissingKey(chunks).None? && fault.None? ==>
                r == Ok(()) && entries == old(entries) + NewEntries(documentId, chunks)
    {
      var missing := MissingKey(chunks);
      if missing.Some? {
        return Err(Error(VectorStore, "Failed to add document: " + missing.value));
      }
      if fault.Some? {
        return Err(Error(VectorStore, "Failed to add document: " + fault.value));
      }
      NewEntriesValid(documentId, chunks);
      entries := entries + NewEntries(documentId, chunks);
      r := Ok(());
    }

    /** `search`: filter only on a non-empty document id, ask the engine for
        `topK` hits, and format them; the store is not changed. */
    method Search(engine: Engine, queryEmbedding: Vector, topK: int, documentId: Option<string>, minSimilarity: real)
      returns (r: Result<seq<Hit>>)
      ensures r == SearchOutcome(engine(entries, queryEmbedding, topK, WhereFilter(documentId)), minSimilarity)
    {
      var reply := engine(entries, queryEmbedding, topK, WhereFilter(documentId));
      if reply.Raised? {
        return Err(Error(VectorStore, "Search failed: " + reply.message));
      }
      var results := reply.value;
      var formatted: seq<Hit> := [];
      if results.ids != [] {
        for i := 0 to |results.ids|
          invariant FormatRows(results, minSimilarity, i) == Ok(formatted)
        {
          var row := Row(results, minSimilarity, i);
          if row.Err? {
            FormatRowsErrorSticks(results, minSimilarity, i + 1, |results.ids|);
            return Err(Error(VectorStore, "Search failed: " + row.error.message));
          }
          if row.value.Some? {
            formatted := formatted + [row.value.value];
          }
        }
      }
      r := Ok(formatted);
    }

    /** `delete_document`: remove every record whose metadata names the
        document; a failure of the collection is a `VectorStoreError` and
        nothing is removed. */
    method DeleteDocument(documentId: string, fault: Option<string>) returns (r: Result<()>)
      requires Valid()
      modifies this
      ensures Valid()
      ensures fault.Some? ==> r == Err(Error(VectorStore, "Delete failed: " + fault.value)) && entries == old(entries)
      ensures fault.None? ==> r == Ok(()) && entries == Remaining(old(entries), documentId)
      ensures forall id :: id in old(entries) && id !in entries ==>
                |id| > |documentId| && id[..|documentId| + 1] == documentId + "_"
    {
      if fault.Some? {
        return Err(Error(VectorStore, "Delete failed: " + fault.value));
      }
      RecordsOfDocumentIds(this, documentId);
      entries := Remaining(entries, documentId);
      r := Ok(());
    }

    /** `get_document_count`: the number of stored records. */
    function Count(): (n: nat)
      reads this
      ensures n == |entries.Keys|
    {
      |entries|
    }
  }

  /** In a consistent store every record of a document is stored under an id
      that starts with the document id and `_`, so a delete removes only ids
      that `add_document` built for that document. */
  lemma RecordsOfDocumentIds(store: VectorStore, documentId: string)
    requires store.Valid()
    ensures forall id :: id in store.entries && OfDocument(store.entries[id], documentId) ==>
              |id| > |documentId| && id[..|documentId| + 1] == documentId + "_"
  {
    forall id | id in store.entries && OfDocument(store.entries[id], documentId)
      ensures |id| > |documentId| && id[..|documentId| + 1] == documentId + "_"
    {
      var md := store.entries[id].metadata;
      assert id == CompositeId(documentId, md["chunk_id"].s);
      CompositeIdPrefix(documentId, md["chunk_id"].s);
    }
  }

  /** A composite id starts with its document id and `_`. */
  lemma CompositeIdPrefix(documentId: string, chunkId: string)
    ensures |CompositeId(documentId, chunkId)| > |documentId|
    ensures CompositeId(documentId, chunkId)[..|documentId| + 1] == documentId + "_"
  {
    assert (documentId + "_" + chunkId)[..|documentId| + 1] == documentId + "_";
  }

  /** The records that do not belong to `documentId`. */
  function Remaining(entries: map<string, Entry>, documentId: string): map<string, Entry> {
    map id | id in entries && !OfDocument(entries[id], documentId) :: entries[id]
  }

  /** After a delete no record of the document is left, every record of
      another document is kept unchanged, and the count drops by the number of
      the document's records. */
  lemma RemainingExact(entries: map<string, Entry>, documentId: string)
    ensures forall id :: id in Remaining(entries, documentId) ==> !OfDocument(Remaining(entries, documentId)[id], documentId)
    ensures forall id :: id in entries && !OfDocument(entries[id], documentId) ==>
              id in Remaining(entries, documentId) && Remaining(entries, documentId)[id] == entries[id]
    ensures |Remaining(entries, documentId)|
              == |entries| - |set id | id in entries && OfDocument(entries[id], documentId)|
  {
    var gone := set id | id in entries && OfDocument(entries[id], documentId);
    var kept := Remaining(entries, documentId);
    assert kept.Keys == entries.Keys - gone;
    assert gone <= entries.Keys;
    SetDifferenceSize(entries.Keys, gone);
  }

  lemma {:induction false} SetDifferenceSize<T>(a: set<T>, b: set<T>)
    requires b <= a
    ensures |a - b| == |a| - |b|
    decreases |b|
  {
    if b != {} {
      var x :| x in b;
      SetDifferenceSize(a - {x}, b - {x});
      assert a - b == (a - {x}) - (b - {x});
    }
  }

  /** The records `add` writes keep the store's key invariant. */
  lemma NewEntriesValid(documentId: string, chunks: seq<Chunk>)
    requires Storable(chunks)
    ensures forall id :: id in NewEntries(documentId, chunks) ==>
              var md := NewEntries(documentId, chunks)[id].metadata;
              && "document_id" in md && md["document_id"].TextValue?
              && "chunk_id" in md && md["chunk_id"].TextValue?
              && id == CompositeId(md["document_id"].s, md["chunk_id"].s)
    decreases |chunks|
  {
    if chunks != [] {
      NewEntriesValid(documentId, chunks[..|chunks| - 1]);
    }
  }
}
