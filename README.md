# Nexus AI Agent: a verified model of the service core

Nexus AI Agent is a retrieval-augmented question-answering service. It takes
PDF, DOCX and text uploads. The upload path validates and parses the file,
splits the text into overlapping sentence chunks, embeds them in batches and
stores them in a vector collection. A question is embedded, the closest chunks
are fetched, and a citation prompt built from them goes to a language model.
Beside that HTTP API there is a four-stage agent pipeline (planner,
researcher, summarizer, report writer) behind a prompt-keyed answer cache,
and a serverless variant that keeps uploaded texts in memory.

This project models that core in Dafny, one module per source file:

| module | source |
|---|---|
| `Common` | the error kinds of `app/core/exceptions.py`, and the reply of a foreign call |
| `Text` | the Python string built-ins the core relies on (`strip`, `join`, `lower`, `replace`) |
| `Chunking` | `app/utils/chunking.py` |
| `Embedding` | `app/services/embedding_service.py` |
| `VectorService` | `app/services/vector_service.py` |
| `LlmService` | `app/services/llm_service.py` |
| `DocumentService` | `app/services/document_service.py` |
| `AgentLlm` | `app/agent/llm.py` |
| `AgentNodes` | `app/agent/nodes.py` |
| `AgentGraph` | `app/agent/graph.py` |
| `Schemas` | `app/models/schemas.py` |
| `Routes` | `app/api/routes.py` |
| `Serverless` | `api/index.py` |

All foreign code becomes a function-typed parameter whose reply is `Call<T>`:
either `Returned(value)` or `Raised(message)`. This covers the embedding and
chat providers, the vector engine's nearest-neighbour query, the PDF and DOCX
text readers, UTF-8 decoding, SHA-256 and the agent's document retrieval. A
store operation that may fail for reasons outside the model (a Chroma error,
a Redis outage) takes an explicit `fault: Option<string>`, or the cache's
`readable`/`writable` flags. Exceptions become `Result<T>` values carrying an
`Error(kind, message)`. The kinds are the repository's five exception classes
plus the built-ins the code can raise: `NameError`, `KeyError`, `ValueError`
and `RuntimeError`.

State that the source changes in place is modelled as classes:
- the Chroma collection (`VectorService.VectorStore`, a map from id to record);
- the Redis cache (`AgentLlm.Cache`);
- the agent's state dictionary (`AgentNodes.AgentState`);
- the serverless `documents_content` dictionary
  (`Serverless.DocumentsContent`, with its insertion order).

Each loop of the source is a method with a `while` or `for` loop. The method
is proved equal to a specification function, and the properties are lemmas
about that function:
- `create_chunks` and its overlap scan;
- `chunk_document`, and the batch loop of `generate_embeddings_batch`;
- the page and paragraph loops of the parsers;
- `create_prompt`, the researcher's note loop, search formatting, and source
  building in the query route.

A chunk can be longer than `chunk_size`. The code adds up only sentence
lengths (app/utils/chunking.py:40,61), so the spaces that join sentences are
not counted. A chunk over the budget is therefore the carried overlap plus
exactly one sentence, and not necessarily a single sentence. `GroupsSound`
states the bound the code keeps. `JoiningSpacesNotCounted` shows a chunk of
`chunk_size + 1` characters.

## Model

Definitions without a contract of their own (the line splitter, the chunking step and carry, the batching, the prompt templates and the like) are specified by the lemmas and methods in the rows that name them.

| member | source | states |
|---|---|---|
| `Chunking.FirstBoundary` | app/utils/chunking.py:17 | the first place at or after `from` where the pattern `(?<=[.!?])\s+` can start; no earlier position qualifies |
| `Chunking.SpaceRunEnd` | app/utils/chunking.py:17 | the end of the whitespace run that `\s+` consumes greedily: everything before it is whitespace and the next character is not |
| `Chunking.RegexSplit` | app/utils/chunking.py:17 | `re.split` always returns at least one piece |
| `Chunking.ConsNoBoundary` | app/utils/chunking.py:17 | a list of cut-free pieces stays cut-free when a cut-free head is added |
| `Chunking.ConsTerminated` | app/utils/chunking.py:17 | a head ending in `.`, `!` or `?` keeps every inner piece terminated |
| `Chunking.ConsNonSpace` | app/utils/chunking.py:17 | the non-space text of a list is that of its head followed by that of its tail |
| `Chunking.HeadHasNoBoundary` | app/utils/chunking.py:17 | the text before the first cut holds no cut point |
| `Chunking.RegexSplitNoBoundary` | app/utils/chunking.py:17 | no piece of the split contains a place where the pattern could match, so the split cuts at every match |
| `Chunking.RegexSplitTerminated` | app/utils/chunking.py:17 | every piece but the last ends with a sentence terminator: the split cuts only after `.`, `!` or `?` |
| `Chunking.RegexSplitKeepsNonSpace` | app/utils/chunking.py:17 | the split drops only whitespace: the non-space characters of the pieces are those of the text, in order |
| `Chunking.StrippedNonBlank` | app/utils/chunking.py:18 | the comprehension keeps no more entries than pieces, each non-empty with no whitespace at either end |
| `Chunking.SplitIntoSentences` | app/utils/chunking.py:14-18 | every sentence is stripped and non-empty |
| `Chunking.StripKeepsNoBoundary` | app/utils/chunking.py:18 | stripping a cut-free piece leaves it cut-free |
| `Chunking.StripKeepsLastChar` | app/utils/chunking.py:18 | stripping keeps a final non-space character, so a terminator survives |
| `Chunking.StrippedNoBoundary` | app/utils/chunking.py:18 | the stripped, non-blank sentences are still cut-free |
| `Chunking.StrippedTerminated` | app/utils/chunking.py:18 | every sentence but the last still ends with a terminator |
| `Chunking.StrippedKeepsNonSpace` | app/utils/chunking.py:18 | stripping and dropping blank pieces loses no non-space character |
| `Chunking.SentencesCharacterized` | app/utils/chunking.py:14-18 | the sentences hold no cut point, all but the last end with a terminator, together they keep every non-space character in order, and there are none exactly when the text is blank |
| `Chunking.StepKeepsCoverage` | app/utils/chunking.py:60 | after each loop step the sentences the chunks add are exactly the sentences processed, with the new one last: no sentence is dropped |
| `Chunking.StepKeepsBudget` | app/utils/chunking.py:40 | a step keeps every chunk within budget, or adding exactly one sentence to its carried overlap |
| `Chunking.StepKeepsLinks` | app/utils/chunking.py:57-58 | a step keeps each chunk carrying the overlap of the chunk before it |
| `Chunking.StepKeepsInvariant` | app/utils/chunking.py:36-61 | one loop step preserves coverage, budget and overlap links together |
| `Chunking.RunKeepsInvariant` | app/utils/chunking.py:36-61 | the loop invariant holds after any number of sentences |
| `Chunking.FinalCover` | app/utils/chunking.py:64-69 | with the final buffer the added sentences are exactly the input, and there are no chunks only for no sentences |
| `Chunking.FinalBounded` | app/utils/chunking.py:64-69 | the final buffer obeys the same budget rule as the flushed chunks |
| `Chunking.FinalLinked` | app/utils/chunking.py:64-69 | the final buffer carries the overlap of the last flushed chunk |
| `Chunking.FinalGroups` | app/utils/chunking.py:63-71 | the final list of chunk groups meets the full chunking specification |
| `Chunking.GroupsSound` | app/utils/chunking.py:31-71 | the chunks cover the sentences in order, each adds at least one, each is within `chunk_size` or adds exactly one sentence, the first carries nothing and each later one carries the overlap of the one before |
| `Chunking.CarryIsLongestFittingSuffix` | app/utils/chunking.py:48-58 | the carried overlap is a suffix of the flushed sentences, fits in `overlap` when non-empty, and every longer suffix exceeds `overlap` |
| `Chunking.CarryIsSuffix` | app/utils/chunking.py:50-52 | the overlap scan takes a suffix of the buffer, in order |
| `Chunking.CarryFits` | app/utils/chunking.py:51-53 | the carried sentences' total length is at most `overlap` |
| `Chunking.SuffixTotal` | app/utils/chunking.py:53 | a suffix's total length is that of the shorter suffix plus the last sentence |
| `Chunking.CarryIsLongest` | app/utils/chunking.py:54-55 | the scan stops only when the next sentence back would exceed `overlap` |
| `Chunking.ContentLength` | app/utils/chunking.py:41 | a chunk's text has the sentence lengths plus one joining space between each pair |
| `Chunking.OverlapTail` | app/utils/chunking.py:48-58 | the inner loop returns the carried overlap and its length total |
| `Chunking.CarryStep` | app/utils/chunking.py:50-55 | one step of the backward scan: take the last sentence if it fits, else stop |
| `Chunking.TailStep` | app/utils/chunking.py:50-55 | the state of the backward scan after taking or refusing one sentence |
| `Chunking.PrependTotal` | app/utils/chunking.py:52-53 | `insert(0, sent)` adds that sentence's length to the total |
| `Chunking.RenderAppend` | app/utils/chunking.py:42-45 | closing a group appends one chunk dictionary with the joined text and the metadata |
| `Chunking.RunStep` | app/utils/chunking.py:36 | the loop state after one more sentence is one step from the previous state |
| `Chunking.ChunksOfProperties` | app/utils/chunking.py:42-45 | every chunk of one call carries the given metadata, or `{}` when none is given, and no id or vector yet; there are no chunks exactly when the text is blank |
| `Chunking.CreateChunks` | app/utils/chunking.py:20-71 | `create_chunks` returns the chunks of the specification |
| `Chunking.ChunkSentences` | app/utils/chunking.py:31-71 | the buffer loop renders exactly the specified groups |
| `Chunking.StepShape` | app/utils/chunking.py:40-61 | a step either flushes and re-seeds the buffer with the overlap plus the sentence, or appends the sentence |
| `Chunking.AppendTotal` | app/utils/chunking.py:61 | `current_length += sentence_length` keeps the total of the buffer |
| `Chunking.FinalRender` | app/utils/chunking.py:64-69 | the final buffer becomes one more chunk only when it is non-empty |
| `Chunking.ChunkDocument` | app/utils/chunking.py:73-106 | `chunk_document` returns the page-by-page (or whole-content) chunks numbered across the document |
| `Chunking.NumberChunks` | app/utils/chunking.py:103-104 | the numbering loop sets `chunk_id` from the overall position |
| `Chunking.PagesChunksStep` | app/utils/chunking.py:87-92 | extending with one more page appends that page's chunks, with its page number as metadata |
| `Chunking.NumberedIds` | app/utils/chunking.py:103-104 | chunk k gets id `chunk_k`; text and metadata are kept |
| `Chunking.NumberedIdsDistinct` | app/utils/chunking.py:104 | no two chunks of a document share an id |
| `Chunking.PageNumbersPreserved` | app/utils/chunking.py:86-92 | every chunk of a paged document carries the page number of one of its pages |
| `Chunking.PagesChunksInPageOrder` | app/utils/chunking.py:86-92 | the chunks of a paged document are each page's chunks in page order, and every chunk of page `j` carries page `j`'s metadata |
| `Chunking.DocumentChunkMetadata` | app/utils/chunking.py:86-100 | chunks of a paged document carry a page number; chunks of other documents carry `{}` |
| `Chunking.JoiningSpacesNotCounted` | app/utils/chunking.py:40 | two sentences whose lengths sum to `chunk_size` share one chunk, which is one character longer than `chunk_size` |
| `Embedding.SingleOutcome` | app/services/embedding_service.py:24-33 | a single-text reply gives its vector, or an `EmbeddingGenerationError` whose message starts with the given prefix |
| `Embedding.GenerateEmbedding` | app/services/embedding_service.py:20-33 | the document embedding asks with task `retrieval_document`; a failure becomes "Failed to generate embedding: " and the cause |
| `Embedding.GenerateQueryEmbedding` | app/services/embedding_service.py:35-48 | the query embedding asks with task `retrieval_query`; a failure becomes "Failed to generate query embedding: " and the cause |
| `Embedding.BatchesConcat` | app/services/embedding_service.py:64-65 | the batches, concatenated, give back the texts in order |
| `Embedding.BatchesSizes` | app/services/embedding_service.py:64-65 | there are ceil(n / batch_size) batches, none empty, all full except possibly the last |
| `Embedding.BatchCount` | app/services/embedding_service.py:64 | the number of batches times `batch_size` lies in [n, n + batch_size) |
| `Embedding.BatchLengths` | app/services/embedding_service.py:65 | each batch has 1 to `batch_size` texts and all but the last exactly `batch_size` |
| `Embedding.BatchVectors` | app/services/embedding_service.py:76-89 | a successful reply without `embeddings` contributes exactly one vector; a failure is an `EmbeddingGenerationError` |
| `Embedding.EmbedBatchesErrorKind` | app/services/embedding_service.py:85-89 | whatever batch fails, the call fails with `EmbeddingGenerationError` |
| `Embedding.EmbedBatchesCharacterized` | app/services/embedding_service.py:64-91 | the call succeeds iff every batch does, giving all batch vectors in batch order; a failure is the error of the first failing batch, every earlier batch having succeeded |
| `Embedding.OneVectorPerText` | app/services/embedding_service.py:76-77 | when each reply has one vector per text, there is one vector per input text |
| `Embedding.PrependNothing` | app/services/embedding_service.py:62 | starting from an empty accumulator changes nothing |
| `Embedding.EmbedBatchesCons` | app/services/embedding_service.py:67-89 | one loop step: a failing batch ends the call with its error, a successful one extends the accumulator |
| `Embedding.BatchesStep` | app/services/embedding_service.py:64-65 | the batches from offset i are the slice at i followed by the batches from i + batch_size |
| `Embedding.GenerateEmbeddingsBatch` | app/services/embedding_service.py:50-91 | the result is the batch outcome (a `ValueError` for batch size 0, nothing for a negative size); the batches asked are all of them on success, or a prefix ending at the failing one; there is one pause fewer than calls |
| `Embedding.BatchLoop` | app/services/embedding_service.py:64-89 | the loop's result, calls and pauses, for a positive batch size |
| `Embedding.EmbedChunks` | app/services/embedding_service.py:93-109 | a batch failure passes through; otherwise the chunks come back with vector k set on chunk k |
| `Embedding.WithEmbeddings` | app/services/embedding_service.py:106-107 | every chunk keeps its text, metadata and id; chunk k gets vector k, and chunks past the last vector are unchanged (`zip` truncates) |
| `Embedding.ContentsOf` | app/services/embedding_service.py:103 | the texts are the chunks' contents, position by position |
| `Embedding.EmptyInputNoCall` | app/services/embedding_service.py:62-64 | no texts gives `[]` without a provider call |
| `VectorService.StoredMetadata` | app/services/vector_service.py:47-54 | the stored metadata has the chunk's keys plus `document_id` and `chunk_id`, which override same-named keys; other values are kept |
| `VectorService.MissingKey` | app/services/vector_service.py:44-45 | a `KeyError` exactly when some chunk lacks `chunk_id` or `embedding`, and it names `chunk_id` first |
| `VectorService.CompositeIdInjective` | app/services/vector_service.py:44 | within a document, distinct chunk ids give distinct stored ids |
| `VectorService.NewEntriesKeys` | app/services/vector_service.py:44 | every new record's id is `document_id + "_" + chunk_id` of some chunk |
| `VectorService.NewEntriesValues` | app/services/vector_service.py:44-61 | with distinct chunk ids, each chunk is stored under its composite id with its vector, text and merged metadata |
| `VectorService.WhereFilter` | app/services/vector_service.py:91-93 | the document filter applies only for a non-empty document id |
| `VectorService.Row` | app/services/vector_service.py:104-115 | row i is skipped exactly when 1 - distance is below the threshold; a kept row has text, similarity 1 - distance, metadata or `{}`, and the stored id |
| `VectorService.FormatRowsErrorSticks` | app/services/vector_service.py:104-122 | once a row raises, the whole search fails with that error |
| `VectorService.KeptRows` | app/services/vector_service.py:104-109 | the kept row indices lie below the number of rows looked at |
| `VectorService.KeptRowsSorted` | app/services/vector_service.py:104 | kept rows stay in the engine's order |
| `VectorService.KeptRowsMembers` | app/services/vector_service.py:109 | a row is kept exactly when it is not filtered out |
| `VectorService.RowsBeforeOk` | app/services/vector_service.py:104-115 | a successful search read every row without error |
| `VectorService.FormatRowsHits` | app/services/vector_service.py:110-115 | the hits are the kept rows, position by position |
| `VectorService.FormatRowsFilter` | app/services/vector_service.py:101-118 | the hits are, in engine order, exactly the rows with 1 - distance at least `min_similarity`, each with its text, similarity, metadata and stored id |
| `VectorService.NoDistancesKeepsAll` | app/services/vector_service.py:106 | without distances every row has similarity 1 and is kept |
| `VectorService.KeptRowsAll` | app/services/vector_service.py:106 | without distances the kept rows are all rows |
| `VectorService.SearchOutcome` | app/services/vector_service.py:95-122 | a failure is a `VectorStoreError`; no ids gives `[]`, not an error |
| `VectorService.VectorStore.constructor` | app/services/vector_service.py:24-27 | a new collection is empty |
| `VectorService.VectorStore.AddDocument` | app/services/vector_service.py:29-67 | a missing key or a store fault fails with "Failed to add document: ..." and stores nothing; otherwise the new records are added (same ids overwrite) |
| `VectorService.VectorStore.Search` | app/services/vector_service.py:69-122 | the search is the engine's reply, filtered and formatted |
| `VectorService.VectorStore.DeleteDocument` | app/services/vector_service.py:124-135 | a fault fails with "Delete failed: ..." and changes nothing; otherwise exactly the document's records are removed, and every removed id starts with the document id and `_` |
| `VectorService.RecordsOfDocumentIds` | app/services/vector_service.py:44-54 | in a store where every id is built from its record's `document_id` and `chunk_id`, every record of a document has an id starting with that document id and `_` |
| `VectorService.VectorStore.Count` | app/services/vector_service.py:137-139 | the count is the number of stored records |
| `VectorService.RemainingExact` | app/services/vector_service.py:129-131 | after delete no record of the document is left, every other record is kept unchanged, and the count drops by the document's record count |
| `VectorService.SetDifferenceSize` | app/services/vector_service.py:129-131 | removing a subset removes its size from the count |
| `VectorService.NewEntriesValid` | app/services/vector_service.py:44-54 | every new record's id is built from its own `document_id` and `chunk_id` metadata |
| `LlmService.PageLabel` | app/services/llm_service.py:37 | the page shown is the metadata's `page_number`, or `N/A` |
| `LlmService.CreatePrompt` | app/services/llm_service.py:19-62 | the loop builds the blocks numbered from 1 in order, joined by blank lines, inside the template |
| `LlmService.TemplateLayout` | app/services/llm_service.py:47-60 | the prompt is the context heading, the context, the question heading, the question and the instructions, in that order and nothing else |
| `LlmService.TemplateEndsWithCue` | app/services/llm_service.py:60 | every prompt ends with `ANSWER:` on its own line |
| `LlmService.InstructionsEndWithCue` | app/services/llm_service.py:53-60 | the instruction block ends with the answer cue |
| `LlmService.TemplateInjective` | app/services/llm_service.py:47-51 | with equally long contexts, equal prompts have equal contexts and questions |
| `LlmService.NoHitsEmptyContext` | app/services/llm_service.py:45 | without chunks the context section is empty |
| `LlmService.SourceTagInjective` | app/services/llm_service.py:42 | a block's `[Source i, ` tag determines i |
| `LlmService.BlockLayout` | app/services/llm_service.py:36-43 | block k reads `[Source k+1, Page p, Relevance: r]`, a line break, and the chunk's text |
| `LlmService.BlocksDistinct` | app/services/llm_service.py:36 | no two blocks share a source number |
| `LlmService.TokenEstimate` | app/services/llm_service.py:100 | `len // 4`: four tokens' worth of characters per token, rounded down |
| `LlmService.Usage` | app/services/llm_service.py:100-110 | the configured model name, both estimates, and their sum as `tokens_used` |
| `LlmService.GenerateAnswer` | app/services/llm_service.py:64-115 | one model call with the prompt; a failure becomes "Failed to generate answer: ..." as an `LLMError`, a reply becomes the answer with its usage |
| `LlmService.PromptTokensFromLayout` | app/services/llm_service.py:100 | the prompt estimate is a quarter of the total length of the template parts |
| `DocumentService.AfterLastDot` | app/services/document_service.py:19 | the text after the last dot: a dotless suffix of the name, preceded by a dot when shorter than the name |
| `DocumentService.ValidateFile` | app/services/document_service.py:15-31 | accepted iff the extension is allowed and the size is at most the limit in MiB; the extension is checked first; both errors are `FileValidationError` with the source's messages, the invalid-type one ending in `. Allowed: ` and the set's rendering |
| `DocumentService.SizeLimitBoundary` | app/services/document_service.py:26-27 | a file of exactly the limit passes, one byte more fails |
| `DocumentService.ValidatedFileHasParser` | app/services/document_service.py:94-102 | a file that passes validation has a parser |
| `DocumentService.KeptPagesExact` | app/services/document_service.py:42-48 | the kept pages are exactly the non-blank page texts, in increasing page order, numbered by position from 1 |
| `DocumentService.KeptPagesSound` | app/services/document_service.py:44-48 | every kept page is a non-blank text under its own position |
| `DocumentService.KeptPagesOrdered` | app/services/document_service.py:42 | page numbers increase |
| `DocumentService.KeptPagesComplete` | app/services/document_service.py:43-44 | every non-blank page is kept |
| `DocumentService.ParsePdf` | app/services/document_service.py:33-56 | the loop keeps the non-blank pages; `total_pages` counts all; a reader failure becomes "PDF parsing failed: ..." |
| `DocumentService.ParseDocx` | app/services/document_service.py:58-77 | kept paragraphs joined by blank lines, counted; a reader failure becomes "DOCX parsing failed: ..." |
| `DocumentService.ParseTxt` | app/services/document_service.py:79-88 | the decoded text unchanged, or a `DocumentParsingError` "TXT parsing failed: ..." with the decoder's message |
| `DocumentService.ParseOutcome` | app/services/document_service.py:90-106 | the only errors are parsing errors and, for a name without a parser, a validation error |
| `DocumentService.ParseDocument` | app/services/document_service.py:90-106 | routes `pdf`, `docx` and `txt` to their parsers; anything else is "No parser for ..." |
| `AgentLlm.ClientKey` | app/agent/llm.py:12-22 | a client exists iff the key is set and non-empty, else a `RuntimeError` |
| `AgentLlm.CacheKey` | app/agent/llm.py:33 | the key is `llm:` and the prompt's hash; the model plays no part |
| `AgentLlm.RequestFor` | app/agent/llm.py:45-49 | one user message with the prompt, at temperature 0.3 |
| `AgentLlm.CachedAnswer` | app/agent/llm.py:36-42 | a hit needs a readable cache and a non-empty stored value |
| `AgentLlm.AskOutcome` | app/agent/llm.py:37-59 | a hit is returned as is; on a miss the provider's reply is returned and its exception propagates |
| `AgentLlm.Cache.constructor` | app/agent/redis_client.py:5-10 | a fresh server holds no records; the read and write flags are as given |
| `AgentLlm.Cache.AskLlm` | app/agent/llm.py:27-59 | the answer and the new cache are those of the protocol; the provider is asked once on a miss and never on a hit |
| `AgentLlm.HitIgnoresProvider` | app/agent/llm.py:38-40 | a cached answer does not depend on the provider |
| `AgentLlm.WriteFailureHarmless` | app/agent/llm.py:54-57 | a failed write leaves the records as they were; a working write changes only the prompt's own record |
| `AgentLlm.CacheFailuresHarmless` | app/agent/llm.py:41-42 | an unreadable cache gives the same answer as an empty one |
| `AgentLlm.RepeatedPromptHits` | app/agent/llm.py:53-54 | after a stored non-empty answer the same prompt hits, with TTL 3600 |
| `AgentNodes.AgentState.constructor` | app/agent/graph.py:18-26 | the initial state echoes the request and has empty subtasks, results, summary and report |
| `AgentNodes.FirstBreak` | app/agent/nodes.py:28 | the first line boundary recognised by `splitlines` |
| `AgentNodes.SplitLinesHaveNoBreaks` | app/agent/nodes.py:28 | no line contains a line boundary |
| `AgentNodes.OnlyNewlinesSuffix` | app/agent/nodes.py:28 | a suffix of a `\n`-only text is `\n`-only |
| `AgentNodes.SplitLinesAtNewline` | app/agent/nodes.py:28 | `splitlines` cuts at the first newline |
| `AgentNodes.JoinCons` | app/agent/nodes.py:28 | joining lines is the first line, the separator, and the rest joined |
| `AgentNodes.SplitLinesJoin` | app/agent/nodes.py:28 | for newline-only line ends without a final one, joining the lines with `\n` gives back the text |
| `AgentNodes.CleanLine` | app/agent/nodes.py:27 | `strip("-• ").strip()` leaves no whitespace at either end |
| `AgentNodes.CleanLineIsSlice` | app/agent/nodes.py:27 | the cleaned line is a slice of the line |
| `AgentNodes.SubtasksFromLines` | app/agent/nodes.py:26-30 | subtask `k` is the cleaned form of the `k`-th non-blank line, so there is one subtask per non-blank line and no more than lines; none starts with whitespace |
| `AgentNodes.DashLineGivesEmptySubtask` | app/agent/nodes.py:27-29 | a line `---` yields one empty subtask |
| `AgentNodes.PlannerNode` | app/agent/nodes.py:9-33 | the subtasks are the parsed reply; only `subtasks` and the cache change; an ask failure propagates |
| `AgentNodes.NotesGiveTasksBack` | app/agent/nodes.py:45-47 | one note per subtask, each the fixed prefix and the subtask |
| `AgentNodes.ResearcherNode` | app/agent/nodes.py:36-50 | the results are the notes of the subtasks; only `results` changes |
| `AgentNodes.SummarizerPromptAsWritten` | app/agent/nodes.py:64-98 | strict mode builds the strict prompt; hybrid mode raises `NameError` for `web_text` |
| `AgentNodes.EmptyContextRaisesNameError` | app/agent/nodes.py:98 | an empty context already fails |
| `AgentNodes.CorrectedPromptAgrees` | app/agent/nodes.py:64-108 | wherever the written code builds a prompt the corrected one is the same; in hybrid mode it is the hybrid prompt |
| `AgentNodes.BlankContextIsHybrid` | app/agent/nodes.py:58-62 | a blank context is never strict, however long |
| `AgentNodes.StrictPromptLayout` | app/agent/nodes.py:66-84 | the strict prompt holds the unstripped context and the question at fixed offsets |
| `AgentNodes.HybridPromptLayout` | app/agent/nodes.py:87-108 | the hybrid prompt holds the context, the web text and the question at fixed offsets |
| `AgentNodes.SummarizerNode` | app/agent/nodes.py:53-114 | a retrieval failure changes nothing; otherwise the summary is the answer to the mode's prompt and `rag_mode` is `strict` iff the stripped context has 500 characters |
| `AgentNodes.CleanReportHasNoEscapes` | app/agent/nodes.py:150 | a cleaned report holds no backslash-n pair |
| `AgentNodes.CleanReportIdempotent` | app/agent/nodes.py:150 | cleaning twice is cleaning once |
| `AgentNodes.ReportWriterNode` | app/agent/nodes.py:117-153 | the report is the cleaned answer; only `report` and the cache change |
| `AgentGraph.PlanAndResearch` | app/agent/graph.py:29-30 | the planner's subtasks and one note per subtask, or the planner's error with nothing changed; the cache is left as the planner's call leaves it |
| `AgentGraph.ReportStage` | app/agent/graph.py:32-40 | a report returned has no backslash-n pair and comes with the run's metadata |
| `AgentGraph.SummaryStage` | app/agent/graph.py:31-40 | a retrieval failure ends the run with its message as an `Other` error and leaves the cache alone; a report returned has no backslash-n pair and comes with the run's metadata |
| `AgentGraph.RunOutcome` | app/agent/graph.py:12-40 | a report returned has no backslash-n pair; its metadata counts subtasks and results, which are equal, and echoes `user_id`; a planner failure is the run's error |
| `AgentGraph.WriteReport` | app/agent/graph.py:32-34 | the result and the cache are those of the report stage against the current summary; a report returned is the one in the state |
| `AgentGraph.SummarizeThenReport` | app/agent/graph.py:31-34 | the result and the cache are those of the summarizer's stage; after a success the retrieval returned, the summary is the summarizer's answer and the report returned is the one in the state |
| `AgentGraph.RunAgentGraph` | app/agent/graph.py:12-40 | the result and the cache are exactly those of `RunOutcome`: the planner, the researcher, the summarizer (with the corrected prompt) and the report writer in order, each through the cache the stage before left, the first error ending the run, and the report the writer's cleaned answer to the prompt built from the summary |
| `Schemas.CheckQuery` | app/models/schemas.py:17-26 | accepted iff 3 to 500 characters as sent and not blank; accepted queries are returned stripped |
| `Schemas.CheckTopK` | app/models/schemas.py:19 | `top_k` is 5 when absent, else accepted iff in [1, 10] |
| `Schemas.ParseQueryRequest` | app/models/schemas.py:16-26 | a request exists iff every field passes; otherwise all failing fields are reported |
| `Schemas.StrippedQueryMayBeShorter` | app/models/schemas.py:17-26 | a three-character query that strips to one character is accepted |
| `Schemas.CheckQueryIdempotent` | app/models/schemas.py:26 | an accepted query still long enough is accepted again unchanged |
| `Routes.UploadError` | app/api/routes.py:99-113 | validation 400, parsing 422, embedding and store 500 with the message, anything else 500 "Upload failed" |
| `Routes.Embedded` | app/api/routes.py:80-84 | the only errors are embedding errors and, for no chunks, the fixed parsing error; a success has one embedded chunk per chunk |
| `Routes.EmbedForUpload` | app/api/routes.py:80-84 | the embedding step of the upload |
| `Routes.PrepareUpload` | app/api/routes.py:71-84 | validate, parse, chunk and embed, stopping at the first failure |
| `Routes.UploadDocument` | app/api/routes.py:44-113 | errors map to their status and store nothing; success stores the chunks and reports the byte size and chunk count |
| `Routes.ValidationComesFirst` | app/api/routes.py:71 | a file that fails validation gets 400 whatever the parsers and providers do |
| `Routes.BlankTextIsUnprocessable` | app/api/routes.py:80-81 | a blank text gets 422 with the fixed message, without an embedding call |
| `Routes.UploadErrorsKeepMessages` | app/api/routes.py:99-107 | every upload failure is one of the three known kinds and keeps its message |
| `Routes.EmbeddedChunksStorable` | app/api/routes.py:84-87 | the embedded chunks carry ids `chunk_k`, and with one vector per chunk none lacks a key |
| `Routes.QueryError` | app/api/routes.py:178-189 | every query failure is 500; the three known kinds keep their message, others say "Query failed" |
| `Routes.Preview` | app/api/routes.py:160 | texts over 200 characters become their first 200 and `...`; shorter ones are unchanged |
| `Routes.PageNumberOf` | app/api/routes.py:163 | the page number is the metadata's, or absent |
| `Routes.Sources` | app/api/routes.py:158-166 | one source per hit, in order, with preview, similarity, id and page |
| `Routes.QueryOutcome` | app/api/routes.py:116-189 | failures are 500; a model other than the configured one is only `N/A` with no sources |
| `Routes.FindHits` | app/api/routes.py:135-143 | embed the query and search with `top_k`, the document filter and threshold 0.5 |
| `Routes.CollectSources` | app/api/routes.py:158-166 | the source loop builds the sources of the hits |
| `Routes.AnswerHits` | app/api/routes.py:155-176 | the answer, sources, model and token count of one model call |
| `Routes.QueryDocuments` | app/api/routes.py:116-189 | the query handler's reply is the query outcome |
| `Routes.NoHitsNoModelCall` | app/api/routes.py:145-152 | no hits gives the fixed answer, no sources, `N/A`, 0 tokens, whatever the model would say |
| `Routes.HitsAreCited` | app/api/routes.py:155-176 | with hits, the answer is the model's, the sources are the hits' in order, and a model failure is 500 with its message |
| `Routes.PreviewBounds` | app/api/routes.py:160 | a preview is at most 203 characters and keeps the text's first 200; it is as long as the text exactly when the text has at most 200 characters or exactly 203 |
| `Routes.HealthCheck` | app/api/routes.py:192-207 | healthy with the record count, or unhealthy with 0 |
| `Routes.DeleteDocument` | app/api/routes.py:210-220 | removes the document's records and confirms, or 500 with the store's message |
| `Serverless.DocumentsContent.constructor` | api/index.py:29 | the store starts empty |
| `Serverless.DocumentsContent.Values` | api/index.py:69 | `values()` in key order |
| `Serverless.DocumentsContent.Put` | api/index.py:140 | a new name is added last; an existing name keeps its place and gets the new text |
| `Serverless.PutValues` | api/index.py:140 | a re-upload replaces that text in place and keeps every other text |
| `Serverless.ContextEmpty` | api/index.py:69 | the context is empty only with no texts or a single empty one |
| `Serverless.MarkdownRequest` | api/index.py:95-102 | one system and one user message to `gpt-4o-mini` at temperature 0.3 |
| `Serverless.RunAgentMarkdown` | api/index.py:51-105 | the reply is the markdown outcome of the stored texts |
| `Serverless.MissingKeyNoCall` | api/index.py:59-64 | no key gives 500 "OPENAI_API_KEY not configured" whatever is stored and whatever the model would say |
| `Serverless.LongContextLength` | api/index.py:69-72 | strict mode iff the texts' lengths plus two characters per separator reach 500 |
| `Serverless.BlankContextModes` | api/index.py:72 | 500 blank characters are strict here though the agent's rule calls them hybrid |
| `Serverless.UserPromptLayout` | api/index.py:83-93 | the user prompt holds the context, or "No documents uploaded." when it is empty, then the query, then the format request |
| `Serverless.UploadText` | api/index.py:116-138 | dispatch on the lower-cased suffix, `.txt` first; reader failures of pdf and docx give placeholders; any other name has no text |
| `Serverless.ReadUpload` | api/index.py:113-138 | the parsing half of the upload |
| `Serverless.UploadDocument` | api/index.py:108-142 | unsupported names get 400 and a decoding error escapes, both with the store unchanged; otherwise the text is stored under the original name, which is echoed |
| `Serverless.AfterLastDotOfSuffix` | api/index.py:118-129 | a name ending in a dot and a dotless extension has that extension after its last dot |
| `Serverless.SuffixAgreesWithParserKey` | api/index.py:118-129 | for txt, pdf and docx the suffix test agrees with the document service's parser key |
| `Serverless.SuffixGivesKey` | api/index.py:118-129 | a matching suffix gives that parser key |
| `Serverless.KeyGivesSuffix` | api/index.py:118-129 | that parser key gives a matching suffix |
| `Text.NonBlank` | app/agent/nodes.py:27-29 | the kept texts are among the inputs, none is blank, every non-blank input is kept, and there are no more than inputs |
| `Text.NonBlankOne` | app/services/document_service.py:67-69 | a single text is kept exactly when it is not blank |
| `Text.NonBlankAppend` | app/services/document_service.py:67-69 | the filter distributes over concatenation, so the kept texts keep their order and repeats |
| `Text.NonBlankCons` | app/agent/nodes.py:27-29 | the first text is kept exactly when it is not blank, ahead of the kept rest |
| `Text.Strip` | app/utils/chunking.py:18 | `str.strip()`: empty exactly for blank text, otherwise no whitespace at either end |
| `Text.StripChars` | app/agent/nodes.py:27 | `str.strip(chars)`: the slice between the leading and trailing runs of those characters |
| `Text.StripUnchanged` | app/models/schemas.py:26 | a text already trimmed is unchanged |
| `Text.StripIdempotent` | app/models/schemas.py:26 | stripping twice is stripping once |
| `Text.NonSpaceStrip` | app/utils/chunking.py:18 | stripping loses no non-space character |
| `Text.JoinLength` | app/utils/chunking.py:41 | a join has the parts' lengths plus one separator between each pair |
| `Text.Lower` | app/services/document_service.py:19 | `lower()` keeps the length |
| `Text.LowerKeepsDots` | app/services/document_service.py:19 | lower-casing moves no dot |
| `Text.IntToString` | app/services/llm_service.py:37 | `str()` of an integer is non-empty and starts with a minus sign exactly for negatives |
| `Text.NatToString` | app/utils/chunking.py:104 | decimal digits without a leading zero |
| `Text.NatToStringRoundTrip` | app/utils/chunking.py:104 | the digits read back as the number |
| `Text.NatToStringInjective` | app/utils/chunking.py:104 | distinct numbers print differently |
| `Text.ReplaceRemovesAll` | app/agent/nodes.py:150 | `replace("\\n", "\n")` leaves no backslash-n pair |
| `Text.ReplaceNoOp` | app/agent/nodes.py:150 | text without such a pair is unchanged |

## Left out

- The providers and stores are parameters: the embedding and chat models, the Chroma collection's query engine, FAISS, the PDF and DOCX readers, UTF-8 decoding and SHA-256. They are foreign or native code.
- The nearest-neighbour ranking and the `n_results=top_k` limit are the engine's job. The model takes the engine's reply as given, so "at most `top_k` hits" is not stated.
- `VectorService.VectorStore.AddDocument`: a record whose id is already stored is overwritten. Chroma's `add` keeps the existing record instead. The difference cannot arise in practice, because `document_id` is a fresh `uuid4` on every upload. Chroma's rejection of duplicate ids within one call is part of the modelled `fault`.
- `LlmService.Citation`: the `:.2f` rendering of a similarity is a parameter `relevance`, because floating-point formatting is out of scope.
- `Text.Lower`: lower-cases ASCII letters only. Python's Unicode case mapping is outside the model.
- `DocumentService.ValidateFile`: the rendering of the allowed-extension set at the end of the "Invalid file type" message is a parameter `allowedText`, because Python's set rendering has no fixed order.
- Chunk dictionaries are values. `embed_chunks` returns the same list object it mutated, and that aliasing is not modelled.
- `AgentLlm.Cache.AskLlm`: the TTL is recorded. Expiry over time, and the logging prints, are not modelled.
- `time.sleep` pauses are counted in a ghost value, not timed. `query_time_ms`, `upload_time` and `uuid4` are left out: clocks and randomness. The document id is a parameter.
- Logging, `print`, async/await and the FastAPI plumbing are left out. Pydantic's coercion of strings to integers for `top_k` and `page_number` is left out too, and so is the exact text of Pydantic's own error messages. `page_number` keeps whatever value the metadata holds.
- An exception that escapes a serverless handler is `Serverless.Reply.Crashed`. FastAPI's own 500 response is not modelled.
- The static routes of api/index.py (root page, favicon, health) have no logic and are left out.
- app/agent/rag.py, app/main.py and app/core/config.py are not part of this model. They are I/O plumbing and settings loading. The settings' defaults are constants.
- The agent's `retrieve_context` is a parameter. Its failure is an `Other` error.
- `AgentNodes.SummarizerNode`: models the corrected node (see Findings, app/agent/nodes.py:98). As written, a context under 500 stripped characters raises `NameError` before the model is asked, and the summary, `rag_mode` and the cache are left unchanged.
- `AgentGraph.RunAgentGraph`: models the pipeline with the corrected summarizer (see Findings, app/agent/nodes.py:98). As written, `run_agent_graph` fails with `NameError` at the summarizer whenever the retrieved context has under 500 stripped characters.

## Findings

| source | as written | input that shows it | evidently intended | confidence | as-written member | corrected member |
|---|---|---|---|---|---|---|
| app/agent/nodes.py:98 | the hybrid prompt interpolates `web_text`, which no code defines, so the summarizer raises `NameError` before asking the model whenever the stripped context is under 500 characters | an empty retrieval result, `""` (`AgentNodes.EmptyContextRaisesNameError`) | the hybrid prompt includes the web research text (empty until the web search exists) and the model is asked | not executed | `AgentNodes.SummarizerPromptAsWritten` | `AgentNodes.CorrectedPromptAgrees` |
