# Document retrieval and ingestion services, modelled in Dafny

This project models the two services of the Spring AI MCP server that hold its logic.

- **`DocumentSearchService`** is the retrieval orchestrator. It offers three tools: `searchDocuments`,
  `listUploadedDocuments` and `getDocumentContents`. Each tool runs a fixed list of similarity queries
  against the vector store and concatenates the results. It then deduplicates them by document id,
  keeps the documents of one conversation and renders a text answer. Any exception becomes a text answer.
- **`EtlService`** is the ingestion pipeline. It scans a classpath location or a folder for files
  whose extension is on an allow-list, and extracts documents from them. It tags each document with
  its provenance, using only keys that are absent. Uploaded documents are stamped with their
  conversation. The documents are then split into chunks, and the chunks are added to the index.
  After an upload, the temp file is deleted in a `finally`.

Layout:

- `base.dfy`: `Option` and `Result`.
- `text.dfy`: the `String` operations used (`isBlank`, `toLowerCase`, `contains`, `startsWith`,
  `endsWith`, decimal formatting).
- `documents.dfy`: the document value and the three stream pipelines (deduplication, conversation
  filter, distinct file names), with their laws.
- `vector_store.dfy`: the vector store as a class with a search oracle and an append-only contents list.
- `document_search.dfy`: the answers of the three tools as specification functions, the rendering
  loops, and the service class.
- `etl.dfy`: the extension test, source resolution, tagging, stamping and ID-log sampling. It also
  holds the `EtlService` class.

Each operation that works step by step is a method. The method is proved against a specification
function, and that function's properties are stated as lemmas.

The vector store keeps a ghost log of every `similaritySearch` query it receives (`searches`), next
to the log of `add` batches. Each search tool states how that log grows: by exactly the queries it
sends, in order, up to the first that throws. It also states that it adds nothing to the index.
The three search tools also return a ghost value `merged`, the order the deduplicating `HashMap`
produced.

That order is left open. A result is only required to be some permutation of the first occurrence of
each id (`Documents.IsDedupOf`). The model therefore proves what holds for every order, and never
claims first-seen order.

Environment effects are parameters:

- The library calls (Tika extraction, the token splitter and the classpath resolver) are constant
  functions of the service.
- The folder walk and temp-file deletion are also constant functions of the service.
- Randomly drawn UUIDs come from `uuids: nat -> string`, with a counter of how many were drawn.
- The clock is `now: nat -> string`, read once per stamped document.

### Behaviour notes

Points where the code behaves in a way a reader might not expect. The model follows the code in each
case.

- **"summarize".** It is not a broad request. The code tests for "summary", which is not a substring
  of "summarize". So the text is sent as it is and gets the 800-character budget
  (`SummarizeIsSpecific`). The `@Tool` description of `searchDocuments`
  (DocumentSearchService.java:23-27) calls 'summarize' a broad request.
- **"tell".** A request containing only "tell" is broad but not a content request. It issues the three
  fixed queries and still gets 800 characters (`TellRequestIsBroadButShort`).
- **The "content" fallback.** `listUploadedDocuments` queries "content" as soon as any of its three
  queries throws, not only when all three fail. The results gathered before the failure are kept.
- **Deduplication order.** Deduplication keeps the first document per id, but the output order is
  whatever the `HashMap` yields. Which three documents `searchDocuments` shows therefore depends on
  that order. How many it shows does not (`SearchPoolIgnoresOrder`).
- **Chunks without a file name.** In `getDocumentContents`, a chunk without `original_filename` adds an
  "Unknown" header, but its text appears under no header (`ContentsPlacesEachChunk`).
- **The original file name is not checked.** `processUploadedFile` refuses a blank conversation id and
  a blank temp file name, but accepts a blank or missing original file name. That name is stamped on
  every chunk and quoted in the success message as given (`ProcessUploadedFile`, `UploadMessage`).
- **A missing folder is not an error.** When the folder does not exist or is not a directory, the
  scan logs an error and returns an empty list. Loading then stores nothing and reports no failure
  (`Scan`, `LoadDocumentsIntoVectorDatabase`).

## Model

| member | source | states |
|---|---|---|
| Documents.FirstById | src/main/java/org/spring_ai_mcp_server_sse/rag/DocumentSearchService.java:57-62 | the id map has exactly the input's ids as keys; each value carries its own key and comes from the input |
| Documents.FirstByIdIsFirstAt | src/main/java/org/spring_ai_mcp_server_sse/rag/DocumentSearchService.java:58-61 | under the keep-existing merge rule, the document bound to an id is the earliest input document with that id |
| Documents.FirstByIdIsFirst | src/main/java/org/spring_ai_mcp_server_sse/rag/DocumentSearchService.java:58-61 | every value of the id map is the first input document with its id |
| Documents.FirstOccurrencesEnumerate | src/main/java/org/spring_ai_mcp_server_sse/rag/DocumentSearchService.java:57-62 | the first-occurrence list lists every value of the id map exactly once and nothing else |
| Documents.EnumerationHasDistinctIds | src/main/java/org/spring_ai_mcp_server_sse/rag/DocumentSearchService.java:57-62 | any listing of the map's values has no repeated id |
| Documents.EnumerationsArePermutations | src/main/java/org/spring_ai_mcp_server_sse/rag/DocumentSearchService.java:57-62 | two listings of the map's values differ only in order |
| Documents.DedupLaws | src/main/java/org/spring_ai_mcp_server_sse/rag/DocumentSearchService.java:57-62 | whatever the order of the output: no id twice, the same id set as the input, each survivor the first input document with its id, nothing invented |
| Documents.DedupById | src/main/java/org/spring_ai_mcp_server_sse/rag/DocumentSearchService.java:161-166 | the map-then-values loop returns a permutation of the first occurrence of every id |
| Documents.FilterByConversation | src/main/java/org/spring_ai_mcp_server_sse/rag/DocumentSearchService.java:69-75 | a document survives iff its `conversation_id` entry exists and equals the id; the filter never grows the list |
| Documents.FilterKeepsListOrder | src/main/java/org/spring_ai_mcp_server_sse/rag/DocumentSearchService.java:69-75 | the stream filter keeps list order: filtering `a + b` is filtering `a`, then filtering `b` |
| Documents.FilterCounts | src/main/java/org/spring_ai_mcp_server_sse/rag/DocumentSearchService.java:169-171 | each matching document keeps its multiplicity, and every other document drops to zero |
| Documents.FilterRespectsPermutation | src/main/java/org/spring_ai_mcp_server_sse/rag/DocumentSearchService.java:231-233 | permuting the filter's input permutes its output |
| Documents.FilterKeepsDistinctIds | src/main/java/org/spring_ai_mcp_server_sse/rag/DocumentSearchService.java:67-76 | filtering a list with distinct ids keeps the ids distinct |
| Documents.FilterKeepsMatching | src/main/java/org/spring_ai_mcp_server_sse/rag/DocumentSearchService.java:169-171 | the filter returns its input unchanged when every document belongs to the conversation |
| Documents.FileNames | src/main/java/org/spring_ai_mcp_server_sse/rag/DocumentSearchService.java:179-180 | one name per document: its `original_filename`, or the default when the key is missing |
| Documents.Distinct | src/main/java/org/spring_ai_mcp_server_sse/rag/DocumentSearchService.java:179-182 | the same values as the input, none repeated |
| Documents.FirstIndex | src/main/java/org/spring_ai_mcp_server_sse/rag/DocumentSearchService.java:179-182 | the position where a value first occurs: it holds the value, and no earlier position does |
| Documents.DistinctKeepsFirstOccurrenceOrder | src/main/java/org/spring_ai_mcp_server_sse/rag/DocumentSearchService.java:179-182 | `distinct()` keeps encounter order: the kept names appear in the order of their first occurrences, which is the order the listing numbers them (187-189) and the contents sections follow (251) |
| Documents.DistinctCardinality | src/main/java/org/spring_ai_mcp_server_sse/rag/DocumentSearchService.java:191-192 | the reported file count is the number of different names |
| VectorStores.VectorStore.SimilaritySearch | src/main/java/org/spring_ai_mcp_server_sse/rag/DocumentSearchService.java:48-53 | a query returns what the store's search oracle gives for it, a result list or an exception message; the query is appended to the store's search log, and the index and the `add` log are unchanged |
| VectorStores.VectorStore.Add | src/main/java/org/spring_ai_mcp_server_sse/etl/EtlService.java:288 | every call is recorded; the index grows by the batch exactly when `add` does not throw; the search log is unchanged |
| DocumentSearch.Gather | src/main/java/org/spring_ai_mcp_server_sse/rag/DocumentSearchService.java:48-53 | the list built by issuing queries only grows: what was gathered before stays a prefix |
| DocumentSearch.GatherCollectsIssuedResults | src/main/java/org/spring_ai_mcp_server_sse/rag/DocumentSearchService.java:48-53 | what is gathered is exactly the earlier list followed by the results of the queries actually sent, in the order they were sent |
| DocumentSearch.Issued | src/main/java/org/spring_ai_mcp_server_sse/rag/DocumentSearchService.java:48-50 | the queries sent are a prefix of the query list, and at least one is sent when the list is not empty |
| DocumentSearch.IssuedStopsAtFirstFailure | src/main/java/org/spring_ai_mcp_server_sse/rag/DocumentSearchService.java:48-50 | the queries run in list order up to and including the first that throws; results only accumulate; there is no error iff every query succeeds, and then all of them ran |
| DocumentSearch.ThreeQueriesStopAtFirstFailure | src/main/java/org/spring_ai_mcp_server_sse/rag/DocumentSearchService.java:48-50 | three `addAll(similaritySearch(..))` calls in one `try`: the first that throws is the last one sent, its message is the error, and only the earlier results are kept |
| DocumentSearch.SingleQuery | src/main/java/org/spring_ai_mcp_server_sse/rag/DocumentSearchService.java:53 | a specific query is sent once, and the search outcome is exactly that query's outcome |
| DocumentSearch.BroadIgnoresCase | src/main/java/org/spring_ai_mcp_server_sse/rag/DocumentSearchService.java:44-45 | the broad test (`IsBroad`) and the content test (`IsContentRequest`) are case-insensitive: a query and its lowercase form agree on both |
| DocumentSearch.IsContentRequest | src/main/java/org/spring_ai_mcp_server_sse/rag/DocumentSearchService.java:109-111 | every content request is also a broad request |
| DocumentSearch.FixedQueriesAreSpecific | src/main/java/org/spring_ai_mcp_server_sse/rag/DocumentSearchService.java:44-50 | none of the three fixed queries "document", "information", "the" is itself a broad request |
| DocumentSearch.SearchQueries | src/main/java/org/spring_ai_mcp_server_sse/rag/DocumentSearchService.java:44-54 | a broad request sends exactly the three fixed queries and never its own text; any other request sends its own text once |
| DocumentSearch.MaxLength | src/main/java/org/spring_ai_mcp_server_sse/rag/DocumentSearchService.java:108-113 | the budget is 1500 iff the lowercased query contains "content", "summary" or "read", and 800 otherwise; 1500 implies a broad request |
| DocumentSearch.Snippet | src/main/java/org/spring_ai_mcp_server_sse/rag/DocumentSearchService.java:114-116 | a short text is unchanged; a long one keeps exactly its first `maxLength` characters followed by "..." |
| DocumentSearch.Cap | src/main/java/org/spring_ai_mcp_server_sse/rag/DocumentSearchService.java:81-83 | the capped list is a prefix of the input, of length min(3, n) |
| DocumentSearch.SearchResults | src/main/java/org/spring_ai_mcp_server_sse/rag/DocumentSearchService.java:66-83 | at most 3 documents, a prefix of the filtered list (all of it when shorter than 3); with a non-blank id every one belongs to that conversation |
| DocumentSearch.RenderEntries | src/main/java/org/spring_ai_mcp_server_sse/rag/DocumentSearchService.java:100-125 | the rendered entries begin with the first result's entry |
| DocumentSearch.RenderEntriesStep | src/main/java/org/spring_ai_mcp_server_sse/rag/DocumentSearchService.java:118-124 | one more result appends the divider (except before the first) and that result's entry |
| DocumentSearch.RenderedThrough | src/main/java/org/spring_ai_mcp_server_sse/rag/DocumentSearchService.java:118-124 | the answer built so far, plus the next entry, renders one more result |
| DocumentSearch.SearchAnswerEndsWithLastEntry | src/main/java/org/spring_ai_mcp_server_sse/rag/DocumentSearchService.java:122-124 | the divider only separates results: a rendered answer ends with the last result's entry |
| DocumentSearch.SearchAnswer | src/main/java/org/spring_ai_mcp_server_sse/rag/DocumentSearchService.java:81-127 | the answer starts with the "Based on your uploaded documents" header exactly when there are results to show; with none, it is "I couldn't find any relevant information…" when a conversation id is given and "No relevant documents found for this query." otherwise |
| DocumentSearch.SearchShowsFirstOccurrences | src/main/java/org/spring_ai_mcp_server_sse/rag/DocumentSearchService.java:57-83 | for every deduplication order, the shown documents have distinct ids and each is the first one retrieved with its id |
| DocumentSearch.SearchPoolIgnoresOrder | src/main/java/org/spring_ai_mcp_server_sse/rag/DocumentSearchService.java:57-83 | the pool the results come from, and how many are shown, do not depend on the deduplication order |
| DocumentSearch.SummarizeIsSpecific | src/main/java/org/spring_ai_mcp_server_sse/rag/DocumentSearchService.java:44-53 | "summarize" is not broad: it is sent as it is and gets 800 characters |
| DocumentSearch.TellRequestIsBroadButShort | src/main/java/org/spring_ai_mcp_server_sse/rag/DocumentSearchService.java:109-113 | a "tell" request issues the three fixed queries but gets 800 characters |
| DocumentSearch.NumberedLines | src/main/java/org/spring_ai_mcp_server_sse/rag/DocumentSearchService.java:187-189 | the numbered list begins with line "1. " for the first file |
| DocumentSearch.NumberedLinesPrefix | src/main/java/org/spring_ai_mcp_server_sse/rag/DocumentSearchService.java:187-189 | the loop only appends: the lines for the first j files are a prefix of the lines for all of them |
| DocumentSearch.NumberedLinesListEachFile | src/main/java/org/spring_ai_mcp_server_sse/rag/DocumentSearchService.java:187-189 | for every k, the list continues after the first k lines with line `k+1. files[k]` |
| DocumentSearch.ListingAnswer | src/main/java/org/spring_ai_mcp_server_sse/rag/DocumentSearchService.java:169-195 | the answer starts with the documents-available header exactly when the conversation has documents; otherwise it is "No documents have been uploaded and processed in this conversation yet. …"; with documents it ends with "Total: F document(s) with C text chunks processed." and the closing line, F the number of distinct file names and C the number of chunks |
| DocumentSearch.ListingTotalsIgnoreOrder | src/main/java/org/spring_ai_mcp_server_sse/rag/DocumentSearchService.java:179-192 | the chunk count, the set of listed names and the file count are the same for every deduplication order; the file count is the number of different names |
| DocumentSearch.FileChunks | src/main/java/org/spring_ai_mcp_server_sse/rag/DocumentSearchService.java:255-257 | a chunk is in a file's section iff it is a result whose raw `original_filename` equals the name; there are never more chunks than results |
| DocumentSearch.FileChunksKeepListOrder | src/main/java/org/spring_ai_mcp_server_sse/rag/DocumentSearchService.java:255-257 | the per-file filter keeps list order: it distributes over concatenation of the result list |
| DocumentSearch.Sections | src/main/java/org/spring_ai_mcp_server_sse/rag/DocumentSearchService.java:251-266 | the sections follow the list of distinct names, beginning with the first name's section |
| DocumentSearch.ContentsPlacesEachChunk | src/main/java/org/spring_ai_mcp_server_sse/rag/DocumentSearchService.java:246-263 | a named chunk's file gets a header, and the chunk's text is in that file's section only; a nameless chunk yields an "Unknown" header and is in no section |
| DocumentSearch.ContentsEndsWithDivider | src/main/java/org/spring_ai_mcp_server_sse/rag/DocumentSearchService.java:251-266 | every section, the last included, ends with the divider |
| DocumentSearch.ContentsAnswer | src/main/java/org/spring_ai_mcp_server_sse/rag/DocumentSearchService.java:231-268 | the answer starts with the full-contents header exactly when the conversation has documents; otherwise it is "No documents found in this conversation. Please upload a document first." |
| DocumentSearch.RenderSearch | src/main/java/org/spring_ai_mcp_server_sse/rag/DocumentSearchService.java:96-125 | the indexed loop builds the header followed by the entries, with the divider between consecutive entries only |
| DocumentSearch.RenderListing | src/main/java/org/spring_ai_mcp_server_sse/rag/DocumentSearchService.java:184-193 | the listing numbers the distinct names 1..n in list order, then reports n files and m chunks |
| DocumentSearch.RenderContents | src/main/java/org/spring_ai_mcp_server_sse/rag/DocumentSearchService.java:242-266 | the nested loops produce, per distinct name, its header, its chunks' texts and the divider |
| DocumentSearch.DocumentSearchService.SearchDocuments | src/main/java/org/spring_ai_mcp_server_sse/rag/DocumentSearchService.java:28-133 | a blank query answers "Please provide a search query." and the store receives no search; otherwise the store's search log grows by exactly the broad or literal queries, in order, up to the first that throws; a failure gives the error prefix and message, and success answers from a deduplication of the results; the index is never written |
| DocumentSearch.DocumentSearchService.ListUploadedDocuments | src/main/java/org/spring_ai_mcp_server_sse/rag/DocumentSearchService.java:139-201 | a blank id answers "No conversation ID provided." and the store receives no search; otherwise the store's search log grows by "the", "and", "information" up to the first that throws, followed by "content" exactly when one threw; the fallback results add to what was gathered; its own failure gives the error prefix; the index is never written |
| DocumentSearch.DocumentSearchService.GetDocumentContents | src/main/java/org/spring_ai_mcp_server_sse/rag/DocumentSearchService.java:207-274 | a blank id is refused and the store receives no search; otherwise the store's search log grows by the four fixed queries in order, up to the first that throws; a failure gives the error prefix; otherwise it answers with the per-file contents of the conversation's deduplicated chunks; the index is never written |
| DocumentSearch.AnswerSearch | src/main/java/org/spring_ai_mcp_server_sse/rag/DocumentSearchService.java:56-127 | the second half of `searchDocuments`: the result is a deduplication of the collected documents and the answer is the one `SearchAnswer` describes for it |
| DocumentSearch.AnswerListing | src/main/java/org/spring_ai_mcp_server_sse/rag/DocumentSearchService.java:161-195 | the second half of `listUploadedDocuments`: a deduplication of the collected documents, answered as `ListingAnswer` describes |
| DocumentSearch.AnswerContents | src/main/java/org/spring_ai_mcp_server_sse/rag/DocumentSearchService.java:223-268 | the second half of `getDocumentContents`: a deduplication of the collected documents, answered as `ContentsAnswer` describes |
| DocumentSearch.DocumentSearchService.SearchInTurn | src/main/java/org/spring_ai_mcp_server_sse/rag/DocumentSearchService.java:48-50 | three searches in one `try`: the store's search log grows by the queries sent, the index is untouched, and the outcome is the one `Gather` describes |
| DocumentSearch.DocumentSearchService.SearchLiterally | src/main/java/org/spring_ai_mcp_server_sse/rag/DocumentSearchService.java:53 | the specific query alone: the store's search log grows by that query, the index is untouched, and the outcome is the one `Gather` describes |
| Etl.ExtensionDecidedByEnding | src/main/java/org/spring_ai_mcp_server_sse/etl/EtlService.java:201-204 | only the end of a name decides: prefixing an accepted name keeps it accepted |
| Etl.ExtensionIgnoresCase | src/main/java/org/spring_ai_mcp_server_sse/etl/EtlService.java:181-182 | a name and its lowercase form are accepted alike |
| Etl.UpperCaseExtensionAccepted | src/main/java/org/spring_ai_mcp_server_sse/etl/EtlService.java:32 | an upper-case ".PDF" name is accepted |
| Etl.LookalikeExtensionRejected | src/main/java/org/spring_ai_mcp_server_sse/etl/EtlService.java:32 | a name that only begins like an allowed extension (".mdx") is rejected |
| Etl.AcceptedNameHasDot | src/main/java/org/spring_ai_mcp_server_sse/etl/EtlService.java:201-204 | every allowed extension begins with a dot, so an accepted name contains one |
| Etl.ResolveSource | src/main/java/org/spring_ai_mcp_server_sse/etl/EtlService.java:167-169 | classpath mode iff the descriptor starts with "classpath:"; then that prefix and at most one "/" are dropped; otherwise the descriptor names a folder unchanged |
| Etl.ClasspathDescriptorRoundTrip | src/main/java/org/spring_ai_mcp_server_sse/etl/EtlService.java:167-169 | a base written after "classpath:" or "classpath:/" resolves back to itself |
| Etl.SafeUri | src/main/java/org/spring_ai_mcp_server_sse/etl/EtlService.java:308-310 | the URI text, or "classpath" when it cannot be read |
| Etl.ClasspathCandidates | src/main/java/org/spring_ai_mcp_server_sse/etl/EtlService.java:178-183 | a resource is extracted iff it has a name and the name is on the allow-list; never more candidates than resources |
| Etl.Named | src/main/java/org/spring_ai_mcp_server_sse/etl/EtlService.java:180-182 | one resource yields a candidate iff it has a name on the allow-list, and then exactly that (resource, name) pair |
| Etl.ClasspathCandidatesKeepResolverOrder | src/main/java/org/spring_ai_mcp_server_sse/etl/EtlService.java:178-183 | the loop keeps resolver order: the candidates of `a + b` are those of `a` followed by those of `b` |
| Etl.AllowListBySuffix | src/main/java/org/spring_ai_mcp_server_sse/etl/EtlService.java:32 | a name is accepted (`Etl.HasAllowedExtension`, used at EtlService.java lines 182 and 203) iff its ASCII-lowercased form ends with one of ".txt", ".pdf", ".docx", ".pptx", ".xlsx", ".md", ".html", ".doc" |
| Etl.FileCandidates | src/main/java/org/spring_ai_mcp_server_sse/etl/EtlService.java:199-205 | a walked entry is extracted iff it is a regular file with an allowed name |
| Etl.Filtered | src/main/java/org/spring_ai_mcp_server_sse/etl/EtlService.java:199-205 | one entry through the filters: kept, as a candidate under its own name, iff it is a regular file with an allowed name |
| Etl.FileCandidatesKeepWalkOrder | src/main/java/org/spring_ai_mcp_server_sse/etl/EtlService.java:199-205 | the filters keep walk order: they distribute over concatenation of the walked entries |
| Etl.Tagged | src/main/java/org/spring_ai_mcp_server_sse/etl/EtlService.java:236-239 | tagging keeps id and text and leaves all four provenance keys present |
| Etl.PutIfAbsentNeverReplaces | src/main/java/org/spring_ai_mcp_server_sse/etl/EtlService.java:236-239 | `putIfAbsent` adds exactly the one key, keeps an existing value, and changes no other value |
| Etl.TaggingFillsOnlyAbsentKeys | src/main/java/org/spring_ai_mcp_server_sse/etl/EtlService.java:236-239 | exactly the four keys are added where missing, with the given values; no existing value changes |
| Etl.TaggingIsIdempotent | src/main/java/org/spring_ai_mcp_server_sse/etl/EtlService.java:236-239 | tagging a tagged document again changes nothing, whatever the new values |
| Etl.TagAll | src/main/java/org/spring_ai_mcp_server_sse/etl/EtlService.java:234-241 | one tagged document per extracted document, in the same order, with the same id and text, each carrying its provenance |
| Etl.TagAllFillsOnlyAbsentKeys | src/main/java/org/spring_ai_mcp_server_sse/etl/EtlService.java:234-241 | the i-th output has the i-th input's keys plus the four provenance keys; existing values are kept; each absent key gets the source URI, file name, processor or the i-th drawn UUID |
| Etl.SampledLog | src/main/java/org/spring_ai_mcp_server_sse/etl/EtlService.java:293-301 | every line is printed iff there are at most 25; otherwise the first 20 and a trailer counting the rest |
| Etl.IdLine | src/main/java/org/spring_ai_mcp_server_sse/etl/EtlService.java:281-283 | each ID-log line begins with the chunk's id followed by " (source: " and ends with ")" |
| Etl.TrailerHidesAtLeastSix | src/main/java/org/spring_ai_mcp_server_sse/etl/EtlService.java:297-298 | a trailer accounts for every line held back, and that is more than five |
| Etl.TrailerNamesItsCount | src/main/java/org/spring_ai_mcp_server_sse/etl/EtlService.java:298 | two trailers are equal only for equal counts: the trailer names how many lines were held back |
| Text.NatToStringInjective | src/main/java/org/spring_ai_mcp_server_sse/etl/EtlService.java:298 | `%d` prints different numbers differently |
| Etl.LogSampledIds | src/main/java/org/spring_ai_mcp_server_sse/etl/EtlService.java:293-301 | the counting loop with `break` prints the sampled log |
| Etl.Stamp | src/main/java/org/spring_ai_mcp_server_sse/etl/EtlService.java:129-135 | a stamped document keeps id and text and belongs to the upload's conversation |
| Etl.StampOverwritesUploadKeys | src/main/java/org/spring_ai_mcp_server_sse/etl/EtlService.java:129-135 | the five upload keys hold the new values whatever they held; every other key is unchanged |
| Etl.StampOverwrites | src/main/java/org/spring_ai_mcp_server_sse/etl/EtlService.java:129-135 | a later stamp wins on every key |
| Etl.StampAll | src/main/java/org/spring_ai_mcp_server_sse/etl/EtlService.java:129-135 | one stamped document per extracted document, in the same order, with the same id and text; the conversation filter keeps all of them |
| Etl.StampAllOverwritesUploadKeys | src/main/java/org/spring_ai_mcp_server_sse/etl/EtlService.java:129-135 | the i-th output holds the five upload keys with the new values (upload time read for the i-th document) and every other key of the i-th input unchanged |
| Etl.UploadMessage | src/main/java/org/spring_ai_mcp_server_sse/etl/EtlService.java:141-147 | the answer is the processing-error prefix and the message exactly when storing failed; on success it is "✅ Successfully processed file '<name>' and added <n> chunks to the knowledge base. You can now ask questions about this document." with the original file name and the chunk count |
| Etl.UploadMessageNamesCount | src/main/java/org/spring_ai_mcp_server_sse/etl/EtlService.java:141 | two success messages for the same file are equal only when their chunk counts are: the message determines the count |
| Etl.EtlService.Extracted | src/main/java/org/spring_ai_mcp_server_sse/etl/EtlService.java:226-251 | an extraction that throws yields nothing and draws no UUID; otherwise one tagged document per extracted document, one UUID each |
| Etl.EtlService.ExtractedFillsOnlyAbsentKeys | src/main/java/org/spring_ai_mcp_server_sse/etl/EtlService.java:226-251 | for a successful extraction, the i-th tagged document keeps the i-th extracted document's keys and values and gets each absent provenance key: the resource URI, the file name, the processor and the i-th drawn UUID |
| Etl.EtlService.ExtractAll | src/main/java/org/spring_ai_mcp_server_sse/etl/EtlService.java:211-215 | one UUID per document; a single candidate yields exactly its extraction; every document carries provenance |
| Etl.EtlService.ExtractAllAppends | src/main/java/org/spring_ai_mcp_server_sse/etl/EtlService.java:211-215 | the candidates' documents are appended in candidate order: extracting a + b gives a's documents followed by b's, with b drawing UUIDs after a |
| Etl.EtlService.Scan | src/main/java/org/spring_ai_mcp_server_sse/etl/EtlService.java:163-221 | a missing folder yields an empty result and no error; every document found carries provenance |
| Etl.EtlService.AddCalls | src/main/java/org/spring_ai_mcp_server_sse/etl/EtlService.java:259-276 | no `add` call for an empty input or an empty split; otherwise exactly one, holding every chunk |
| Etl.EtlService.StoreOutcome | src/main/java/org/spring_ai_mcp_server_sse/etl/EtlService.java:259-305 | 0 when no `add` call is made; otherwise the chunk count on success; an error exactly when the single `add` throws, carrying its message |
| Etl.EtlService.ProcessResource | src/main/java/org/spring_ai_mcp_server_sse/etl/EtlService.java:226-251 | the in-place tagging loop yields the extraction's tagged documents |
| Etl.EtlService.ExtractCandidates | src/main/java/org/spring_ai_mcp_server_sse/etl/EtlService.java:211-215 | the loop's appended documents are the candidates' extractions in order |
| Etl.EtlService.ProcessDocumentSource | src/main/java/org/spring_ai_mcp_server_sse/etl/EtlService.java:163-221 | both scanning modes, with their skips, return the scan's documents or its IOException message |
| Etl.EtlService.ProcessAndStoreDocuments | src/main/java/org/spring_ai_mcp_server_sse/etl/EtlService.java:259-305 | the outcome is the store outcome; the store receives exactly the add calls and no search; the ID log is printed only after a successful add |
| Etl.EtlService.LoadDocumentsIntoVectorDatabase | src/main/java/org/spring_ai_mcp_server_sse/etl/EtlService.java:57-75 | with the flag off, nothing is scanned or stored; a scan error stores nothing; otherwise the scanned documents go through the store step |
| Etl.EtlService.ProcessUploadedFile | src/main/java/org/spring_ai_mcp_server_sse/etl/EtlService.java:87-158 | the four checks answer in fixed order and store nothing; otherwise the stamped documents are stored, the answer reports the count or the error, and the temp file is deleted when deletion succeeds |

## Left out

- Tika extraction, the token splitter, the classpath resolver and the folder walk are library code
  and appear as functions of the service. Token counts and chunk overlap are not modelled.
- The splitter is modelled as a function that never throws. An exception from it would go to the
  same handlers as one from `add`.
- The vector store's ranking and its relation to the documents it was given are not modelled.
  `similaritySearch` is an oracle, and `add` only records what was added.
- File-system I/O is not modelled: temp-directory creation, path resolution and `Files.exists`.
  The upload directory is the set `tempFiles`, and `deleteIfExists` succeeds or fails through an
  oracle. An `UncheckedIOException` raised while the walk streams its entries is not modelled.
- Paths are not modelled. `tempUploadDir.resolve(tempFileName)` with an absolute name or a `../`
  name points outside the upload directory. `Files.exists` and the `deleteIfExists` in the `finally`
  then act on that outside file. The set `tempFiles` holds names only, so the model cannot express
  this escape.
- Metadata values are `Object` in the code and `string` in the model. A non-string
  `conversation_id` makes the `(String)` cast in the conversation filter of `searchDocuments` throw a
  `ClassCastException`, and the tool then answers "Error searching documents: " with its message.
  The model has no such value, so it has no such failure.
- Logging appears only as the ID-log lines (`printed`). The other log calls are not modelled.
- The clock and `UUID.randomUUID` are parameters (`now`, `uuids`).
- Null arguments are not modelled. A null conversation id or query behaves like a blank one, which is
  how every null check in the code treats it.
- `String.length` counts UTF-16 units, and `toLowerCase` covers all of Unicode. The model counts
  characters and lowercases A..Z only. This is exact for every keyword and extension test: no keyword
  or extension contains a letter that a non-ASCII character lowercases into.
- Documents are values, so aliasing of `Document` objects is not modelled. A metadata update made in
  place is visible only through the list that holds the document.
- The other parts of the server are not part of this model: the upload controller, the stock, web
  search and image services, the time utility and the Spring configuration.
- Etl.EtlService.Scan: states only the missing-folder case and provenance. The method
  `ProcessDocumentSource` is tied to its full definition.
