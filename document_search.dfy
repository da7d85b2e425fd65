/**
 * The retrieval orchestrator (`DocumentSearchService`): each of its three tools runs a fixed list
 * of similarity queries, concatenates the results, deduplicates them by id, keeps the documents of
 * one conversation and renders a text answer. Every exception inside the tool becomes a text answer.
 */
module DocumentSearch {
  import opened Base
  import opened Text
  import opened Documents
  import opened VectorStores

  type SearchOracle = string -> Result<seq<Doc>, string>

  // ---------------------------------------------------------------------------------------
  // Fixed texts
  // ---------------------------------------------------------------------------------------

  const PleaseProvideQuery := "Please provide a search query."
  const NoConversationId := "No conversation ID provided."
  const SearchErrorPrefix := "Error searching documents: "
  const ListErrorPrefix := "Error listing documents: "
  const ContentsErrorPrefix := "Error retrieving document contents: "
  const NothingFoundInConversation :=
    "I couldn't find any relevant " + "information in your uploaded documents for this query. "
    + "Make sure you've uploaded documents and they contain information related to your question."
  const NothingFound := "No relevant documents found for this query."
  const SearchHeader := "Based on your uploaded documents, " + "here's what I found:\n\n"
  const Divider := "\n---\n\n"
  const FileIcon := "\U{1F4C4} **"
  const NothingUploaded :=
    "No documents have been uploaded " + "and processed in this conversation yet. "
    + "Upload a document using the upload button above to get started!"
  const ListingHeader := "\U{1F4DA} **Documents available " + "in this conversation:**\n\n"
  const ListingFooter := "\n\nYou can now ask me questions about any of these documents!"
  const NoDocumentsInConversation := "No documents found " + "in this conversation. Please upload a document first."
  const ContentsHeader := "\U{1F4C4} **Complete Document Contents:**\n\n"

  const BroadQueries: seq<string> := ["document", "information", "the"]
  const ListQueries: seq<string> := ["the", "and", "information"]
  const ListFallbackQuery := "content"
  const ContentsQueries: seq<string> := ["document", "information", "content", "the"]

  const SearchLimit := 3

  // ---------------------------------------------------------------------------------------
  // Issuing queries: each query's results are appended to the running list, in order
  // ---------------------------------------------------------------------------------------

  /** What `allResults` holds after the queries ran, starting from `acc`, and the message of the
      first query that threw (after which no further query runs). */
  datatype Gathering = Gathering(docs: seq<Doc>, failure: Option<string>)

  function Gather(search: SearchOracle, acc: seq<Doc>, queries: seq<string>): (g: Gathering)
    ensures acc <= g.docs
    decreases |queries|
  {
    if queries == [] then Gathering(acc, None)
    else match search(queries[0])
      case Failure(e) => Gathering(acc, Some(e))
      case Success(found) => Gather(search, acc + found, queries[1..])
  }

  /** The queries actually sent to the index: all of them, up to and including the first that throws. */
  function Issued(search: SearchOracle, queries: seq<string>): (issued: seq<string>)
    ensures issued <= queries
    ensures issued == [] <==> queries == []
  {
    if queries == [] then []
    else [queries[0]] + (if search(queries[0]).Failure? then [] else Issued(search, queries[1..]))
  }

  /** The results of the successful queries among `queries`, concatenated in order. */
  function Retrieved(search: SearchOracle, queries: seq<string>): seq<Doc> {
    if queries == [] then []
    else (match search(queries[0]) case Success(found) => found case Failure(_) => [])
         + Retrieved(search, queries[1..])
  }

  /** What is gathered is the results of the queries actually sent, in order, after `acc`. */
  lemma {:induction false} GatherCollectsIssuedResults(search: SearchOracle, acc: seq<Doc>, queries: seq<string>)
    ensures Gather(search, acc, queries).docs == acc + Retrieved(search, Issued(search, queries))
    decreases |queries|
  {
    if queries != [] {
      var q, rest := queries[0], queries[1..];
      if search(q).Failure? {
        assert Issued(search, queries) == [q];
        assert Retrieved(search, [q]) == [] + Retrieved(search, []);
      } else {
        var found := search(q).value;
        var later := Issued(search, rest);
        assert Issued(search, queries) == [q] + later;
        assert ([q] + later)[0] == q && ([q] + later)[1..] == later;
        assert Retrieved(search, [q] + later) == found + Retrieved(search, later);
        GatherCollectsIssuedResults(search, acc + found, rest);
        assert Gather(search, acc, queries) == Gather(search, acc + found, rest);
      }
    }
  }

  lemma {:induction false} IssuedStopsAtFirstFailure(search: SearchOracle, acc: seq<Doc>, queries: seq<string>)
    ensures Issued(search, queries) <= queries
    ensures acc <= Gather(search, acc, queries).docs
    ensures forall j | 0 <= j < |Issued(search, queries)| - 1 :: search(Issued(search, queries)[j]).Success?
    ensures Gather(search, acc, queries).failure.None? <==> forall q | q in queries :: search(q).Success?
    ensures Gather(search, acc, queries).failure.None? ==> Issued(search, queries) == queries
    ensures Gather(search, acc, queries).failure.Some? ==>
              var issued := Issued(search, queries);
              issued != [] && search(issued[|issued| - 1]) == Failure(Gather(search, acc, queries).failure.value)
    decreases |queries|
  {
    if queries != [] {
      match search(queries[0])
      case Failure(e) =>
      case Success(found) =>
        IssuedStopsAtFirstFailure(search, acc + found, queries[1..]);
        assert forall q | q in queries :: q == queries[0] || q in queries[1..];
    }
  }

  // ---------------------------------------------------------------------------------------
  // searchDocuments
  // ---------------------------------------------------------------------------------------

  /** A broad request: the lowercased query contains "content", "summary", "read" or "tell". */
  predicate IsBroad(query: string) {
    var q := Lower(query);
    Contains(q, "content") || Contains(q, "summary") || Contains(q, "read") || Contains(q, "tell")
  }

  /** The test is case-insensitive: a query and its lowercase form are alike broad or not. */
  lemma BroadIgnoresCase(query: string)
    ensures IsBroad(query) <==> IsBroad(Lower(query))
    ensures IsContentRequest(query) <==> IsContentRequest(Lower(query))
  {
    assert Lower(Lower(query)) == Lower(query);
  }

  /** A content request: the lowercased query contains "content", "summary" or "read" (not "tell"). */
  predicate IsContentRequest(query: string)
    ensures IsContentRequest(query) ==> IsBroad(query)
  {
    var q := Lower(query);
    Contains(q, "content") || Contains(q, "summary") || Contains(q, "read")
  }

  /** None of the three fixed queries is itself a broad request. */
  lemma FixedQueriesAreSpecific()
    ensures forall q | q in BroadQueries :: !IsBroad(q)
  {
    forall q | q in BroadQueries ensures !IsBroad(q) {
      LowerKeepsLowercase(q);
      NotContainsByPair(q, "content");
      NotContainsByPair(q, "summary");
      NotContainsByPair(q, "read");
      NotContainsByPair(q, "tell");
    }
  }

  /** A broad request sends three fixed queries, and never its own text; any other request sends
      its text once. */
  function SearchQueries(query: string): (qs: seq<string>)
    ensures IsBroad(query) ==> qs == BroadQueries && query !in qs
    ensures !IsBroad(query) ==> qs == [query]
  {
    FixedQueriesAreSpecific();
    if IsBroad(query) then BroadQueries else [query]
  }

  /** The snippet budget: 1500 characters exactly for content requests, 800 for everything else. */
  function MaxLength(query: string): (n: nat)
    ensures n == 1500 <==> IsContentRequest(query)
    ensures n == 800 <==> !IsContentRequest(query)
    ensures n == 1500 ==> IsBroad(query)
  {
    if IsContentRequest(query) then 1500 else 800
  }

  /** A text longer than the budget is cut to its first `maxLength` characters and marked with
      "..."; a shorter text is unchanged. */
  function Snippet(text: string, maxLength: nat): (r: string)
    ensures |r| <= maxLength + 3
    ensures |text| <= maxLength ==> r == text
    ensures |text| > maxLength ==> |r| == maxLength + 3 && r[..maxLength] == text[..maxLength] && r[maxLength..] == "..."
  {
    if |text| > maxLength then text[..maxLength] + "..." else text
  }

  /** The first three documents when there are more than three. */
  function Cap(docs: seq<Doc>): (r: seq<Doc>)
    ensures r <= docs
    ensures |r| == if |docs| > SearchLimit then SearchLimit else |docs|
  {
    if |docs| > SearchLimit then docs[..SearchLimit] else docs
  }

  /** The documents a search may show: all of them with a blank conversation id, otherwise only
      that conversation's. */
  function Candidates(conversationId: string, merged: seq<Doc>): seq<Doc> {
    if IsBlank(conversationId) then merged else FilterByConversation(merged, conversationId)
  }

  /** The documents a search renders: at most three, a prefix of the candidates, all from the
      retrieved list, and all from the caller's conversation when one is given. */
  function SearchResults(conversationId: string, merged: seq<Doc>): (results: seq<Doc>)
    ensures |results| <= SearchLimit
    ensures results <= Candidates(conversationId, merged)
    ensures |results| == SearchLimit || results == Candidates(conversationId, merged)
    ensures forall d | d in results :: d in merged
    ensures !IsBlank(conversationId) ==> forall d | d in results :: InConversation(d, conversationId)
  {
    var r := Cap(Candidates(conversationId, merged));
    assert forall d | d in r :: d in Candidates(conversationId, merged) by {
      forall d | d in r ensures d in Candidates(conversationId, merged) {
        var j :| 0 <= j < |r| && r[j] == d;
        assert Candidates(conversationId, merged)[j] == d;
      }
    }
    r
  }

  /** One rendered result: the file name (or "Unknown file") and the budgeted snippet. */
  function Entry(query: string, d: Doc): string {
    FileIcon + GetOrDefault(d.metadata, OriginalFilenameKey, "Unknown file") + "**\n"
    + Snippet(d.text, MaxLength(query)) + "\n"
  }

  /** The entries with the divider between consecutive ones and none after the last. */
  function RenderEntries(query: string, docs: seq<Doc>): (text: string)
    ensures docs != [] ==> StartsWith(text, Entry(query, docs[0]))
  {
    if docs == [] then ""
    else if |docs| == 1 then Entry(query, docs[0])
    else RenderEntries(query, docs[..|docs| - 1]) + Divider + Entry(query, docs[|docs| - 1])
  }

  lemma RenderEntriesStep(query: string, docs: seq<Doc>, i: nat)
    requires i < |docs|
    ensures RenderEntries(query, docs[..i + 1])
            == if i == 0 then Entry(query, docs[0]) else RenderEntries(query, docs[..i]) + Divider + Entry(query, docs[i])
  {
    assert docs[..i + 1][..i] == docs[..i];
  }

  /** One turn of the result loop: the text so far plus the next entry renders one more document. */
  lemma RenderedThrough(query: string, docs: seq<Doc>, i: nat, response: string)
    requires i < |docs|
    requires response == SearchHeader + RenderEntries(query, docs[..i]) + (if 0 < i then Divider else "")
    ensures response + Entry(query, docs[i]) == SearchHeader + RenderEntries(query, docs[..i + 1])
  {
    RenderEntriesStep(query, docs, i);
    var entry := Entry(query, docs[i]);
    if i == 0 {
      AppendAssociates(SearchHeader, "", entry);
    } else {
      AppendAssociates(SearchHeader + RenderEntries(query, docs[..i]), Divider, entry);
      AppendAssociates(SearchHeader, RenderEntries(query, docs[..i]) + Divider, entry);
      AppendAssociates(SearchHeader, RenderEntries(query, docs[..i]), Divider);
    }
  }

  /** The answer of `searchDocuments` once the deduplicated list `merged` is known. */
  function SearchAnswer(query: string, conversationId: string, merged: seq<Doc>): (answer: string)
    ensures StartsWith(answer, SearchHeader) <==> SearchResults(conversationId, merged) != []
    ensures SearchResults(conversationId, merged) == [] ==>
              answer == if IsBlank(conversationId) then NothingFound else NothingFoundInConversation
  {
    assert SearchHeader[0] == 'B' && NothingFound[0] == 'N' && NothingFoundInConversation[0] == 'I';
    var results := SearchResults(conversationId, merged);
    if results == [] then
      if IsBlank(conversationId) then NothingFound else NothingFoundInConversation
    else SearchHeader + RenderEntries(query, results)
  }

  /** The divider only separates entries: a rendered answer ends with the last document's entry. */
  lemma SearchAnswerEndsWithLastEntry(query: string, conversationId: string, merged: seq<Doc>)
    requires SearchResults(conversationId, merged) != []
    ensures var results := SearchResults(conversationId, merged);
            EndsWith(SearchAnswer(query, conversationId, merged), Entry(query, results[|results| - 1]))
  {
    var results := SearchResults(conversationId, merged);
    var last := Entry(query, results[|results| - 1]);
    assert last[|last| - |last|..] == last;
    if |results| > 1 {
      EndsWithAfterPrefix(RenderEntries(query, results[..|results| - 1]) + Divider, last, last);
    }
    EndsWithAfterPrefix(SearchHeader, RenderEntries(query, results), last);
  }

  /** Whatever order the `HashMap` yields, each rendered document is the first one retrieved with
      its id, no id is rendered twice, and a given conversation id admits only its own documents. */
  lemma SearchShowsFirstOccurrences(conversationId: string, gathered: seq<Doc>, merged: seq<Doc>)
    requires IsDedupOf(merged, gathered)
    ensures DistinctIds(SearchResults(conversationId, merged))
    ensures forall d | d in SearchResults(conversationId, merged) :: IsFirstWithId(gathered, d)
  {
    DedupLaws(merged, gathered);
    var results := SearchResults(conversationId, merged);
    var pool := Candidates(conversationId, merged);
    if !IsBlank(conversationId) {
      FilterKeepsDistinctIds(merged, conversationId);
    }
    assert DistinctIds(pool);
    forall i, j | 0 <= i < j < |results| ensures results[i].id != results[j].id {
      assert results[i] == pool[i] && results[j] == pool[j];
    }
    forall d | d in results ensures IsFirstWithId(gathered, d) {
      var j :| 0 <= j < |merged| && merged[j] == d;
    }
  }

  /** The pool the three shown documents are taken from does not depend on the `HashMap` order,
      nor does how many are shown; which three are shown does. */
  lemma SearchPoolIgnoresOrder(conversationId: string, gathered: seq<Doc>, m1: seq<Doc>, m2: seq<Doc>)
    requires IsDedupOf(m1, gathered) && IsDedupOf(m2, gathered)
    ensures multiset(Candidates(conversationId, m1)) == multiset(Candidates(conversationId, m2))
    ensures |SearchResults(conversationId, m1)| == |SearchResults(conversationId, m2)|
  {
    if !IsBlank(conversationId) {
      FilterRespectsPermutation(m1, m2, conversationId);
    }
    assert |multiset(Candidates(conversationId, m1))| == |Candidates(conversationId, m1)|;
    assert |multiset(Candidates(conversationId, m2))| == |Candidates(conversationId, m2)|;
  }

  /** "summarize" contains none of the four keywords ("summary" is not a substring of it): it is
      sent to the index as it is and gets the 800-character budget. */
  lemma SummarizeIsSpecific()
    ensures !IsBroad("summarize")
    ensures SearchQueries("summarize") == ["summarize"]
    ensures MaxLength("summarize") == 800
  {
    var q := "summarize";
    LowerKeepsLowercase(q);
    SummarizeHasNoKeyword();
  }

  /** None of the four keywords occurs in "summarize". */
  lemma SummarizeHasNoKeyword()
    ensures !Contains("summarize", "content") && !Contains("summarize", "summary")
    ensures !Contains("summarize", "read") && !Contains("summarize", "tell")
  {
    var q := "summarize";
    NotContainsAbsentChar(q, "content");
    NotContainsAbsentChar(q, "tell");
    SummarizeLacksSummary();
    assert forall i | 0 <= i <= |q| - 4 :: q[i] != 'r' || q[i + 1] != 'e';
    NotContainsByPair(q, "read");
  }

  /** "summarize" and "summary" share their first six letters only. */
  lemma SummarizeLacksSummary()
    ensures !Contains("summarize", "summary")
  {
    var q := "summarize";
    forall i | 0 <= i <= |q| - 7 ensures !("summary" <= q[i..]) {
      if i == 0 {
        assert q[i..][6] == 'i';
      } else {
        assert q[i..][0] != 's';
      }
    }
  }

  /** A "tell" request is broad (three fixed queries) but not a content request (800 characters). */
  lemma TellRequestIsBroadButShort()
    ensures IsBroad("tell me")
    ensures SearchQueries("tell me") == BroadQueries
    ensures MaxLength("tell me") == 800
  {
    var q := "tell me";
    LowerKeepsLowercase(q);
    assert "tell" <= q[0..];
    NotContainsByPair(q, "content");
    NotContainsByPair(q, "summary");
    NotContainsByPair(q, "read");
  }

  // ---------------------------------------------------------------------------------------
  // listUploadedDocuments
  // ---------------------------------------------------------------------------------------

  /** One line per file, numbered from 1 in list order. */
  function FileLine(number: nat, file: string): string {
    NatToString(number) + ". " + file + "\n"
  }

  /** The numbered list, starting with line 1 for the first file. */
  function NumberedLines(files: seq<string>): (text: string)
    ensures files != [] ==> StartsWith(text, FileLine(1, files[0]))
  {
    if files == [] then ""
    else NumberedLines(files[..|files| - 1]) + FileLine(|files|, files[|files| - 1])
  }

  /** The list of the first `j` files begins the list of all of them. */
  lemma {:induction false} NumberedLinesPrefix(files: seq<string>, j: nat)
    requires j <= |files|
    ensures StartsWith(NumberedLines(files), NumberedLines(files[..j]))
    decreases |files|
  {
    if j < |files| {
      var init := files[..|files| - 1];
      NumberedLinesPrefix(init, j);
      assert init[..j] == files[..j];
    } else {
      assert files[..j] == files;
    }
  }

  /** Every file gets its own line: after the lines of the first `k` files comes line `k + 1`,
      naming file `k`. */
  lemma NumberedLinesListEachFile(files: seq<string>, k: nat)
    requires k < |files|
    ensures StartsWith(NumberedLines(files), NumberedLines(files[..k]) + FileLine(k + 1, files[k]))
  {
    NumberedLinesPrefix(files, k + 1);
    var upTo := files[..k + 1];
    assert upTo[..|upTo| - 1] == files[..k] && upTo[|upTo| - 1] == files[k];
  }

  function TotalLine(files: nat, chunks: nat): string {
    "\nTotal: " + NatToString(files) + " document(s) with " + NatToString(chunks) + " text chunks processed."
  }

  /** The answer of `listUploadedDocuments` once the deduplicated list `merged` is known. */
  function ListingAnswer(conversationId: string, merged: seq<Doc>): (answer: string)
    ensures StartsWith(answer, ListingHeader) <==> FilterByConversation(merged, conversationId) != []
    ensures FilterByConversation(merged, conversationId) == [] ==> answer == NothingUploaded
    ensures var results := FilterByConversation(merged, conversationId);
            results != [] ==>
              EndsWith(answer, TotalLine(|Elements(FileNames(results, "Unknown"))|, |results|) + ListingFooter)
  {
    assert ListingHeader[0] == '\U{1F4DA}' && NothingUploaded[0] == 'N';
    var results := FilterByConversation(merged, conversationId);
    if results == [] then NothingUploaded
    else
      var files := Distinct(FileNames(results, "Unknown"));
      var tail := TotalLine(|files|, |results|) + ListingFooter;
      DistinctCardinality(FileNames(results, "Unknown"));
      AppendAssociates(ListingHeader + NumberedLines(files), TotalLine(|files|, |results|), ListingFooter);
      assert tail[|tail| - |tail|..] == tail;
      EndsWithAfterPrefix(ListingHeader + NumberedLines(files), tail, tail);
      ListingHeader + NumberedLines(files) + TotalLine(|files|, |results|) + ListingFooter
  }

  /** The totals line does not depend on the `HashMap` order: the chunk count and the number of
      listed files (the number of distinct names) are the same for every permutation. */
  lemma ListingTotalsIgnoreOrder(conversationId: string, m1: seq<Doc>, m2: seq<Doc>)
    requires multiset(m1) == multiset(m2)
    ensures var r1, r2 := FilterByConversation(m1, conversationId), FilterByConversation(m2, conversationId);
            && |r1| == |r2|
            && Elements(FileNames(r1, "Unknown")) == Elements(FileNames(r2, "Unknown"))
            && |Distinct(FileNames(r1, "Unknown"))| == |Elements(FileNames(r1, "Unknown"))|
            && |Distinct(FileNames(r1, "Unknown"))| == |Distinct(FileNames(r2, "Unknown"))|
  {
    var r1, r2 := FilterByConversation(m1, conversationId), FilterByConversation(m2, conversationId);
    FilterRespectsPermutation(m1, m2, conversationId);
    assert |multiset(r1)| == |r1| && |multiset(r2)| == |r2|;
    var n1, n2 := FileNames(r1, "Unknown"), FileNames(r2, "Unknown");
    forall x | x in Elements(n1) ensures x in Elements(n2) {
      var i :| 0 <= i < |n1| && n1[i] == x;
      assert r1[i] in multiset(r2);
      var j :| 0 <= j < |r2| && r2[j] == r1[i];
      assert n2[j] == x;
    }
    forall x | x in Elements(n2) ensures x in Elements(n1) {
      var i :| 0 <= i < |n2| && n2[i] == x;
      assert r2[i] in multiset(r1);
      var j :| 0 <= j < |r1| && r1[j] == r2[i];
      assert n1[j] == x;
    }
    DistinctCardinality(n1);
    DistinctCardinality(n2);
  }

  // ---------------------------------------------------------------------------------------
  // getDocumentContents
  // ---------------------------------------------------------------------------------------

  /** The document's raw `original_filename` entry equals the name (no default applies). */
  predicate NamedAs(d: Doc, filename: string) {
    OriginalFilenameKey in d.metadata && d.metadata[OriginalFilenameKey] == filename
  }

  /** The chunks whose raw `original_filename` is `filename`, in list order. */
  function FileChunks(results: seq<Doc>, filename: string): (chunks: seq<Doc>)
    ensures forall d :: d in chunks <==> d in results && NamedAs(d, filename)
    ensures |chunks| <= |results|
  {
    if results == [] then []
    else
      var rest := FileChunks(results[1..], filename);
      assert forall d | d in results[1..] :: d in results;
      if NamedAs(results[0], filename) then [results[0]] + rest else rest
  }

  /** Selecting a file's chunks keeps list order: it distributes over concatenation (and a single
      chunk is kept iff it is named so). */
  lemma {:induction false} FileChunksKeepListOrder(a: seq<Doc>, b: seq<Doc>, filename: string)
    ensures FileChunks(a + b, filename) == FileChunks(a, filename) + FileChunks(b, filename)
  {
    if a == [] {
      assert a + b == b;
    } else {
      assert (a + b)[0] == a[0] && (a + b)[1..] == a[1..] + b;
      FileChunksKeepListOrder(a[1..], b, filename);
    }
  }

  function ChunkLine(d: Doc): string {
    d.text + "\n"
  }

  function ChunkTexts(chunks: seq<Doc>): string {
    if chunks == [] then ""
    else ChunkTexts(chunks[..|chunks| - 1]) + ChunkLine(chunks[|chunks| - 1])
  }

  function SectionHeader(filename: string): string {
    FileIcon + filename + "**\n\n"
  }

  /** One file's section: its header, the text of each of its chunks, and the divider. */
  function Section(results: seq<Doc>, filename: string): string {
    SectionHeader(filename) + ChunkTexts(FileChunks(results, filename)) + Divider
  }

  /** The sections in the order of `files`, starting with the first file's. */
  function Sections(results: seq<Doc>, files: seq<string>): (text: string)
    ensures files != [] ==> StartsWith(text, Section(results, files[0]))
  {
    if files == [] then ""
    else Sections(results, files[..|files| - 1]) + Section(results, files[|files| - 1])
  }

  /** The answer of `getDocumentContents` once the deduplicated list `merged` is known. */
  function ContentsAnswer(conversationId: string, merged: seq<Doc>): (answer: string)
    ensures StartsWith(answer, ContentsHeader) <==> FilterByConversation(merged, conversationId) != []
    ensures FilterByConversation(merged, conversationId) == [] ==> answer == NoDocumentsInConversation
  {
    assert ContentsHeader[0] == '\U{1F4C4}' && NoDocumentsInConversation[0] == 'N';
    var results := FilterByConversation(merged, conversationId);
    if results == [] then NoDocumentsInConversation
    else ContentsHeader + Sections(results, Distinct(FileNames(results, "Unknown")))
  }

  /** A chunk without `original_filename` puts an "Unknown" header in the listing of files, but its
      text lands in no section; a named chunk's text lands in its own file's section only. */
  lemma ContentsPlacesEachChunk(results: seq<Doc>, d: Doc)
    requires d in results
    ensures var files := Distinct(FileNames(results, "Unknown"));
            if OriginalFilenameKey in d.metadata then
              && d.metadata[OriginalFilenameKey] in files
              && forall f :: d in FileChunks(results, f) <==> f == d.metadata[OriginalFilenameKey]
            else
              && "Unknown" in files
              && forall f :: d !in FileChunks(results, f)
  {
    var names := FileNames(results, "Unknown");
    var i :| 0 <= i < |results| && results[i] == d;
    assert names[i] == GetOrDefault(d.metadata, OriginalFilenameKey, "Unknown");
    assert names[i] in names;
  }

  /** Every file section, the last included, ends with the divider. */
  lemma ContentsEndsWithDivider(conversationId: string, merged: seq<Doc>)
    requires FilterByConversation(merged, conversationId) != []
    ensures EndsWith(ContentsAnswer(conversationId, merged), Divider)
  {
    var results := FilterByConversation(merged, conversationId);
    var files := Distinct(FileNames(results, "Unknown"));
    assert FileNames(results, "Unknown")[0] in files;
    var last := files[|files| - 1];
    assert EndsWith(Divider, Divider);
    EndsWithAfterPrefix(SectionHeader(last) + ChunkTexts(FileChunks(results, last)), Divider, Divider);
    EndsWithAfterPrefix(Sections(results, files[..|files| - 1]), Section(results, last), Divider);
    EndsWithAfterPrefix(ContentsHeader, Sections(results, files), Divider);
  }

  // ---------------------------------------------------------------------------------------
  // The StringBuilder loops
  // ---------------------------------------------------------------------------------------

  /** The result loop of `searchDocuments`: one entry per document, a divider between two. */
  method RenderSearch(query: string, results: seq<Doc>) returns (response: string)
    requires results != []
    ensures response == SearchHeader + RenderEntries(query, results)
  {
    response := SearchHeader;
    for i := 0 to |results|
      invariant response == SearchHeader + RenderEntries(query, results[..i])
                             + (if 0 < i < |results| then Divider else "")
    {
      var doc := results[i];
      var fileName := GetOrDefault(doc.metadata, OriginalFilenameKey, "Unknown file");
      var content := doc.text;
      var maxLength := MaxLength(query);
      if |content| > maxLength {
        content := content[..maxLength] + "...";
      }
      var entry := FileIcon + fileName + "**\n" + content + "\n";
      assert entry == Entry(query, doc);
      RenderedThrough(query, results, i, response);
      response := response + entry;
      if i < |results| - 1 {
        AppendAssociates(SearchHeader, RenderEntries(query, results[..i + 1]), Divider);
        response := response + Divider;
      }
    }
    assert results[..|results|] == results;
  }

  /** The listing loop of `listUploadedDocuments`, with the totals line and the closing hint. */
  method RenderListing(results: seq<Doc>) returns (response: string)
    requires results != []
    ensures var files := Distinct(FileNames(results, "Unknown"));
            response == ListingHeader + NumberedLines(files) + TotalLine(|files|, |results|) + ListingFooter
  {
    var uniqueFiles := Distinct(FileNames(results, "Unknown"));
    response := ListingHeader;
    for i := 0 to |uniqueFiles|
      invariant response == ListingHeader + NumberedLines(uniqueFiles[..i])
    {
      assert uniqueFiles[..i + 1][..i] == uniqueFiles[..i];
      AppendAssociates(ListingHeader, NumberedLines(uniqueFiles[..i]), FileLine(i + 1, uniqueFiles[i]));
      response := response + FileLine(i + 1, uniqueFiles[i]);
    }
    assert uniqueFiles[..|uniqueFiles|] == uniqueFiles;
    response := response + TotalLine(|uniqueFiles|, |results|);
    response := response + ListingFooter;
  }

  /** The two nested loops of `getDocumentContents`: per distinct file, every chunk's text. */
  method RenderContents(results: seq<Doc>) returns (response: string)
    ensures response == ContentsHeader + Sections(results, Distinct(FileNames(results, "Unknown")))
  {
    response := ContentsHeader;
    var uniqueFiles := Distinct(FileNames(results, "Unknown"));
    for i := 0 to |uniqueFiles|
      invariant response == ContentsHeader + Sections(results, uniqueFiles[..i])
    {
      var filename := uniqueFiles[i];
      ghost var before := response;
      response := response + SectionHeader(filename);
      var fileChunks := FileChunks(results, filename);
      for j := 0 to |fileChunks|
        invariant response == before + SectionHeader(filename) + ChunkTexts(fileChunks[..j])
      {
        assert fileChunks[..j + 1][..j] == fileChunks[..j];
        AppendAssociates(before + SectionHeader(filename), ChunkTexts(fileChunks[..j]), ChunkLine(fileChunks[j]));
        response := response + ChunkLine(fileChunks[j]);
      }
      assert fileChunks[..|fileChunks|] == fileChunks;
      AppendAssociates(before, SectionHeader(filename), ChunkTexts(fileChunks));
      AppendAssociates(before, SectionHeader(filename) + ChunkTexts(fileChunks), Divider);
      AppendAssociates(ContentsHeader, Sections(results, uniqueFiles[..i]), Section(results, filename));
      assert uniqueFiles[..i + 1][..i] == uniqueFiles[..i];
      response := response + Divider;
    }
    assert uniqueFiles[..|uniqueFiles|] == uniqueFiles;
  }

  // ---------------------------------------------------------------------------------------
  // The service
  // ---------------------------------------------------------------------------------------

  /** The second half of `searchDocuments`: deduplicate the collected documents, keep the
      caller's conversation, cap at three and render (or say that nothing was found). */
  method AnswerSearch(query: string, conversationId: string, allResults: seq<Doc>)
    returns (answer: string, ghost merged: seq<Doc>)
    ensures IsDedupOf(merged, allResults)
    ensures answer == SearchAnswer(query, conversationId, merged)
  {
    var deduped := DedupById(allResults);
    merged := deduped;

    var results := deduped;
    if !IsBlank(conversationId) {
      results := FilterByConversation(deduped, conversationId);
    }
    if |results| > SearchLimit {
      results := results[..SearchLimit];
    }
    assert results == SearchResults(conversationId, merged);

    if results == [] {
      if !IsBlank(conversationId) {
        answer := NothingFoundInConversation;
      } else {
        answer := NothingFound;
      }
      return;
    }

    answer := RenderSearch(query, results);
  }

  /** The second half of `listUploadedDocuments`: deduplicate, keep the caller's conversation and render
      (or say that there is nothing to show). */
  method AnswerListing(conversationId: string, allResults: seq<Doc>)
    returns (answer: string, ghost merged: seq<Doc>)
    ensures IsDedupOf(merged, allResults)
    ensures answer == ListingAnswer(conversationId, merged)
  {
    var deduped := DedupById(allResults);
    merged := deduped;

    var results := FilterByConversation(deduped, conversationId);
    if results == [] {
      answer := NothingUploaded;
      return;
    }

    answer := RenderListing(results);
  }

  /** The second half of `getDocumentContents`: deduplicate, keep the caller's conversation and render
      (or say that there is nothing to show). */
  method AnswerContents(conversationId: string, allResults: seq<Doc>)
    returns (answer: string, ghost merged: seq<Doc>)
    ensures IsDedupOf(merged, allResults)
    ensures answer == ContentsAnswer(conversationId, merged)
  {
    var deduped := DedupById(allResults);
    merged := deduped;

    var results := FilterByConversation(deduped, conversationId);
    if results == [] {
      answer := NoDocumentsInConversation;
      return;
    }

    answer := RenderContents(results);
  }

  /** Three queries in turn, spelled out: each failure stops the sequence where it happens, and
      what the earlier ones found is kept. */
  lemma ThreeQueriesStopAtFirstFailure(search: SearchOracle, acc: seq<Doc>, a: string, b: string, c: string)
    ensures var ra, rb, rc := search(a), search(b), search(c);
            Issued(search, [a, b, c])
              == (if ra.Failure? then [a] else if rb.Failure? then [a, b] else [a, b, c])
            && Gather(search, acc, [a, b, c])
              == (if ra.Failure? then Gathering(acc, Some(ra.error))
                  else if rb.Failure? then Gathering(acc + ra.value, Some(rb.error))
                  else if rc.Failure? then Gathering(acc + ra.value + rb.value, Some(rc.error))
                  else Gathering(acc + ra.value + rb.value + rc.value, None))
  {
    var qs := [a, b, c];
    assert qs[0] == a && qs[1..] == [b, c] && [b, c][0] == b && [b, c][1..] == [c];
    assert [c][0] == c && [c][1..] == [];
    var ra, rb, rc := search(a), search(b), search(c);
    if ra.Failure? {
      assert Issued(search, qs) == [a];
      assert Gather(search, acc, qs) == Gathering(acc, Some(ra.error));
    } else {
      var acc1 := acc + ra.value;
      assert Issued(search, qs) == [a] + Issued(search, [b, c]);
      assert Gather(search, acc, qs) == Gather(search, acc1, [b, c]);
      if rb.Failure? {
        assert Issued(search, [b, c]) == [b];
        assert Gather(search, acc1, [b, c]) == Gathering(acc1, Some(rb.error));
      } else {
        var acc2 := acc1 + rb.value;
        assert Issued(search, [b, c]) == [b] + Issued(search, [c]);
        assert Gather(search, acc1, [b, c]) == Gather(search, acc2, [c]);
        assert Issued(search, [c]) == [c];
        if rc.Failure? {
          assert Gather(search, acc2, [c]) == Gathering(acc2, Some(rc.error));
        } else {
          assert Gather(search, acc2, [c]) == Gather(search, acc2 + rc.value, []);
        }
      }
    }
  }

  /** A single query: it is issued, and the search is exactly its outcome. */
  lemma SingleQuery(search: SearchOracle, query: string)
    ensures Issued(search, [query]) == [query]
    ensures Gather(search, [], [query])
              == match search(query)
                 case Failure(e) => Gathering([], Some(e))
                 case Success(found) => Gathering([] + found, None)
  {
    assert [query][1..] == [];
  }

  class DocumentSearchService {
    const store: VectorStore

    constructor (store: VectorStore)
      ensures this.store == store
    {
      this.store := store;
    }

    /** Three searches in a row inside one `try`: the first that throws ends the block, and the
        documents found before it are kept. */
    method SearchInTurn(acc: seq<Doc>, a: string, b: string, c: string) returns (g: Gathering)
      modifies store
      ensures store.documents == old(store.documents) && store.batches == old(store.batches)
      ensures store.searches == old(store.searches) + Issued(store.search, [a, b, c])
      ensures g == Gather(store.search, acc, [a, b, c])
    {
      ThreeQueriesStopAtFirstFailure(store.search, acc, a, b, c);
      var allResults := acc;
      var found := store.SimilaritySearch(a);
      if found.Failure? {
        return Gathering(allResults, Some(found.error));
      }
      allResults := allResults + found.value;
      found := store.SimilaritySearch(b);
      if found.Failure? {
        return Gathering(allResults, Some(found.error));
      }
      allResults := allResults + found.value;
      found := store.SimilaritySearch(c);
      if found.Failure? {
        return Gathering(allResults, Some(found.error));
      }
      allResults := allResults + found.value;
      g := Gathering(allResults, None);
    }

    /** The specific branch of `searchDocuments`: the query text itself, once. */
    method SearchLiterally(query: string) returns (g: Gathering)
      modifies store
      ensures store.documents == old(store.documents) && store.batches == old(store.batches)
      ensures store.searches == old(store.searches) + Issued(store.search, [query])
      ensures g == Gather(store.search, [], [query])
    {
      SingleQuery(store.search, query);
      var found := store.SimilaritySearch(query);
      if found.Failure? {
        return Gathering([], Some(found.error));
      }
      g := Gathering([] + found.value, None);
    }

    /** `searchDocuments(query, conversationId)`. The store records the queries it receives;
        `merged` is the order the deduplicating map produced. */
    method SearchDocuments(query: string, conversationId: string)
      returns (answer: string, ghost merged: seq<Doc>)
      modifies store
      ensures store.documents == old(store.documents) && store.batches == old(store.batches)
      ensures IsBlank(query) ==> answer == PleaseProvideQuery && store.searches == old(store.searches)
      ensures !IsBlank(query) ==> store.searches == old(store.searches) + Issued(store.search, SearchQueries(query))
      ensures !IsBlank(query) ==>
                var g := Gather(store.search, [], SearchQueries(query));
                if g.failure.Some? then answer == SearchErrorPrefix + g.failure.value
                else IsDedupOf(merged, g.docs) && answer == SearchAnswer(query, conversationId, merged)
    {
      merged := [];
      if IsBlank(query) {
        answer := PleaseProvideQuery;
        return;
      }
      var g: Gathering;
      if IsBroad(query) {
        g := SearchInTurn([], "document", "information", "the");
      } else {
        g := SearchLiterally(query);
      }
      if g.failure.Some? {
        answer := SearchErrorPrefix + g.failure.value;
        return;
      }
      answer, merged := AnswerSearch(query, conversationId, g.docs);
    }

    /** `listUploadedDocuments(conversationId)`: "the", "and", "information" inside an inner try;
        if any of them throws, "content" is added to what was already gathered. */
    method ListUploadedDocuments(conversationId: string)
      returns (answer: string, ghost merged: seq<Doc>)
      modifies store
      ensures store.documents == old(store.documents) && store.batches == old(store.batches)
      ensures IsBlank(conversationId) ==> answer == NoConversationId && store.searches == old(store.searches)
      ensures !IsBlank(conversationId) ==>
                var g := Gather(store.search, [], ListQueries);
                && store.searches == old(store.searches) + Issued(store.search, ListQueries)
                                     + (if g.failure.Some? then [ListFallbackQuery] else [])
                && (g.failure.None? ==> IsDedupOf(merged, g.docs) && answer == ListingAnswer(conversationId, merged))
                && (g.failure.Some? ==>
                      match store.search(ListFallbackQuery)
                      case Failure(e) => answer == ListErrorPrefix + e
                      case Success(found) =>
                        IsDedupOf(merged, g.docs + found) && answer == ListingAnswer(conversationId, merged))
    {
      merged := [];
      if IsBlank(conversationId) {
        answer := NoConversationId;
        return;
      }
      var g := SearchInTurn([], "the", "and", "information");
      var allResults := g.docs;
      if g.failure.Some? {
        var fallback := store.SimilaritySearch(ListFallbackQuery);
        if fallback.Failure? {
          answer := ListErrorPrefix + fallback.error;
          return;
        }
        allResults := allResults + fallback.value;
      }

      answer, merged := AnswerListing(conversationId, allResults);
    }

    /** `getDocumentContents(conversationId)`. */
    method GetDocumentContents(conversationId: string)
      returns (answer: string, ghost merged: seq<Doc>)
      modifies store
      ensures store.documents == old(store.documents) && store.batches == old(store.batches)
      ensures IsBlank(conversationId) ==> answer == NoConversationId && store.searches == old(store.searches)
      ensures !IsBlank(conversationId) ==> store.searches == old(store.searches) + Issued(store.search, ContentsQueries)
      ensures !IsBlank(conversationId) ==>
                var g := Gather(store.search, [], ContentsQueries);
                if g.failure.Some? then answer == ContentsErrorPrefix + g.failure.value
                else IsDedupOf(merged, g.docs) && answer == ContentsAnswer(conversationId, merged)
    {
      merged := [];
      if IsBlank(conversationId) {
        answer := NoConversationId;
        return;
      }
      assert ContentsQueries[1..] == ["information", "content", "the"];
      var found := store.SimilaritySearch("document");
      if found.Failure? {
        answer := ContentsErrorPrefix + found.error;
        return;
      }
      var g := SearchInTurn([] + found.value, "information", "content", "the");
      if g.failure.Some? {
        answer := ContentsErrorPrefix + g.failure.value;
        return;
      }
      var allResults := g.docs;

      answer, merged := AnswerContents(conversationId, allResults);
    }
  }
}
