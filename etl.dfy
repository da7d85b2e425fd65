/**
 * The ingestion pipeline (`EtlService`): it finds files by extension under a classpath location or
 * a folder, extracts documents from them, tags each document with its provenance, stamps uploaded
 * documents with their conversation, splits them into chunks and adds the chunks to the index.
 * Extraction, splitting, the file system and the clock are the environment and arrive as functions.
 */
module Etl {
  import opened Base
  import opened Text
  import opened Documents
  import opened VectorStores

  // ---------------------------------------------------------------------------------------
  // Fixed texts and keys
  // ---------------------------------------------------------------------------------------

  const AllowedExtensions: seq<string> := [".txt", ".pdf", ".docx", ".pptx", ".xlsx", ".md", ".html", ".doc"]
  const ClasspathPrefix := "classpath:"

  const SourceUriKey := "source_uri"
  const FileNameKey := "file_name"
  const ProcessorKey := "processor"
  const IdKey := "id"
  const TikaProcessor := "tika"
  const UnreadableUri := "classpath"

  const UploadTimeKey := "upload_time"
  const FileTypeKey := "file_type"
  const TempFilenameKey := "temp_filename"

  const SampleThreshold := 25
  const SampleSize := 20

  const NoConversationIdError := "Error: No conversation ID provided"
  const NoTempFilenameError := "Error: No temp filename provided"
  const FileNotFoundError := "Error: Could not find the uploaded file. Please try uploading it again."
  const NoContentExtracted :=
    "The file was processed, but no content could be extracted. Please try with a different file."
  const ProcessingErrorPrefix := "Error processing the file: "
  const SuccessPrefix := "\U{2705} Successfully processed file '"
  const SuccessSuffix := " chunks to the knowledge base. You can now ask questions about this document."

  // ---------------------------------------------------------------------------------------
  // The extension allow-list
  // ---------------------------------------------------------------------------------------

  /** The lowercased name ends with one of the allowed extensions. */
  predicate HasAllowedExtension(name: string) {
    exists ext | ext in AllowedExtensions :: EndsWith(Lower(name), ext)
  }

  /** The last `|ext|` characters of the name, lowercased, are `ext`. */
  predicate LowerEnding(name: string, ext: string) {
    |ext| <= |name| && Lower(name[|name| - |ext|..]) == ext
  }

  /** The allow-list test looks only at the name's ending: a name is accepted iff its last
      characters, lowercased, are one of the eight extensions. */
  lemma AllowListBySuffix(name: string)
    ensures HasAllowedExtension(name) <==>
              || LowerEnding(name, ".txt") || LowerEnding(name, ".pdf") || LowerEnding(name, ".docx")
              || LowerEnding(name, ".pptx") || LowerEnding(name, ".xlsx") || LowerEnding(name, ".md")
              || LowerEnding(name, ".html") || LowerEnding(name, ".doc")
  {
    var L := AllowedExtensions;
    assert L[0] == ".txt" && L[1] == ".pdf" && L[2] == ".docx" && L[3] == ".pptx";
    assert L[4] == ".xlsx" && L[5] == ".md" && L[6] == ".html" && L[7] == ".doc";
    forall i | 0 <= i < |L| ensures EndsWith(Lower(name), L[i]) <==> LowerEnding(name, L[i]) {
      EndsWithLower(name, L[i]);
    }
    if HasAllowedExtension(name) {
      var ext :| ext in L && EndsWith(Lower(name), ext);
      var i :| 0 <= i < |L| && L[i] == ext;
      assert LowerEnding(name, L[i]);
    } else {
      forall i | 0 <= i < |L| ensures !LowerEnding(name, L[i]) {
        assert L[i] in L;
      }
    }
  }

  lemma EndsWithLower(name: string, ext: string)
    ensures EndsWith(Lower(name), ext) <==> LowerEnding(name, ext)
  {
    if |ext| <= |name| {
      LowerCommutesWithSuffix(name);
      assert Lower(name)[|name| - |ext|..] == Lower(name[|name| - |ext|..]);
    }
  }

  /** Lowercasing a name and then taking a suffix is taking the suffix and then lowercasing it. */
  lemma LowerCommutesWithSuffix(name: string)
    ensures forall i | 0 <= i <= |name| :: Lower(name)[i..] == Lower(name[i..])
  {
    forall i | 0 <= i <= |name| ensures Lower(name)[i..] == Lower(name[i..]) {
      assert forall k | 0 <= k < |name| - i :: Lower(name)[i..][k] == Lower(name[i..])[k];
    }
  }

  /** Every allowed extension begins with a dot, so an accepted name contains one. */
  lemma AcceptedNameHasDot(name: string)
    requires HasAllowedExtension(name)
    ensures '.' in name
  {
    var ext :| ext in AllowedExtensions && EndsWith(Lower(name), ext);
    assert Lower(name)[|name| - |ext|] == ext[0] == '.';
    assert name[|name| - |ext|] == '.';
  }

  lemma LowerDistributes(a: string, b: string)
    ensures Lower(a + b) == Lower(a) + Lower(b)
  {
  }

  /** Only the end of a name decides: whatever precedes an accepted name, it stays accepted. */
  lemma ExtensionDecidedByEnding(prefix: string, name: string)
    requires HasAllowedExtension(name)
    ensures HasAllowedExtension(prefix + name)
  {
    var ext :| ext in AllowedExtensions && EndsWith(Lower(name), ext);
    LowerDistributes(prefix, name);
    EndsWithAfterPrefix(Lower(prefix), Lower(name), ext);
  }

  /** The test ignores the case of ASCII letters: a name and its lowercase form agree. */
  lemma ExtensionIgnoresCase(name: string)
    ensures HasAllowedExtension(name) <==> HasAllowedExtension(Lower(name))
  {
    assert Lower(Lower(name)) == Lower(name);
  }

  /** Upper-case extensions pass. */
  lemma UpperCaseExtensionAccepted()
    ensures HasAllowedExtension("Report.PDF")
  {
    var lower := Lower("Report.PDF");
    assert lower[6..] == ".pdf";
    assert ".pdf" in AllowedExtensions;
  }

  lemma EndsWithLastTwo(s: string, suffix: string)
    requires |suffix| >= 2
    ensures EndsWith(s, suffix) ==> s[|s| - 1] == suffix[|suffix| - 1] && s[|s| - 2] == suffix[|suffix| - 2]
  {
    if EndsWith(s, suffix) {
      assert s[|s| - 1] == s[|s| - |suffix|..][|suffix| - 1];
      assert s[|s| - 2] == s[|s| - |suffix|..][|suffix| - 2];
    }
  }

  /** An extension that merely begins like an allowed one does not pass. */
  lemma LookalikeExtensionRejected()
    ensures !HasAllowedExtension("notes.mdx")
  {
    var lower := Lower("notes.mdx");
    assert |lower| == 9 && lower[8] == 'x' && lower[7] == 'd';
    forall ext | ext in AllowedExtensions ensures !EndsWith(lower, ext) {
      EndsWithLastTwo(lower, ext);
      assert ext[|ext| - 1] != 'x' || ext[|ext| - 2] != 'd';
    }
  }

  // ---------------------------------------------------------------------------------------
  // The source descriptor
  // ---------------------------------------------------------------------------------------

  datatype Source = Classpath(base: string) | Filesystem(folder: string)

  /** A "classpath:" descriptor loses that prefix and then at most one leading "/"; anything else
      names a folder of the file system. */
  function ResolveSource(sourcePath: string): (s: Source)
    ensures s.Classpath? <==> StartsWith(sourcePath, ClasspathPrefix)
    ensures s.Filesystem? ==> s.folder == sourcePath
    ensures s.Classpath? ==>
              var rest := sourcePath[|ClasspathPrefix|..];
              if StartsWith(rest, "/") then rest == "/" + s.base else rest == s.base
  {
    if StartsWith(sourcePath, ClasspathPrefix) then
      var base := sourcePath[|ClasspathPrefix|..];
      Classpath(if StartsWith(base, "/") then base[1..] else base)
    else Filesystem(sourcePath)
  }

  /** Writing a base with or without one leading slash names the same classpath location, and a
      second slash is kept. */
  lemma ClasspathDescriptorRoundTrip(base: string)
    ensures !StartsWith(base, "/") ==> ResolveSource(ClasspathPrefix + base) == Classpath(base)
    ensures ResolveSource(ClasspathPrefix + "/" + base) == Classpath(base)
  {
    assert (ClasspathPrefix + base)[|ClasspathPrefix|..] == base;
    assert (ClasspathPrefix + "/" + base)[|ClasspathPrefix|..] == "/" + base;
    assert ("/" + base)[1..] == base;
  }

  /** The resolver pattern: every resource at any depth below the base. */
  function ClasspathPattern(base: string): string {
    "classpath*:" + base + "/**/*"
  }

  // ---------------------------------------------------------------------------------------
  // Resources and candidates
  // ---------------------------------------------------------------------------------------

  /** A classpath resource or a walked path: its file name (a classpath resource may have none),
      its URI (absent when `getURI` throws) and whether it is a regular file. */
  datatype Resource = Resource(fileName: Option<string>, uri: Option<string>, regularFile: bool)

  /** What `new File(folder)` finds: no directory there, or a directory whose walk lists its
      entries or throws. */
  datatype Folder = NoDirectory | Directory(walk: Result<seq<Resource>, string>)

  /** A resource to extract, with the file name recorded in its documents. */
  datatype Candidate = Candidate(resource: Resource, name: string)

  /** `safeUri`: the URI text, or "classpath" when it cannot be read. */
  function SafeUri(res: Resource): (uri: string)
    ensures res.uri.None? ==> uri == UnreadableUri
    ensures res.uri.Some? ==> uri == res.uri.value
  {
    match res.uri
    case None => UnreadableUri
    case Some(u) => u
  }

  /** The classpath loop's skips: a resource without a name, or with a name outside the allow-list. */
  function ClasspathCandidates(resources: seq<Resource>): (cs: seq<Candidate>)
    ensures |cs| <= |resources|
    ensures forall c | c in cs :: c.resource in resources && c.resource.fileName == Some(c.name) && HasAllowedExtension(c.name)
    ensures forall r | r in resources && r.fileName.Some? && HasAllowedExtension(r.fileName.value) ::
              Candidate(r, r.fileName.value) in cs
  {
    if resources == [] then []
    else
      var before := ClasspathCandidates(resources[..|resources| - 1]);
      var r := resources[|resources| - 1];
      assert forall x | x in resources[..|resources| - 1] :: x in resources;
      if r.fileName.Some? && HasAllowedExtension(r.fileName.value) then before + [Candidate(r, r.fileName.value)]
      else before
  }

  /** One resolved resource through the classpath skips: kept, under its own name, or dropped. */
  function Named(r: Resource): (cs: seq<Candidate>)
    ensures cs != [] <==> r.fileName.Some? && HasAllowedExtension(r.fileName.value)
    ensures cs != [] ==> cs == [Candidate(r, r.fileName.value)]
  {
    if r.fileName.Some? && HasAllowedExtension(r.fileName.value) then [Candidate(r, r.fileName.value)]
    else []
  }

  /** The classpath loop keeps resolver order: it distributes over concatenation (and a single
      resource is kept iff it passes, by `Named`). */
  lemma {:induction false} ClasspathCandidatesKeepResolverOrder(a: seq<Resource>, b: seq<Resource>)
    ensures ClasspathCandidates(a + b) == ClasspathCandidates(a) + ClasspathCandidates(b)
    decreases |b|
  {
    if b == [] {
      assert a + b == a;
    } else {
      var init := b[..|b| - 1];
      assert (a + b)[..|a + b| - 1] == a + init && (a + b)[|a + b| - 1] == b[|b| - 1];
      ClasspathCandidatesKeepResolverOrder(a, init);
      assert ClasspathCandidates(b) == ClasspathCandidates(init) + Named(b[|b| - 1]);
    }
  }

  /** The walk's filters: regular files whose name is on the allow-list, in walk order. */
  function FileCandidates(entries: seq<Resource>): (cs: seq<Candidate>)
    ensures |cs| <= |entries|
    ensures forall c | c in cs ::
              c.resource in entries && c.resource.regularFile && c.resource.fileName == Some(c.name) && HasAllowedExtension(c.name)
    ensures forall r | r in entries && r.regularFile && r.fileName.Some? && HasAllowedExtension(r.fileName.value) ::
              Candidate(r, r.fileName.value) in cs
  {
    if entries == [] then []
    else
      assert forall x | x in entries[1..] :: x in entries;
      Filtered(entries[0]) + FileCandidates(entries[1..])
  }

  /** One walked entry through the filters: kept as a candidate, or dropped. */
  function Filtered(r: Resource): (cs: seq<Candidate>)
    ensures cs != [] <==> r.regularFile && r.fileName.Some? && HasAllowedExtension(r.fileName.value)
    ensures cs != [] ==> cs == [Candidate(r, r.fileName.value)]
  {
    if r.regularFile && r.fileName.Some? && HasAllowedExtension(r.fileName.value) then [Candidate(r, r.fileName.value)]
    else []
  }

  /** The walk's filters keep walk order: they distribute over concatenation (and a single entry is
      kept iff it passes, by the contract above). */
  lemma {:induction false} FileCandidatesKeepWalkOrder(a: seq<Resource>, b: seq<Resource>)
    ensures FileCandidates(a + b) == FileCandidates(a) + FileCandidates(b)
  {
    if a == [] {
      assert a + b == b;
    } else {
      assert (a + b)[0] == a[0] && (a + b)[1..] == a[1..] + b;
      FileCandidatesKeepWalkOrder(a[1..], b);
    }
  }

  // ---------------------------------------------------------------------------------------
  // Provenance tagging
  // ---------------------------------------------------------------------------------------

  /** `Map.putIfAbsent`: the key is added when missing; an existing value is never replaced. */
  function PutIfAbsent(m: Metadata, key: string, value: string): Metadata {
    if key in m then m else m[key := value]
  }

  /** The key is present afterwards; its value is the existing one if there was one; no other key
      is added and no existing value changes. */
  lemma PutIfAbsentNeverReplaces(m: Metadata, key: string, value: string)
    ensures PutIfAbsent(m, key, value).Keys == m.Keys + {key}
    ensures PutIfAbsent(m, key, value)[key] == if key in m then m[key] else value
    ensures forall k | k in m :: PutIfAbsent(m, key, value)[k] == m[k]
  {
  }

  predicate HasProvenance(d: Doc) {
    SourceUriKey in d.metadata && FileNameKey in d.metadata && ProcessorKey in d.metadata && IdKey in d.metadata
  }

  /** The four `putIfAbsent` calls on one extracted document. */
  function Tagged(d: Doc, uri: string, filename: string, uuid: string): (t: Doc)
    ensures t.id == d.id && t.text == d.text
    ensures HasProvenance(t)
  {
    var m1 := PutIfAbsent(d.metadata, SourceUriKey, uri);
    var m2 := PutIfAbsent(m1, FileNameKey, filename);
    var m3 := PutIfAbsent(m2, ProcessorKey, TikaProcessor);
    d.(metadata := PutIfAbsent(m3, IdKey, uuid))
  }

  /** Tagging adds the four keys where they are missing and changes no value already present. */
  lemma TaggingFillsOnlyAbsentKeys(d: Doc, uri: string, filename: string, uuid: string)
    ensures var t := Tagged(d, uri, filename, uuid);
            && t.metadata.Keys == d.metadata.Keys + {SourceUriKey, FileNameKey, ProcessorKey, IdKey}
            && (forall k | k in d.metadata :: t.metadata[k] == d.metadata[k])
            && (SourceUriKey !in d.metadata ==> t.metadata[SourceUriKey] == uri)
            && (FileNameKey !in d.metadata ==> t.metadata[FileNameKey] == filename)
            && (ProcessorKey !in d.metadata ==> t.metadata[ProcessorKey] == TikaProcessor)
            && (IdKey !in d.metadata ==> t.metadata[IdKey] == uuid)
  {
  }

  /** Tagging an already tagged document changes nothing, whatever the new values would be. */
  lemma TaggingIsIdempotent(d: Doc, uri: string, filename: string, uuid: string,
                            uri': string, filename': string, uuid': string)
    ensures Tagged(Tagged(d, uri, filename, uuid), uri', filename', uuid') == Tagged(d, uri, filename, uuid)
  {
    var t := Tagged(d, uri, filename, uuid);
    TaggingFillsOnlyAbsentKeys(d, uri, filename, uuid);
    TaggingFillsOnlyAbsentKeys(t, uri', filename', uuid');
    assert Tagged(t, uri', filename', uuid').metadata == t.metadata;
  }

  /** Each extracted document tagged in list order; the i-th draws the i-th random UUID. */
  function TagAll(docs: seq<Doc>, uri: string, filename: string, uuids: nat -> string, drawn: nat): (r: seq<Doc>)
    ensures |r| == |docs|
    ensures forall d | d in r :: HasProvenance(d)
    ensures forall i | 0 <= i < |docs| :: r[i].id == docs[i].id && r[i].text == docs[i].text
  {
    seq(|docs|, i requires 0 <= i < |docs| => Tagged(docs[i], uri, filename, uuids(drawn + i)))
  }

  /** The i-th tagged document is the i-th extracted one with every metadata value kept and the
      four provenance keys filled in where they were missing, its id from the i-th UUID drawn. */
  lemma TagAllFillsOnlyAbsentKeys(docs: seq<Doc>, uri: string, filename: string, uuids: nat -> string, drawn: nat,
                                  i: nat)
    requires i < |docs|
    ensures var t, d := TagAll(docs, uri, filename, uuids, drawn)[i], docs[i];
            && t.metadata.Keys == d.metadata.Keys + {SourceUriKey, FileNameKey, ProcessorKey, IdKey}
            && (forall k | k in d.metadata :: t.metadata[k] == d.metadata[k])
            && (SourceUriKey !in d.metadata ==> t.metadata[SourceUriKey] == uri)
            && (FileNameKey !in d.metadata ==> t.metadata[FileNameKey] == filename)
            && (ProcessorKey !in d.metadata ==> t.metadata[ProcessorKey] == TikaProcessor)
            && (IdKey !in d.metadata ==> t.metadata[IdKey] == uuids(drawn + i))
  {
    TaggingFillsOnlyAbsentKeys(docs[i], uri, filename, uuids(drawn + i));
  }

  /** What one resource contributes: nothing when extraction throws, else its tagged documents;
      `drawn` counts the UUIDs drawn so far. */
  datatype Extraction = Extraction(docs: seq<Doc>, drawn: nat)

  // ---------------------------------------------------------------------------------------
  // The ID log
  // ---------------------------------------------------------------------------------------

  /** One log line per chunk: its id, then the file it came from (or "unknown"). */
  function IdLine(chunk: Doc): (line: string)
    ensures StartsWith(line, chunk.id + " (source: ") && EndsWith(line, ")")
  {
    chunk.id + " (source: " + GetOrDefault(chunk.metadata, FileNameKey, "unknown") + ")"
  }

  function Trailer(remaining: nat): string {
    "... And (" + NatToString(remaining) + " more document IDs)"
  }

  /** The trailer names its count unambiguously: two trailers are equal only for equal counts. */
  lemma TrailerNamesItsCount(a: nat, b: nat)
    requires Trailer(a) == Trailer(b)
    ensures a == b
  {
    var ta, tb := Trailer(a), Trailer(b);
    var ra, rb := NatToString(a), NatToString(b);
    assert |ra| == |ta| - 28 == |tb| - 28 == |rb|;
    assert ta[9..9 + |ra|] == ra;
    assert tb[9..9 + |rb|] == rb;
    NatToStringInjective(a, b);
  }

  /** The lines the ID log prints: all of them up to 25, else the first 20 and a trailer naming
      how many were held back. */
  function SampledLog(lines: seq<string>): (printed: seq<string>)
    ensures printed == lines <==> |lines| <= SampleThreshold
    ensures |lines| > SampleThreshold ==>
              |printed| == SampleSize + 1
              && printed[..SampleSize] == lines[..SampleSize]
              && printed[SampleSize] == Trailer(|lines| - SampleSize)
  {
    if |lines| <= SampleThreshold then lines else lines[..SampleSize] + [Trailer(|lines| - SampleSize)]
  }

  /** A trailer, when printed, holds back at least six lines: 21 to 25 lines are printed in full. */
  lemma TrailerHidesAtLeastSix(lines: seq<string>)
    requires SampledLog(lines) != lines
    ensures exists hidden: nat | hidden > SampleThreshold - SampleSize ::
              SampledLog(lines)[|SampledLog(lines)| - 1] == Trailer(hidden)
              && |SampledLog(lines)| - 1 + hidden == |lines|
  {
    var hidden: nat := |lines| - SampleSize;
    assert SampledLog(lines)[|SampledLog(lines)| - 1] == Trailer(hidden);
  }

  /** The counting loop with its `break`. */
  method LogSampledIds(lines: seq<string>) returns (printed: seq<string>)
    ensures printed == SampledLog(lines)
  {
    printed := [];
    var count := 0;
    for i := 0 to |lines|
      invariant count == i && printed == lines[..i]
      invariant count < SampleSize || |lines| <= SampleThreshold
    {
      printed := printed + [lines[i]];
      count := count + 1;
      if count >= SampleSize && |lines| > SampleThreshold {
        printed := printed + [Trailer(|lines| - count)];
        break;
      }
    }
    if |lines| <= SampleThreshold {
      assert lines[..|lines|] == lines;
    }
  }

  // ---------------------------------------------------------------------------------------
  // Upload stamping
  // ---------------------------------------------------------------------------------------

  /** The five `put` calls on one uploaded document: afterwards it belongs to the conversation. */
  function Stamp(d: Doc, conversationId: string, uploadTime: string, fileType: string,
                 originalFileName: string, tempFileName: string): (t: Doc)
    ensures t.id == d.id && t.text == d.text
    ensures InConversation(t, conversationId)
  {
    d.(metadata := d.metadata[ConversationIdKey := conversationId][UploadTimeKey := uploadTime]
                             [FileTypeKey := fileType][OriginalFilenameKey := originalFileName]
                             [TempFilenameKey := tempFileName])
  }

  /** Stamping overwrites the five upload keys, whatever they held, and leaves every other key as it was. */
  lemma StampOverwritesUploadKeys(d: Doc, conversationId: string, uploadTime: string, fileType: string,
                                  originalFileName: string, tempFileName: string)
    ensures var t := Stamp(d, conversationId, uploadTime, fileType, originalFileName, tempFileName);
            && t.metadata.Keys == d.metadata.Keys
                 + {ConversationIdKey, UploadTimeKey, FileTypeKey, OriginalFilenameKey, TempFilenameKey}
            && t.metadata[ConversationIdKey] == conversationId && t.metadata[UploadTimeKey] == uploadTime
            && t.metadata[FileTypeKey] == fileType && t.metadata[OriginalFilenameKey] == originalFileName
            && t.metadata[TempFilenameKey] == tempFileName
            && forall k | k in d.metadata && k !in {ConversationIdKey, UploadTimeKey, FileTypeKey, OriginalFilenameKey, TempFilenameKey} ::
                 t.metadata[k] == d.metadata[k]
  {
  }

  /** Stamping twice with the same upload is stamping once, and a later stamp wins every key. */
  lemma StampOverwrites(d: Doc, cid: string, time: string, fileType: string, original: string, temp: string,
                        cid': string, time': string, fileType': string, original': string, temp': string)
    ensures Stamp(Stamp(d, cid, time, fileType, original, temp), cid', time', fileType', original', temp')
            == Stamp(d, cid', time', fileType', original', temp')
  {
    var once := Stamp(d, cid', time', fileType', original', temp');
    var twice := Stamp(Stamp(d, cid, time, fileType, original, temp), cid', time', fileType', original', temp');
    assert twice.metadata == once.metadata;
  }

  /** Every document of one upload, stamped in order; the i-th reads the clock the i-th time. */
  function StampAll(docs: seq<Doc>, conversationId: string, now: nat -> string, fileType: string,
                    originalFileName: string, tempFileName: string): (r: seq<Doc>)
    ensures |r| == |docs|
    ensures forall i | 0 <= i < |docs| :: r[i].id == docs[i].id && r[i].text == docs[i].text
    ensures FilterByConversation(r, conversationId) == r
  {
    var r := seq(|docs|, i requires 0 <= i < |docs| =>
                 Stamp(docs[i], conversationId, now(i), fileType, originalFileName, tempFileName));
    assert forall i | 0 <= i < |r| :: InConversation(r[i], conversationId) && r[i].id == docs[i].id && r[i].text == docs[i].text by {
      forall i | 0 <= i < |r| ensures InConversation(r[i], conversationId) && r[i].id == docs[i].id && r[i].text == docs[i].text {
        assert r[i] == Stamp(docs[i], conversationId, now(i), fileType, originalFileName, tempFileName);
      }
    }
    FilterKeepsMatching(r, conversationId);
    r
  }

  /** The i-th stamped document carries the five upload values (the clock read for the i-th time),
      whatever it held before, and every other key of the i-th extracted document unchanged. */
  lemma StampAllOverwritesUploadKeys(docs: seq<Doc>, conversationId: string, now: nat -> string, fileType: string,
                                     originalFileName: string, tempFileName: string, i: nat)
    requires i < |docs|
    ensures var t, d := StampAll(docs, conversationId, now, fileType, originalFileName, tempFileName)[i], docs[i];
            && t.metadata.Keys == d.metadata.Keys
                 + {ConversationIdKey, UploadTimeKey, FileTypeKey, OriginalFilenameKey, TempFilenameKey}
            && t.metadata[ConversationIdKey] == conversationId && t.metadata[UploadTimeKey] == now(i)
            && t.metadata[FileTypeKey] == fileType && t.metadata[OriginalFilenameKey] == originalFileName
            && t.metadata[TempFilenameKey] == tempFileName
            && forall k | k in d.metadata && k !in {ConversationIdKey, UploadTimeKey, FileTypeKey, OriginalFilenameKey, TempFilenameKey} ::
                 t.metadata[k] == d.metadata[k]
  {
    StampOverwritesUploadKeys(docs[i], conversationId, now(i), fileType, originalFileName, tempFileName);
  }

  /** The answer of a successful or failed store step: a failure is reported with the processing
      error prefix and its message, a success names the file. */
  function UploadMessage(originalFileName: string, stored: Result<nat, string>): (message: string)
    ensures StartsWith(message, ProcessingErrorPrefix) <==> stored.Failure?
    ensures stored.Failure? ==> message[|ProcessingErrorPrefix|..] == stored.error
    ensures stored.Success? ==> StartsWith(message, SuccessPrefix + originalFileName + "'")
    ensures stored.Success? ==>
              message == SuccessPrefix + originalFileName + "' and added " + NatToString(stored.value) + SuccessSuffix
  {
    assert ProcessingErrorPrefix[0] == 'E' && SuccessPrefix[0] == '\U{2705}';
    match stored
    case Success(chunks) => SuccessPrefix + originalFileName + "' and added " + NatToString(chunks) + SuccessSuffix
    case Failure(e) => ProcessingErrorPrefix + e
  }

  /** The success message reports the chunk count unambiguously: for one file, equal messages
      mean equal counts. */
  lemma UploadMessageNamesCount(originalFileName: string, a: nat, b: nat)
    requires UploadMessage(originalFileName, Success(a)) == UploadMessage(originalFileName, Success(b))
    ensures a == b
  {
    var head := SuccessPrefix + originalFileName + "' and added ";
    var ma, mb := UploadMessage(originalFileName, Success(a)), UploadMessage(originalFileName, Success(b));
    var ra, rb := NatToString(a), NatToString(b);
    assert |ra| == |ma| - |head| - |SuccessSuffix| == |rb|;
    assert ma[|head|..|head| + |ra|] == ra;
    assert mb[|head|..|head| + |rb|] == rb;
    NatToStringInjective(a, b);
  }

  /** What `loadDocumentsIntoVectorDatabase` ends in: skipped by the flag, a scan that threw, a
      store step that returned a chunk count, or a store step whose exception escapes. */
  datatype LoadOutcome = Skipped | ScanFailed(error: string) | Loaded(chunks: nat) | StoreFailed(error: string)

  // ---------------------------------------------------------------------------------------
  // The service
  // ---------------------------------------------------------------------------------------

  class EtlService {
    const store: VectorStore
    const documentFolderPath: string
    const loadDocumentsOnStartup: bool
    /** `new TikaDocumentReader(resource).get()`: the documents, or the exception's message. */
    const tika: Resource -> Result<seq<Doc>, string>
    /** `TokenTextSplitter.apply`. */
    const splitter: seq<Doc> -> seq<Doc>
    /** `PathMatchingResourcePatternResolver.getResources(pattern)`. */
    const classpath: string -> Result<seq<Resource>, string>
    /** The file system at a folder path. */
    const folders: string -> Folder
    /** The upload directory entry named by a temp file name. */
    const uploadResource: string -> Resource
    /** Whether `Files.deleteIfExists` succeeds on a temp file. */
    const deleteSucceeds: string -> bool
    /** The temp file names present in the upload directory. */
    var tempFiles: set<string>

    constructor (store: VectorStore, documentFolderPath: string, loadDocumentsOnStartup: bool,
                 tika: Resource -> Result<seq<Doc>, string>, splitter: seq<Doc> -> seq<Doc>,
                 classpath: string -> Result<seq<Resource>, string>, folders: string -> Folder,
                 uploadResource: string -> Resource, deleteSucceeds: string -> bool, tempFiles: set<string>)
      ensures this.store == store && this.documentFolderPath == documentFolderPath
      ensures this.loadDocumentsOnStartup == loadDocumentsOnStartup
      ensures this.tika == tika && this.splitter == splitter && this.classpath == classpath
      ensures this.folders == folders && this.uploadResource == uploadResource
      ensures this.deleteSucceeds == deleteSucceeds && this.tempFiles == tempFiles
    {
      this.store := store;
      this.documentFolderPath := documentFolderPath;
      this.loadDocumentsOnStartup := loadDocumentsOnStartup;
      this.tika := tika;
      this.splitter := splitter;
      this.classpath := classpath;
      this.folders := folders;
      this.uploadResource := uploadResource;
      this.deleteSucceeds := deleteSucceeds;
      this.tempFiles := tempFiles;
    }

    // ---- specification functions

    /** `processResource(resource, filename)`: an extraction that throws yields no documents. */
    function Extracted(resource: Resource, filename: string, uuids: nat -> string, drawn: nat): (e: Extraction)
      ensures tika(resource).Failure? ==> e == Extraction([], drawn)
      ensures tika(resource).Success? ==> |e.docs| == |tika(resource).value| && e.drawn == drawn + |e.docs|
      ensures tika(resource).Success? ==>
                forall i | 0 <= i < |e.docs| :: e.docs[i].id == tika(resource).value[i].id && e.docs[i].text == tika(resource).value[i].text
      ensures forall d | d in e.docs :: HasProvenance(d)
    {
      match tika(resource)
      case Failure(_) => Extraction([], drawn)
      case Success(found) => Extraction(TagAll(found, SafeUri(resource), filename, uuids, drawn), drawn + |found|)
    }

    /** The i-th document of an extraction is the i-th extracted one with every metadata value kept
        and the four provenance keys filled in where missing; the URI is read safely. */
    lemma ExtractedFillsOnlyAbsentKeys(resource: Resource, filename: string, uuids: nat -> string, drawn: nat, i: nat)
      requires tika(resource).Success? && i < |tika(resource).value|
      ensures var t, d := Extracted(resource, filename, uuids, drawn).docs[i], tika(resource).value[i];
              && t.metadata.Keys == d.metadata.Keys + {SourceUriKey, FileNameKey, ProcessorKey, IdKey}
              && (forall k | k in d.metadata :: t.metadata[k] == d.metadata[k])
              && (SourceUriKey !in d.metadata ==> t.metadata[SourceUriKey] == SafeUri(resource))
              && (FileNameKey !in d.metadata ==> t.metadata[FileNameKey] == filename)
              && (ProcessorKey !in d.metadata ==> t.metadata[ProcessorKey] == TikaProcessor)
              && (IdKey !in d.metadata ==> t.metadata[IdKey] == uuids(drawn + i))
    {
      TagAllFillsOnlyAbsentKeys(tika(resource).value, SafeUri(resource), filename, uuids, drawn, i);
    }

    /** The candidates' documents appended in candidate order; one UUID is drawn per document. */
    function ExtractAll(cs: seq<Candidate>, uuids: nat -> string, drawn: nat): (e: Extraction)
      ensures e.drawn == drawn + |e.docs|
      ensures |cs| == 1 ==> e == Extracted(cs[0].resource, cs[0].name, uuids, drawn)
      ensures forall d | d in e.docs :: HasProvenance(d)
    {
      if cs == [] then Extraction([], drawn)
      else
        var before := ExtractAll(cs[..|cs| - 1], uuids, drawn);
        var c := cs[|cs| - 1];
        var last := Extracted(c.resource, c.name, uuids, before.drawn);
        Extraction(before.docs + last.docs, last.drawn)
    }

    /** Extraction keeps candidate order: the candidates of `a + b` yield those of `a`, then those of
        `b`, which draw their UUIDs after `a`'s. */
    lemma {:induction false} ExtractAllAppends(a: seq<Candidate>, b: seq<Candidate>, uuids: nat -> string, drawn: nat)
      ensures var ea := ExtractAll(a, uuids, drawn);
              var eb := ExtractAll(b, uuids, ea.drawn);
              ExtractAll(a + b, uuids, drawn) == Extraction(ea.docs + eb.docs, eb.drawn)
    {
      if b == [] {
        assert a + b == a;
      } else {
        var b', c := b[..|b| - 1], b[|b| - 1];
        assert (a + b)[..|a + b| - 1] == a + b' && (a + b)[|a + b| - 1] == c;
        ExtractAllAppends(a, b', uuids, drawn);
        var ea := ExtractAll(a, uuids, drawn);
        var eb' := ExtractAll(b', uuids, ea.drawn);
        var last := Extracted(c.resource, c.name, uuids, eb'.drawn);
        assert ExtractAll(b, uuids, ea.drawn) == Extraction(eb'.docs + last.docs, last.drawn);
        assert ExtractAll(a + b, uuids, drawn) == Extraction((ea.docs + eb'.docs) + last.docs, last.drawn);
        assert (ea.docs + eb'.docs) + last.docs == ea.docs + (eb'.docs + last.docs);
      }
    }

    /** `processDocumentSource(sourcePath)`: the documents found, or the IOException's message. */
    function Scan(sourcePath: string, uuids: nat -> string, drawn: nat): (r: Result<Extraction, string>)
      ensures r.Success? ==> forall d | d in r.value.docs :: HasProvenance(d)
      ensures ResolveSource(sourcePath).Filesystem? && folders(sourcePath).NoDirectory? ==> r == Success(Extraction([], drawn))
    {
      match ResolveSource(sourcePath)
      case Classpath(base) =>
        (match classpath(ClasspathPattern(base))
         case Failure(e) => Failure(e)
         case Success(resources) => Success(ExtractAll(ClasspathCandidates(resources), uuids, drawn)))
      case Filesystem(folder) =>
        (match folders(folder)
         case NoDirectory => Success(Extraction([], drawn))
         case Directory(Failure(e)) => Failure(e)
         case Directory(Success(entries)) => Success(ExtractAll(FileCandidates(entries), uuids, drawn)))
    }

    /** The batches `processAndStoreDocuments` passes to `add`: none for an empty input or an empty
        split, otherwise exactly one holding every chunk. */
    function AddCalls(documents: seq<Doc>): (calls: seq<seq<Doc>>)
      ensures |calls| <= 1
      ensures calls == [] <==> documents == [] || splitter(documents) == []
      ensures forall b | b in calls :: b == splitter(documents)
    {
      if documents == [] || splitter(documents) == [] then [] else [splitter(documents)]
    }

    /** `processAndStoreDocuments(documents)`: the chunk count, or the message of `add`'s exception. */
    function StoreOutcome(documents: seq<Doc>): (r: Result<nat, string>)
      ensures AddCalls(documents) == [] ==> r == Success(0)
      ensures AddCalls(documents) != [] && r.Success? ==> r.value == |splitter(documents)|
      ensures r.Failure? <==> AddCalls(documents) != [] && store.addFailure(splitter(documents)).Some?
      ensures r.Failure? ==> r.error == store.addFailure(splitter(documents)).value
    {
      if documents == [] then Success(0)
      else
        var chunks := splitter(documents);
        if chunks == [] then Success(0)
        else match store.addFailure(chunks)
          case Some(e) => Failure(e)
          case None => Success(|chunks|)
    }

    // ---- operations

    /** `processResource`: tags every extracted document in place, drawing one UUID per document. */
    method ProcessResource(resource: Resource, filename: string, uuids: nat -> string, drawn: nat)
      returns (docs: seq<Doc>, drawnAfter: nat)
      ensures Extraction(docs, drawnAfter) == Extracted(resource, filename, uuids, drawn)
    {
      docs, drawnAfter := [], drawn;
      var extracted := tika(resource);
      if extracted.Failure? {
        return;
      }
      var found := extracted.value;
      var tagged := found;
      for i := 0 to |tagged|
        invariant |tagged| == |found| && drawnAfter == drawn + i
        invariant forall j | 0 <= j < i :: tagged[j] == Tagged(found[j], SafeUri(resource), filename, uuids(drawn + j))
        invariant forall j | i <= j < |tagged| :: tagged[j] == found[j]
      {
        var d := tagged[i];
        var metadata := d.metadata;
        metadata := PutIfAbsent(metadata, SourceUriKey, SafeUri(resource));
        metadata := PutIfAbsent(metadata, FileNameKey, filename);
        metadata := PutIfAbsent(metadata, ProcessorKey, TikaProcessor);
        metadata := PutIfAbsent(metadata, IdKey, uuids(drawnAfter));
        assert d.(metadata := metadata) == Tagged(found[i], SafeUri(resource), filename, uuids(drawn + i));
        ghost var before := tagged;
        tagged := tagged[i := d.(metadata := metadata)];
        assert forall j | 0 <= j < |tagged| && j != i :: tagged[j] == before[j];
        drawnAfter := drawnAfter + 1;
      }
      ghost var expected := TagAll(found, SafeUri(resource), filename, uuids, drawn);
      assert forall j | 0 <= j < |tagged| :: tagged[j] == expected[j];
      assert tagged == expected;
      docs := docs + tagged;
      assert docs == tagged;
    }

    /** Extracts each candidate in turn and appends its documents. */
    method ExtractCandidates(cs: seq<Candidate>, uuids: nat -> string, drawn: nat)
      returns (extracted: seq<Doc>, drawnAfter: nat)
      ensures Extraction(extracted, drawnAfter) == ExtractAll(cs, uuids, drawn)
    {
      extracted, drawnAfter := [], drawn;
      for i := 0 to |cs|
        invariant Extraction(extracted, drawnAfter) == ExtractAll(cs[..i], uuids, drawn)
      {
        assert cs[..i + 1][..i] == cs[..i];
        var docs, d := ProcessResource(cs[i].resource, cs[i].name, uuids, drawnAfter);
        extracted := extracted + docs;
        drawnAfter := d;
      }
      assert cs[..|cs|] == cs;
    }

    /** `processDocumentSource`. The classpath loop skips nameless resources and names outside the
        allow-list; a missing folder yields no documents; an IOException is returned. */
    method ProcessDocumentSource(sourcePath: string, uuids: nat -> string, drawn: nat)
      returns (result: Result<seq<Doc>, string>, drawnAfter: nat)
      ensures match Scan(sourcePath, uuids, drawn)
              case Failure(e) => result == Failure(e) && drawnAfter == drawn
              case Success(x) => result == Success(x.docs) && drawnAfter == x.drawn
    {
      drawnAfter := drawn;
      var extractedDocuments: seq<Doc> := [];
      if StartsWith(sourcePath, ClasspathPrefix) {
        var base := sourcePath[|ClasspathPrefix|..];
        if StartsWith(base, "/") {
          base := base[1..];
        }
        var found := classpath(ClasspathPattern(base));
        if found.Failure? {
          result := Failure(found.error);
          return;
        }
        var resources := found.value;
        for i := 0 to |resources|
          invariant Extraction(extractedDocuments, drawnAfter)
                    == ExtractAll(ClasspathCandidates(resources[..i]), uuids, drawn)
        {
          assert resources[..i + 1][..i] == resources[..i];
          var res := resources[i];
          var name := res.fileName;
          if name.None? {
            continue;
          }
          if !HasAllowedExtension(name.value) {
            continue;
          }
          ghost var cs := ClasspathCandidates(resources[..i + 1]);
          assert cs[..|cs| - 1] == ClasspathCandidates(resources[..i]);
          var docs, d := ProcessResource(res, name.value, uuids, drawnAfter);
          extractedDocuments := extractedDocuments + docs;
          drawnAfter := d;
        }
        assert resources[..|resources|] == resources;
      } else {
        var folder := sourcePath;
        var dir := folders(folder);
        if dir.NoDirectory? {
          result := Success(extractedDocuments);
          return;
        }
        if dir.walk.Failure? {
          result := Failure(dir.walk.error);
          return;
        }
        var files := FileCandidates(dir.walk.value);
        extractedDocuments, drawnAfter := ExtractCandidates(files, uuids, drawn);
      }
      result := Success(extractedDocuments);
    }

    /** `processAndStoreDocuments`: split, add once, log a sample of the chunk ids. `printed` is
        what the ID log shows (nothing when the method returns or throws before it). */
    method ProcessAndStoreDocuments(documents: seq<Doc>) returns (outcome: Result<nat, string>, ghost printed: seq<string>)
      modifies store
      ensures store.searches == old(store.searches)
      ensures outcome == StoreOutcome(documents)
      ensures store.batches == old(store.batches) + AddCalls(documents)
      ensures store.documents == if outcome.Success? && AddCalls(documents) != []
                                 then old(store.documents) + splitter(documents) else old(store.documents)
      ensures printed == if outcome.Success? && AddCalls(documents) != []
                         then SampledLog(seq(|splitter(documents)|, i requires 0 <= i < |splitter(documents)| => IdLine(splitter(documents)[i])))
                         else []
    {
      printed := [];
      if documents == [] {
        return Success(0), printed;
      }
      var chunkedDocuments := splitter(documents);
      if chunkedDocuments == [] {
        return Success(0), printed;
      }
      var documentIdsToLog: seq<string> := [];
      for i := 0 to |chunkedDocuments|
        invariant |documentIdsToLog| == i
        invariant forall j | 0 <= j < i :: documentIdsToLog[j] == IdLine(chunkedDocuments[j])
      {
        documentIdsToLog := documentIdsToLog + [IdLine(chunkedDocuments[i])];
      }
      var failure := store.Add(chunkedDocuments);
      if failure.Some? {
        return Failure(failure.value), printed;
      }
      printed := LogSampledIds(documentIdsToLog);
      outcome := Success(|chunkedDocuments|);
    }

    /** `loadDocumentsIntoVectorDatabase`: only with the startup flag set, and nothing is stored when
        the scan throws. */
    method LoadDocumentsIntoVectorDatabase(uuids: nat -> string, drawn: nat) returns (outcome: LoadOutcome, drawnAfter: nat)
      modifies store
      ensures store.searches == old(store.searches)
      ensures !loadDocumentsOnStartup ==>
                outcome == Skipped && drawnAfter == drawn
                && store.batches == old(store.batches) && store.documents == old(store.documents)
      ensures loadDocumentsOnStartup ==>
                match Scan(documentFolderPath, uuids, drawn)
                case Failure(e) =>
                  outcome == ScanFailed(e) && drawnAfter == drawn
                  && store.batches == old(store.batches) && store.documents == old(store.documents)
                case Success(x) =>
                  drawnAfter == x.drawn
                  && store.batches == old(store.batches) + AddCalls(x.docs)
                  && store.documents == (if StoreOutcome(x.docs).Success? && AddCalls(x.docs) != []
                                         then old(store.documents) + splitter(x.docs) else old(store.documents))
                  && outcome == match StoreOutcome(x.docs) case Success(n) => Loaded(n) case Failure(e) => StoreFailed(e)
    {
      drawnAfter := drawn;
      if !loadDocumentsOnStartup {
        return Skipped, drawnAfter;
      }
      var allRawDocuments: seq<Doc> := [];
      var scanned, d := ProcessDocumentSource(documentFolderPath, uuids, drawn);
      ghost var scan := Scan(documentFolderPath, uuids, drawn);
      if scanned.Failure? {
        assert scan.Failure?;
        return ScanFailed(scanned.error), drawnAfter;
      }
      assert scan.Success? && scan.value == Extraction(scanned.value, d);
      allRawDocuments := allRawDocuments + scanned.value;
      assert allRawDocuments == scan.value.docs;
      drawnAfter := d;
      var stored, _ := ProcessAndStoreDocuments(allRawDocuments);
      outcome := match stored case Success(n) => Loaded(n) case Failure(e) => StoreFailed(e);
    }

    /** `processUploadedFile`: the three argument checks in order, then extraction, stamping and
        storage inside a try whose `finally` deletes the temp file. `stamped` are the documents
        handed to the store step. */
    method ProcessUploadedFile(conversationId: string, originalFileName: string, tempFileName: string,
                               fileType: string, now: nat -> string, uuids: nat -> string, drawn: nat)
      returns (message: string, ghost stamped: seq<Doc>)
      modifies this, store
      ensures store.searches == old(store.searches)
      ensures IsBlank(conversationId) ==> message == NoConversationIdError
      ensures !IsBlank(conversationId) && IsBlank(tempFileName) ==> message == NoTempFilenameError
      ensures !IsBlank(conversationId) && !IsBlank(tempFileName) && tempFileName !in old(tempFiles) ==>
                message == FileNotFoundError
      ensures IsBlank(conversationId) || IsBlank(tempFileName) || tempFileName !in old(tempFiles) ==>
                tempFiles == old(tempFiles) && store.batches == old(store.batches) && store.documents == old(store.documents)
      ensures !IsBlank(conversationId) && !IsBlank(tempFileName) && tempFileName in old(tempFiles) ==>
                && tempFiles == (if deleteSucceeds(tempFileName) then old(tempFiles) - {tempFileName} else old(tempFiles))
                && var extracted := Extracted(uploadResource(tempFileName), originalFileName, uuids, drawn).docs;
                   if extracted == [] then
                     message == NoContentExtracted
                     && store.batches == old(store.batches) && store.documents == old(store.documents)
                   else
                     stamped == StampAll(extracted, conversationId, now, fileType, originalFileName, tempFileName)
                     && store.batches == old(store.batches) + AddCalls(stamped)
                     && store.documents == (if StoreOutcome(stamped).Success? && AddCalls(stamped) != []
                                            then old(store.documents) + splitter(stamped) else old(store.documents))
                     && message == UploadMessage(originalFileName, StoreOutcome(stamped))
    {
      stamped := [];
      if IsBlank(conversationId) {
        return NoConversationIdError, stamped;
      }
      if IsBlank(tempFileName) {
        return NoTempFilenameError, stamped;
      }
      if tempFileName !in tempFiles {
        return FileNotFoundError, stamped;
      }

      // try
      var resource := uploadResource(tempFileName);
      var documents, _ := ProcessResource(resource, originalFileName, uuids, drawn);
      if documents == [] {
        message := NoContentExtracted;
      } else {
        var uploaded := documents;
        for i := 0 to |uploaded|
          invariant |uploaded| == |documents|
          invariant forall j | 0 <= j < i ::
                      uploaded[j] == Stamp(documents[j], conversationId, now(j), fileType, originalFileName, tempFileName)
          invariant forall j | i <= j < |uploaded| :: uploaded[j] == documents[j]
        {
          var doc := uploaded[i];
          var metadata := doc.metadata;
          metadata := metadata[ConversationIdKey := conversationId];
          metadata := metadata[UploadTimeKey := now(i)];
          metadata := metadata[FileTypeKey := fileType];
          metadata := metadata[OriginalFilenameKey := originalFileName];
          metadata := metadata[TempFilenameKey := tempFileName];
          uploaded := uploaded[i := doc.(metadata := metadata)];
        }
        stamped := uploaded;
        var chunks, _ := ProcessAndStoreDocuments(uploaded);
        message := UploadMessage(originalFileName, chunks);
      }

      // finally
      if deleteSucceeds(tempFileName) {
        tempFiles := tempFiles - {tempFileName};
      }
    }
  }
}
