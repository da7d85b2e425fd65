/**
 * Retrieved documents and the stream pipelines the search service runs over them:
 * deduplication by id through `Collectors.toMap(...).values()`, the `conversation_id`
 * filter, and `distinct()` over file names.
 */
module Documents {
  import opened Text

  type Metadata = map<string, string>

  /** A Spring AI `Document`: its own id, its text and its metadata map. */
  datatype Doc = Doc(id: string, text: string, metadata: Metadata)

  const ConversationIdKey := "conversation_id"
  const OriginalFilenameKey := "original_filename"

  /** `Map.getOrDefault` on a metadata map. */
  function GetOrDefault(m: Metadata, key: string, default: string): string {
    if key in m then m[key] else default
  }

  // ---------------------------------------------------------------------------------------
  // Deduplication by id
  // ---------------------------------------------------------------------------------------

  function IdSet(s: seq<Doc>): set<string> {
    set d | d in s :: d.id
  }

  predicate DistinctIds(s: seq<Doc>) {
    forall i, j | 0 <= i < j < |s| :: s[i].id != s[j].id
  }

  /** `d` is the earliest document of `s` that carries `d`'s id. */
  ghost predicate IsFirstWithId(s: seq<Doc>, d: Doc) {
    exists i | 0 <= i < |s| :: s[i] == d && forall j | 0 <= j < i :: s[j].id != d.id
  }

  /** The map the deduplicating collector builds, whose merge rule keeps the existing entry: each id
      is bound to the document that was inserted first. */
  function FirstById(s: seq<Doc>): (m: map<string, Doc>)
    ensures m.Keys == IdSet(s)
    ensures forall k | k in m :: m[k].id == k && m[k] in s
  {
    if s == [] then map[]
    else
      var m := FirstById(s[..|s| - 1]);
      var d := s[|s| - 1];
      assert s == s[..|s| - 1] + [d];
      if d.id in m then m else m[d.id := d]
  }

  /** The first-occurrence list, in first-seen order. The service never observes this order
      (a `HashMap` has none); it is the reference the unordered result is compared against. */
  function FirstOccurrences(s: seq<Doc>): seq<Doc> {
    if s == [] then []
    else
      var r := FirstOccurrences(s[..|s| - 1]);
      var d := s[|s| - 1];
      if d.id in IdSet(s[..|s| - 1]) then r else r + [d]
  }

  /** `r` is a list the deduplication may return for `s`: some permutation of the first
      occurrence of every id. */
  ghost predicate IsDedupOf(r: seq<Doc>, s: seq<Doc>) {
    multiset(r) == multiset(FirstOccurrences(s))
  }

  /** `r` lists each value of `m` exactly once, and nothing else. */
  ghost predicate Enumerates(r: seq<Doc>, m: map<string, Doc>) {
    && (forall x :: multiset(r)[x] <= 1)
    && (forall j | 0 <= j < |r| :: r[j].id in m && m[r[j].id] == r[j])
    && (forall k | k in m :: m[k] in r)
  }

  lemma FirstWitness(s: seq<Doc>, d: Doc, i: int)
    requires 0 <= i < |s| && s[i] == d
    requires forall j | 0 <= j < i :: s[j].id != d.id
    ensures IsFirstWithId(s, d)
  {
  }

  lemma {:induction false} FirstByIdIsFirstAt(s: seq<Doc>, k: string)
    requires k in FirstById(s)
    ensures IsFirstWithId(s, FirstById(s)[k])
  {
    var p, d := s[..|s| - 1], s[|s| - 1];
    var m := FirstById(p);
    if k in m {
      FirstByIdIsFirstAt(p, k);
      var i :| 0 <= i < |p| && p[i] == m[k] && forall j | 0 <= j < i :: p[j].id != m[k].id;
      forall j | 0 <= j < i ensures s[j].id != m[k].id {
        assert s[j] == p[j];
      }
      assert s[i] == p[i];
      assert FirstById(s)[k] == m[k];
      FirstWitness(s, m[k], i);
    } else {
      assert FirstById(s)[k] == d;
      forall j | 0 <= j < |p| ensures s[j].id != d.id {
        assert p[j] in p;
      }
      FirstWitness(s, d, |s| - 1);
    }
  }

  lemma FirstByIdIsFirst(s: seq<Doc>)
    ensures forall k | k in FirstById(s) :: IsFirstWithId(s, FirstById(s)[k])
  {
    forall k | k in FirstById(s) ensures IsFirstWithId(s, FirstById(s)[k]) {
      FirstByIdIsFirstAt(s, k);
    }
  }

  lemma {:induction false} FirstOccurrencesEnumerate(s: seq<Doc>)
    ensures Enumerates(FirstOccurrences(s), FirstById(s))
  {
    if s != [] {
      var p, d := s[..|s| - 1], s[|s| - 1];
      FirstOccurrencesEnumerate(p);
      var r, m := FirstOccurrences(p), FirstById(p);
      if d.id !in IdSet(p) {
        assert d !in r;
        assert multiset(r + [d]) == multiset(r) + multiset{d};
      }
    }
  }

  lemma {:induction false} RepeatedElement(r: seq<Doc>, i: int, j: int)
    requires 0 <= i < j < |r| && r[i] == r[j]
    ensures multiset(r)[r[i]] >= 2
  {
    assert r == r[..j] + r[j..];
    assert r[i] in r[..j];
    assert r[j] in r[j..];
    assert multiset(r) == multiset(r[..j]) + multiset(r[j..]);
  }

  lemma EnumerationHasDistinctIds(r: seq<Doc>, m: map<string, Doc>)
    requires Enumerates(r, m)
    ensures DistinctIds(r)
  {
    forall i, j | 0 <= i < j < |r| ensures r[i].id != r[j].id {
      if r[i].id == r[j].id {
        RepeatedElement(r, i, j);
      }
    }
  }

  /** Two enumerations of the same map differ only in order. */
  lemma EnumerationsArePermutations(r: seq<Doc>, t: seq<Doc>, m: map<string, Doc>)
    requires Enumerates(r, m) && Enumerates(t, m)
    ensures multiset(r) == multiset(t)
  {
    forall x ensures multiset(r)[x] == multiset(t)[x] {
      if x in r {
        var j :| 0 <= j < |r| && r[j] == x;
        assert m[x.id] in t;
      }
      if x in t {
        var j :| 0 <= j < |t| && t[j] == x;
        assert m[x.id] in r;
      }
    }
  }

  /** The deduplication laws: whatever order the map's values come out in, every id of the input
      appears exactly once and carries the document that was seen first with that id. */
  lemma DedupLaws(r: seq<Doc>, s: seq<Doc>)
    requires IsDedupOf(r, s)
    ensures DistinctIds(r)
    ensures IdSet(r) == IdSet(s)
    ensures forall j | 0 <= j < |r| :: IsFirstWithId(s, r[j])
    ensures forall d | d in r :: d in s
  {
    var t, m := FirstOccurrences(s), FirstById(s);
    FirstOccurrencesEnumerate(s);
    FirstByIdIsFirst(s);
    forall x ensures x in r <==> x in t {
      assert x in r <==> x in multiset(r);
      assert x in t <==> x in multiset(t);
    }
    forall j | 0 <= j < |r| ensures r[j].id in m && m[r[j].id] == r[j] {
      assert r[j] in t;
      var k :| 0 <= k < |t| && t[k] == r[j];
    }
    assert Enumerates(r, m);
    EnumerationHasDistinctIds(r, m);
    forall k | k in IdSet(s) ensures k in IdSet(r) {
      assert m[k] in r;
    }
  }

  /** The values of `m` whose keys are not `pending` have been listed once each, in some order. */
  ghost predicate EmittedExcept(m: map<string, Doc>, pending: set<string>, r: seq<Doc>) {
    && pending <= m.Keys
    && (forall x :: multiset(r)[x] <= 1)
    && (forall j | 0 <= j < |r| :: r[j].id in m && m[r[j].id] == r[j] && r[j].id !in pending)
    && (forall k | k in m && k !in pending :: m[k] in r)
  }

  lemma EmitOne(m: map<string, Doc>, pending: set<string>, r: seq<Doc>, k: string)
    requires EmittedExcept(m, pending, r) && k in pending
    requires forall key | key in m :: m[key].id == key
    ensures EmittedExcept(m, pending - {k}, r + [m[k]])
  {
    assert m[k] !in r;
    var r' := r + [m[k]];
    assert multiset(r') == multiset(r) + multiset{m[k]};
    assert forall j | 0 <= j < |r| :: r'[j] == r[j];
  }

  /** The deduplication of the three tools: collect into a map from id to document that keeps the
      document inserted first, then copy the map's values into a list. The values come out in an
      order the model leaves open (`:|` picks any remaining key). */
  method DedupById(docs: seq<Doc>) returns (r: seq<Doc>)
    ensures IsDedupOf(r, docs)
  {
    var first: map<string, Doc> := map[];
    for i := 0 to |docs|
      invariant first == FirstById(docs[..i])
    {
      assert docs[..i + 1][..i] == docs[..i];
      if docs[i].id !in first {
        first := first[docs[i].id := docs[i]];
      }
    }
    assert docs[..|docs|] == docs;
    var pending := first.Keys;
    r := [];
    while pending != {}
      invariant EmittedExcept(first, pending, r)
      decreases |pending|
    {
      var k :| k in pending;
      EmitOne(first, pending, r, k);
      r := r + [first[k]];
      pending := pending - {k};
    }
    FirstOccurrencesEnumerate(docs);
    EnumerationsArePermutations(r, FirstOccurrences(docs), first);
  }

  // ---------------------------------------------------------------------------------------
  // Conversation filter
  // ---------------------------------------------------------------------------------------

  /** The document's `conversation_id` entry equals the given id; a missing key never matches. */
  predicate InConversation(d: Doc, conversationId: string) {
    ConversationIdKey in d.metadata && d.metadata[ConversationIdKey] == conversationId
  }

  /** The conversation filter: the matching documents, in list order. */
  function FilterByConversation(docs: seq<Doc>, conversationId: string): (r: seq<Doc>)
    ensures forall d :: d in r <==> d in docs && InConversation(d, conversationId)
    ensures |r| <= |docs|
  {
    if docs == [] then []
    else
      var rest := FilterByConversation(docs[1..], conversationId);
      assert forall d | d in docs[1..] :: d in docs;
      if InConversation(docs[0], conversationId) then [docs[0]] + rest else rest
  }

  /** The filter keeps list order: it distributes over concatenation. */
  lemma {:induction false} FilterKeepsListOrder(a: seq<Doc>, b: seq<Doc>, conversationId: string)
    ensures FilterByConversation(a + b, conversationId)
            == FilterByConversation(a, conversationId) + FilterByConversation(b, conversationId)
  {
    if a == [] {
      assert a + b == b;
    } else {
      assert (a + b)[0] == a[0] && (a + b)[1..] == a[1..] + b;
      FilterKeepsListOrder(a[1..], b, conversationId);
    }
  }

  /** The filter keeps exactly the matching copies: so permuting its input permutes its output. */
  lemma {:induction false} FilterCounts(docs: seq<Doc>, conversationId: string)
    ensures forall x :: multiset(FilterByConversation(docs, conversationId))[x]
                        == if InConversation(x, conversationId) then multiset(docs)[x] else 0
  {
    if docs != [] {
      FilterCounts(docs[1..], conversationId);
      assert docs == [docs[0]] + docs[1..];
    }
  }

  lemma FilterRespectsPermutation(a: seq<Doc>, b: seq<Doc>, conversationId: string)
    requires multiset(a) == multiset(b)
    ensures multiset(FilterByConversation(a, conversationId)) == multiset(FilterByConversation(b, conversationId))
  {
    FilterCounts(a, conversationId);
    FilterCounts(b, conversationId);
  }

  lemma {:induction false} FilterKeepsDistinctIds(docs: seq<Doc>, conversationId: string)
    requires DistinctIds(docs)
    ensures DistinctIds(FilterByConversation(docs, conversationId))
  {
    if docs != [] {
      FilterKeepsDistinctIds(docs[1..], conversationId);
      var rest := FilterByConversation(docs[1..], conversationId);
      forall j | 0 <= j < |rest| ensures rest[j].id != docs[0].id {
        assert rest[j] in docs[1..];
        var k :| 0 <= k < |docs[1..]| && docs[1..][k] == rest[j];
        assert docs[k + 1] == rest[j];
      }
    }
  }

  /** The conversation filter is the identity on documents that all belong to the conversation. */
  lemma {:induction false} FilterKeepsMatching(docs: seq<Doc>, conversationId: string)
    requires forall i | 0 <= i < |docs| :: InConversation(docs[i], conversationId)
    ensures FilterByConversation(docs, conversationId) == docs
  {
    if docs != [] {
      FilterKeepsMatching(docs[1..], conversationId);
    }
  }

  // ---------------------------------------------------------------------------------------
  // File names
  // ---------------------------------------------------------------------------------------

  /** Each document's `original_filename`, or the default when the key is missing. */
  function FileNames(docs: seq<Doc>, default: string): (names: seq<string>)
    ensures |names| == |docs|
    ensures forall i | 0 <= i < |docs| :: names[i] == GetOrDefault(docs[i].metadata, OriginalFilenameKey, default)
  {
    seq(|docs|, i requires 0 <= i < |docs| => GetOrDefault(docs[i].metadata, OriginalFilenameKey, default))
  }

  function Elements(s: seq<string>): set<string> {
    set x | x in s
  }

  /** `Stream.distinct()` on an ordered stream: the first occurrence of each value, in encounter order. */
  function Distinct(s: seq<string>): (r: seq<string>)
    ensures forall x :: x in r <==> x in s
    ensures forall i, j | 0 <= i < j < |r| :: r[i] != r[j]
  {
    if s == [] then []
    else
      var r := Distinct(s[..|s| - 1]);
      var x := s[|s| - 1];
      assert s == s[..|s| - 1] + [x];
      if x in r then r else r + [x]
  }

  /** Where `x` first occurs in `s`. */
  function FirstIndex(s: seq<string>, x: string): (n: nat)
    requires x in s
    ensures n < |s| && s[n] == x
    ensures forall k | 0 <= k < n :: s[k] != x
  {
    if s[0] == x then 0 else 1 + FirstIndex(s[1..], x)
  }

  /** Appending a value does not move the first occurrence of a value already present. */
  lemma FirstIndexAfterAppend(p: seq<string>, x: string, y: string)
    requires y in p
    ensures FirstIndex(p + [x], y) == FirstIndex(p, y)
  {
    var n, m := FirstIndex(p, y), FirstIndex(p + [x], y);
    assert (p + [x])[n] == y;
    assert m <= n;
    assert p[m] == (p + [x])[m];
  }

  /** `distinct()` keeps encounter order: the kept values appear in the order of their first
      occurrences in the input. */
  lemma {:induction false} DistinctKeepsFirstOccurrenceOrder(s: seq<string>)
    ensures forall i, j | 0 <= i < j < |Distinct(s)| :: FirstIndex(s, Distinct(s)[i]) < FirstIndex(s, Distinct(s)[j])
  {
    if s != [] {
      var p, x := s[..|s| - 1], s[|s| - 1];
      assert s == p + [x];
      DistinctKeepsFirstOccurrenceOrder(p);
      var r := Distinct(p);
      forall i | 0 <= i < |r| ensures FirstIndex(s, r[i]) == FirstIndex(p, r[i]) {
        FirstIndexAfterAppend(p, x, r[i]);
      }
      if x !in r {
        assert FirstIndex(s, x) == |p|;
      }
    }
  }

  /** One line per distinct value: the count `distinct()` reports is the number of values. */
  lemma {:induction false} DistinctCardinality(s: seq<string>)
    ensures |Distinct(s)| == |Elements(s)|
  {
    if s != [] {
      var p, x := s[..|s| - 1], s[|s| - 1];
      DistinctCardinality(p);
      assert s == p + [x];
      assert Elements(s) == Elements(p) + {x};
      if x in Distinct(p) {
        assert Distinct(s) == Distinct(p);
        assert x in Elements(p);
        assert Elements(s) == Elements(p);
      } else {
        assert Distinct(s) == Distinct(p) + [x];
        assert x !in Elements(p);
        assert |Elements(p) + {x}| == |Elements(p)| + 1;
      }
    }
  }
}
