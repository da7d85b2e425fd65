/**
 * The external vector index, seen only through its two calls. Its ranking is not visible:
 * `similaritySearch` is an oracle from query text to a result list or an exception message,
 * and `add` either accepts a batch or throws.
 */
module VectorStores {
  import opened Base
  import opened Documents

  class VectorStore {
    /** What `similaritySearch(query)` returns or throws. */
    const search: string -> Result<seq<Doc>, string>
    /** Whether `add(chunks)` throws, and with which message. */
    const addFailure: seq<Doc> -> Option<string>

    /** Every chunk the index has accepted, in order (the index is append-only). */
    var documents: seq<Doc>
    /** The argument of every `add` call, in order, whether or not it threw. */
    ghost var batches: seq<seq<Doc>>
    /** The query of every `similaritySearch` call, in order, whether or not it threw. */
    ghost var searches: seq<string>

    constructor (search: string -> Result<seq<Doc>, string>, addFailure: seq<Doc> -> Option<string>,
                 documents: seq<Doc>)
      ensures this.search == search && this.addFailure == addFailure
      ensures this.documents == documents && batches == [] && searches == []
    {
      this.search := search;
      this.addFailure := addFailure;
      this.documents := documents;
      batches := [];
      searches := [];
    }

    /** A search is recorded and leaves the index unchanged. */
    method SimilaritySearch(query: string) returns (found: Result<seq<Doc>, string>)
      modifies this
      ensures found == search(query)
      ensures searches == old(searches) + [query]
      ensures documents == old(documents) && batches == old(batches)
    {
      searches := searches + [query];
      found := search(query);
    }

    method Add(chunks: seq<Doc>) returns (failure: Option<string>)
      modifies this
      ensures batches == old(batches) + [chunks] && searches == old(searches)
      ensures failure == addFailure(chunks)
      ensures documents == if failure.None? then old(documents) + chunks else old(documents)
    {
      batches := batches + [chunks];
      failure := addFailure(chunks);
      if failure.None? {
        documents := documents + chunks;
      }
    }
  }
}
