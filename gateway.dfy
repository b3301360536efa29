/** The vector-store client the tools call (the repository's `PineconeClient`,
    whose source is not part of this model). Its network behaviour is given
    as fixed functions chosen when the client is made, and every call is
    recorded, in order, in a ghost log. */
module Gateway {
  import opened Wrappers
  import opened Metadata

  type Embedding = seq<real>

  /** What `upsert_records` stores for one chunk. */
  datatype PineconeRecord = PineconeRecord(id: string, embedding: Embedding, text: string, metadata: Metadata)

  /** One constraint of a metadata filter: a plain value is an equality,
      `{"$in": values}` a membership, `{"$gte": gte, "$lte": lte}` an
      inclusive range. */
  datatype FilterValue = Equals(value: string) | AnyOf(values: seq<string>) | Between(gte: string, lte: string)

  /** A metadata filter: the Python dict handed to `search_records`. */
  type Filter = map<string, FilterValue>

  /** One entry of a search response's `matches`: the id, the score already
      rendered with three decimals, and the metadata (empty when absent). */
  datatype Match = Match(id: string, score: string, metadata: Metadata)

  /** A vector returned by `fetch_records`; its `metadata` is None when the
      vector has no metadata attribute or the attribute is None. */
  datatype FetchedVector = FetchedVector(metadata: Option<Metadata>)

  /** One call made on the client. */
  datatype Call =
    | Embed(text: string)
    | Upsert(records: seq<PineconeRecord>, namespace: Option<string>)
    | Search(query: string, topK: int, filter: Filter, namespace: Option<string>)

  class Client {
    /** `generate_embeddings`: the embedding of a text, or the error it raises. */
    const embedder: string -> Result<Embedding>
    /** `upsert_records`: the error it raises for a batch, if any. */
    const writer: (seq<PineconeRecord>, Option<string>) -> Option<string>
    /** `search_records`: the matches for a query, or the error it raises. */
    const searcher: (string, int, Filter, Option<string>) -> Result<seq<Match>>
    /** Every call made on this client, oldest first. */
    ghost var calls: seq<Call>

    constructor (embedder: string -> Result<Embedding>,
                 writer: (seq<PineconeRecord>, Option<string>) -> Option<string>,
                 searcher: (string, int, Filter, Option<string>) -> Result<seq<Match>>)
      ensures this.embedder == embedder && this.writer == writer && this.searcher == searcher
      ensures calls == []
    {
      this.embedder := embedder;
      this.writer := writer;
      this.searcher := searcher;
      calls := [];
    }

    method GenerateEmbeddings(text: string) returns (r: Result<Embedding>)
      modifies this
      ensures calls == old(calls) + [Embed(text)]
      ensures r == embedder(text)
    {
      calls := calls + [Embed(text)];
      r := embedder(text);
    }

    method UpsertRecords(records: seq<PineconeRecord>, namespace: Option<string>) returns (error: Option<string>)
      modifies this
      ensures calls == old(calls) + [Upsert(records, namespace)]
      ensures error == writer(records, namespace)
    {
      calls := calls + [Upsert(records, namespace)];
      error := writer(records, namespace);
    }

    method SearchRecords(query: string, topK: int, filter: Filter, namespace: Option<string>)
      returns (r: Result<seq<Match>>)
      modifies this
      ensures calls == old(calls) + [Search(query, topK, filter, namespace)]
      ensures r == searcher(query, topK, filter, namespace)
    {
      calls := calls + [Search(query, topK, filter, namespace)];
      r := searcher(query, topK, filter, namespace);
    }
  }
}
