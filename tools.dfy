/** The tool handlers of tools.py: the metadata filter and the result text of
    semantic-search, the text of read-document, and the chunk / embed / upsert
    loop of process-document. */
module Tools {
  import opened Wrappers
  import opened Text
  import opened Sequences
  import opened Metadata
  import opened Gateway

  // ---------------------------------------------------------------------
  // Search filter
  // ---------------------------------------------------------------------

  /** `if category:` — None and "" are falsy. */
  predicate CategoryGiven(category: Option<string>) {
    category.Some? && category.value != ""
  }

  /** `if tags:` — None and [] are falsy. */
  predicate TagsGiven(tags: Option<seq<string>>) {
    tags.Some? && tags.value != []
  }

  /** `date_range and "start" in date_range and "end" in date_range`. */
  predicate BothBounds(dateRange: Option<map<string, string>>) {
    dateRange.Some? && "start" in dateRange.value && "end" in dateRange.value
  }

  /** What the filter dict holds for the given arguments: an equality on
      `category`, `$in` on `tags`, an inclusive `$gte`/`$lte` range on `date`,
      each present exactly when its argument is given, and nothing else. */
  predicate IsSearchFilter(f: Filter, category: Option<string>, tags: Option<seq<string>>,
                           dateRange: Option<map<string, string>>)
  {
    && f.Keys <= {"category", "tags", "date"}
    && ("category" in f <==> CategoryGiven(category))
    && ("category" in f ==> f["category"] == Equals(category.value))
    && ("tags" in f <==> TagsGiven(tags))
    && ("tags" in f ==> f["tags"] == AnyOf(tags.value))
    && ("date" in f <==> BothBounds(dateRange))
    && ("date" in f ==> f["date"] == Between(dateRange.value["start"], dateRange.value["end"]))
  }

  method BuildFilter(category: Option<string>, tags: Option<seq<string>>,
                     dateRange: Option<map<string, string>>) returns (filters: Filter)
    ensures IsSearchFilter(filters, category, tags, dateRange)
  {
    filters := map[];
    if CategoryGiven(category) {
      filters := filters["category" := Equals(category.value)];
    }
    if TagsGiven(tags) {
      filters := filters["tags" := AnyOf(tags.value)];
    }
    if BothBounds(dateRange) {
      filters := filters["date" := Between(dateRange.value["start"], dateRange.value["end"])];
    }
  }

  /** The arguments determine the filter: two filters built from the same
      category and tags and from date ranges that agree on the bounds they
      apply are the same dict. */
  lemma SearchFilterUnique(f: Filter, g: Filter, category: Option<string>, tags: Option<seq<string>>,
                           d1: Option<map<string, string>>, d2: Option<map<string, string>>)
    requires IsSearchFilter(f, category, tags, d1)
    requires IsSearchFilter(g, category, tags, d2)
    requires BothBounds(d1) == BothBounds(d2)
    requires BothBounds(d1) ==> d1.value["start"] == d2.value["start"] && d1.value["end"] == d2.value["end"]
    ensures f == g
  {
    assert f.Keys == g.Keys;
    forall k | k in f
      ensures f[k] == g[k]
    {
      assert k == "category" || k == "tags" || k == "date";
    }
  }

  /** A date range with only one bound, or an empty one, is ignored entirely:
      the filter is the one built with no date range. */
  lemma OneSidedRangeIgnored(f: Filter, g: Filter, category: Option<string>, tags: Option<seq<string>>,
                             dateRange: Option<map<string, string>>)
    requires !BothBounds(dateRange)
    requires IsSearchFilter(f, category, tags, dateRange)
    requires IsSearchFilter(g, category, tags, None)
    ensures f == g
  {
    SearchFilterUnique(f, g, category, tags, dateRange, None);
  }

  /** With no argument given (or only falsy ones) the filter is empty. */
  lemma FalsyArgumentsGiveEmptyFilter(f: Filter, category: Option<string>, tags: Option<seq<string>>,
                                      dateRange: Option<map<string, string>>)
    requires !CategoryGiven(category) && !TagsGiven(tags) && !BothBounds(dateRange)
    requires IsSearchFilter(f, category, tags, dateRange)
    ensures f == map[]
  {
    assert f.Keys == {};
  }

  // ---------------------------------------------------------------------
  // Search result text
  // ---------------------------------------------------------------------

  const HEADER := "Retrieved Contexts:\n\n"
  /** `"-" * 10` */
  const DIVIDER := "----------"

  /** The first line of a match's block: its rank, score and id. */
  function ResultLine(rank: nat, m: Match): string {
    "Result " + NatToString(rank) + " | Similarity: " + m.score + " | Document ID: " + m.id + "\n"
  }

  /** The second line: the stored `text`, stripped, or nothing when absent. */
  function ContextLine(m: Match): string {
    Strip(GetOr(m.metadata, "text", "")) + "\n"
  }

  /** The block for the match ranked `rank`: its result line, its context
      line, then the divider and a blank line. */
  function Block(rank: nat, m: Match): string {
    ResultLine(rank, m) + ContextLine(m) + (DIVIDER + "\n\n")
  }

  /** The blocks of `ms`, ranked from `first` on. */
  function Blocks(ms: seq<Match>, first: nat): string {
    ConcatRanked(Block, ms, first)
  }

  /** The search tool's text for a list of matches. */
  function SearchReport(ms: seq<Match>): string {
    HEADER + Blocks(ms, 1)
  }

  lemma BlocksAppend(a: seq<Match>, b: seq<Match>, first: nat)
    ensures Blocks(a + b, first) == Blocks(a, first) + Blocks(b, first + |a|)
  {
    ConcatRankedAppend(Block, a, b, first);
  }

  /** The matches are rendered in input order, numbered from 1: the text
      for the first k matches is followed by match k's block ranked k + 1,
      then by the blocks of the later matches. */
  lemma SearchReportOrder(ms: seq<Match>, k: nat)
    requires k < |ms|
    ensures SearchReport(ms) == SearchReport(ms[..k]) + Block(k + 1, ms[k]) + Blocks(ms[k + 1..], k + 2)
  {
    var rest := ms[k + 1..];
    var tail := [ms[k]] + rest;
    assert ms == ms[..k] + tail;
    BlocksAppend(ms[..k], tail, 1);
    BlocksAppend([ms[k]], rest, k + 1);
    ConcatRankedSingle(Block, ms[k], k + 1);
    ConcatAssoc(HEADER, Blocks(ms[..k], 1), Block(k + 1, ms[k]) + Blocks(rest, k + 2));
    ConcatAssoc(HEADER + Blocks(ms[..k], 1), Block(k + 1, ms[k]), Blocks(rest, k + 2));
  }

  method FormatMatches(matches: seq<Match>) returns (text: string)
    ensures text == SearchReport(matches)
  {
    text := HEADER;
    for i := 0 to |matches|
      invariant text == HEADER + Blocks(matches[..i], 1)
    {
      var m := matches[i];
      ghost var before := text;
      text := text + ResultLine(i + 1, m);
      text := text + ContextLine(m);
      text := text + (DIVIDER + "\n\n");
      ConcatAssoc(before, ResultLine(i + 1, m) + ContextLine(m), DIVIDER + "\n\n");
      ConcatAssoc(before, ResultLine(i + 1, m), ContextLine(m));
      BlocksAppend(matches[..i], [m], 1);
      ConcatRankedSingle(Block, m, i + 1);
      ConcatAssoc(HEADER, Blocks(matches[..i], 1), Block(i + 1, m));
      PrefixStep(matches, i);
    }
    WholePrefix(matches);
  }

  /** The search tool's text for the client's answer. */
  function SearchReply(r: Result<seq<Match>>): string {
    match r
    case Ok(ms) => SearchReport(ms)
    case Err(e) => "Error: " + e
  }

  /** semantic-search: one search call, with the filter the arguments
      determine, and the formatted matches (or the error) as the text. */
  method SemanticSearch(client: Client, query: string, topK: int, namespace: Option<string>,
                        category: Option<string>, tags: Option<seq<string>>,
                        dateRange: Option<map<string, string>>) returns (text: string)
    modifies client
    ensures |client.calls| == |old(client.calls)| + 1
    ensures client.calls[..|old(client.calls)|] == old(client.calls)
    ensures var call := client.calls[|old(client.calls)|];
      && call.Search? && call.query == query && call.topK == topK && call.namespace == namespace
      && IsSearchFilter(call.filter, category, tags, dateRange)
      && text == SearchReply(client.searcher(query, topK, call.filter, namespace))
  {
    var filters := BuildFilter(category, tags, dateRange);
    var results := client.SearchRecords(query, topK, filters, namespace);
    match results
    case Err(e) =>
      text := "Error: " + e;
    case Ok(matches) =>
      text := FormatMatches(matches);
  }

  // ---------------------------------------------------------------------
  // read-document
  // ---------------------------------------------------------------------

  /** The lines of a found document: its id, a blank line and, only when the
      metadata is non-empty, `Metadata:` and one `key: value` line per entry
      (`text` included), in the metadata's order. */
  function DocumentLines(documentId: string, metadata: Metadata): (lines: seq<string>)
    ensures |lines| == if metadata == [] then 2 else 3 + |metadata|
    ensures lines[0] == "Document ID: " + documentId && lines[1] == ""
    ensures metadata != [] ==> lines[2] == "Metadata:"
    ensures forall k :: 0 <= k < |metadata| ==> lines[3 + k] == metadata[k].0 + ": " + metadata[k].1
  {
    ["Document ID: " + documentId, ""] + (if metadata == [] then [] else ["Metadata:"] + EntryLines(metadata))
  }

  method ReadDocument(documentId: string, fetched: Result<map<string, FetchedVector>>) returns (text: string)
    ensures fetched.Err? ==> text == "Error: " + fetched.message
    ensures fetched.Ok? && documentId !in fetched.value ==> text == "Document " + documentId + " not found"
    ensures fetched.Ok? && documentId in fetched.value ==>
      text == Join(DocumentLines(documentId, OrEmpty(fetched.value[documentId].metadata)), "\n")
  {
    if fetched.Err? {
      return "Error: " + fetched.message;
    }
    if documentId !in fetched.value {
      return "Document " + documentId + " not found";
    }
    var metadata := OrEmpty(fetched.value[documentId].metadata);
    var formatted := ["Document ID: " + documentId, ""];
    if metadata != [] {
      formatted := formatted + ["Metadata:"];
      for i := 0 to |metadata|
        invariant formatted == ["Document ID: " + documentId, "", "Metadata:"] + EntryLines(metadata[..i])
      {
        var (key, value) := metadata[i];
        formatted := formatted + [key + ": " + value];
        EntryLinesAppend(metadata[..i], [metadata[i]]);
        PrefixStep(metadata, i);
        ConcatAssoc(["Document ID: " + documentId, "", "Metadata:"], EntryLines(metadata[..i]), [key + ": " + value]);
      }
      WholePrefix(metadata);
      ConcatAssoc(["Document ID: " + documentId, ""], ["Metadata:"], EntryLines(metadata));
    } else {
      // Solver hint: an empty metadata adds no lines.
      assert formatted == formatted + [];
    }
    assert formatted == DocumentLines(documentId, metadata);
    text := Join(formatted, "\n");
  }

  /** When no id, key or value holds a newline, the text read back line by
      line is exactly the document's lines. */
  lemma DocumentTextLines(documentId: string, metadata: Metadata)
    requires '\n' !in documentId
    requires forall k :: 0 <= k < |metadata| ==> '\n' !in metadata[k].0 && '\n' !in metadata[k].1
    ensures Split(Join(DocumentLines(documentId, metadata), "\n"), '\n') == DocumentLines(documentId, metadata)
  {
    var lines := DocumentLines(documentId, metadata);
    forall i | 0 <= i < |lines|
      ensures '\n' !in lines[i]
    {
      if i >= 3 {
        assert lines[i] == metadata[i - 3].0 + ": " + metadata[i - 3].1;
      }
    }
    SplitJoin(lines, '\n');
  }

  // ---------------------------------------------------------------------
  // process-document
  // ---------------------------------------------------------------------

  /** One element of the chunker's output. */
  datatype Chunk = Chunk(id: string, content: string, metadata: Metadata)

  /** A chunk is embedded unless its content or its id is empty. */
  predicate Usable(c: Chunk) {
    c.content != "" && c.id != ""
  }

  /** The chunks that reach the embedding step, in the chunker's order. */
  function Survivors(chunks: seq<Chunk>): (r: seq<Chunk>)
    ensures |r| <= |chunks|
  {
    if chunks == [] then []
    else (if Usable(chunks[0]) then [chunks[0]] else []) + Survivors(chunks[1..])
  }

  /** The chunks kept are exactly the usable ones. */
  lemma {:induction false} SurvivorsAreUsable(chunks: seq<Chunk>)
    ensures forall c :: c in Survivors(chunks) <==> c in chunks && Usable(c)
  {
    if chunks != [] {
      SurvivorsAreUsable(chunks[1..]);
      assert chunks == [chunks[0]] + chunks[1..];
    }
  }

  /** Skipping is done chunk by chunk and keeps the order. */
  lemma {:induction false} SurvivorsAppend(a: seq<Chunk>, b: seq<Chunk>)
    ensures Survivors(a + b) == Survivors(a) + Survivors(b)
  {
    if a == [] {
      ConcatEmpty(b);
      ConcatEmpty(Survivors(b));
    } else {
      ConcatHeadTail(a, b);
      SurvivorsAppend(a[1..], b);
      ConcatAssoc(if Usable(a[0]) then [a[0]] else [], Survivors(a[1..]), Survivors(b));
    }
  }

  /** The record built for a chunk: id = chunk id, text = content,
      metadata = chunk metadata. */
  function ToRecord(c: Chunk, e: Embedding): PineconeRecord {
    PineconeRecord(c.id, e, c.content, c.metadata)
  }

  /** The position of the first chunk whose embedding fails, or `|cs|`
      when none fails. */
  function FailureIndex(cs: seq<Chunk>, embedder: string -> Result<Embedding>): (k: nat)
    ensures k <= |cs|
    ensures forall j :: 0 <= j < k ==> embedder(cs[j].content).Ok?
    ensures k < |cs| ==> embedder(cs[k].content).Err?
  {
    if cs == [] || embedder(cs[0].content).Err? then 0 else 1 + FailureIndex(cs[1..], embedder)
  }

  /** Embeds the chunks in turn and builds their records; the first failing
      embedding ends the walk with its error. */
  function EmbedAll(cs: seq<Chunk>, embedder: string -> Result<Embedding>): (r: Result<seq<PineconeRecord>>)
    ensures r.Err? <==> FailureIndex(cs, embedder) < |cs|
    ensures r.Err? ==> embedder(cs[FailureIndex(cs, embedder)].content) == Err(r.message)
    ensures r.Ok? ==> |r.value| == |cs|
    ensures r.Ok? ==> forall k :: 0 <= k < |cs| ==> r.value[k] == ToRecord(cs[k], embedder(cs[k].content).value)
  {
    if cs == [] then Ok([])
    else
      match embedder(cs[0].content)
      case Err(m) => Err(m)
      case Ok(e) =>
        match EmbedAll(cs[1..], embedder)
        case Err(m) => Err(m)
        case Ok(rs) => Ok([ToRecord(cs[0], e)] + rs)
  }

  /** The embedding calls made for `cs`: one per chunk, in order, ending with
      the first that fails, or covering every chunk when none fails. */
  function EmbedCalls(cs: seq<Chunk>, embedder: string -> Result<Embedding>): (calls: seq<Call>)
    ensures |calls| == if FailureIndex(cs, embedder) < |cs| then FailureIndex(cs, embedder) + 1 else |cs|
    ensures forall k :: 0 <= k < |calls| ==> calls[k] == Embed(cs[k].content)
  {
    if cs == [] then []
    else
      match embedder(cs[0].content)
      case Err(_) => [Embed(cs[0].content)]
      case Ok(_) => [Embed(cs[0].content)] + EmbedCalls(cs[1..], embedder)
  }

  /** Embedding `a + b` fails on `a`'s first failure, else on `b`'s, and
      otherwise yields `a`'s records followed by `b`'s. */
  lemma {:induction false} EmbedAllAppend(a: seq<Chunk>, b: seq<Chunk>, embedder: string -> Result<Embedding>)
    ensures EmbedAll(a, embedder).Err? ==> EmbedAll(a + b, embedder) == EmbedAll(a, embedder)
    ensures EmbedAll(a, embedder).Ok? && EmbedAll(b, embedder).Err? ==>
      EmbedAll(a + b, embedder) == EmbedAll(b, embedder)
    ensures EmbedAll(a, embedder).Ok? && EmbedAll(b, embedder).Ok? ==>
      EmbedAll(a + b, embedder) == Ok(EmbedAll(a, embedder).value + EmbedAll(b, embedder).value)
  {
    if a != [] {
      var ab := a + b;
      assert ab[0] == a[0] && ab[1..] == a[1..] + b;
      EmbedAllAppend(a[1..], b, embedder);
      if embedder(a[0].content).Ok? && EmbedAll(a[1..], embedder).Ok? && EmbedAll(b, embedder).Ok? {
        var r0 := [ToRecord(a[0], embedder(a[0].content).value)];
        ConcatAssoc(r0, EmbedAll(a[1..], embedder).value, EmbedAll(b, embedder).value);
      }
    } else {
      ConcatEmpty(b);
      if EmbedAll(b, embedder).Ok? {
        assert [] + EmbedAll(b, embedder).value == EmbedAll(b, embedder).value;
      }
    }
  }

  /** The embedding calls for `a + b` are those for `a`, followed by those for
      `b` only when every chunk of `a` was embedded. */
  lemma {:induction false} EmbedCallsAppend(a: seq<Chunk>, b: seq<Chunk>, embedder: string -> Result<Embedding>)
    ensures EmbedCalls(a + b, embedder) ==
      EmbedCalls(a, embedder) + (if EmbedAll(a, embedder).Ok? then EmbedCalls(b, embedder) else [])
  {
    if a != [] {
      var ab := a + b;
      assert ab[0] == a[0] && ab[1..] == a[1..] + b;
      EmbedCallsAppend(a[1..], b, embedder);
      if embedder(a[0].content).Ok? {
        ConcatAssoc([Embed(a[0].content)], EmbedCalls(a[1..], embedder),
                    if EmbedAll(a[1..], embedder).Ok? then EmbedCalls(b, embedder) else []);
      }
    } else {
      ConcatEmpty(b);
    }
  }

  /** The upsert that follows the embeddings: the whole batch, once, and only
      when every embedding succeeded and the batch is non-empty. */
  function UpsertCalls(batch: Result<seq<PineconeRecord>>, namespace: Option<string>): seq<Call> {
    if batch.Ok? && batch.value != [] then [Upsert(batch.value, namespace)] else []
  }

  /** Every client call process-document makes for a chunker output. */
  function IngestCalls(chunks: seq<Chunk>, embedder: string -> Result<Embedding>,
                       namespace: Option<string>): seq<Call>
  {
    var survivors := Survivors(chunks);
    EmbedCalls(survivors, embedder) + UpsertCalls(EmbedAll(survivors, embedder), namespace)
  }

  /** process-document's text for a chunker output. */
  function IngestReply(documentId: string, chunks: seq<Chunk>, embedder: string -> Result<Embedding>,
                       writer: (seq<PineconeRecord>, Option<string>) -> Option<string>,
                       namespace: Option<string>): string
  {
    match EmbedAll(Survivors(chunks), embedder)
    case Err(m) => "Error: " + m
    case Ok(rs) =>
      if rs == [] then "Error: No embedded chunks found"
      else
        match writer(rs, namespace)
        case Some(m) => "Error: " + m
        case None => "Successfully processed document. The document ID is " + documentId
  }

  method ProcessDocument(client: Client, documentId: string, chunks: seq<Chunk>, namespace: Option<string>)
    returns (text: string)
    modifies client
    ensures client.calls == old(client.calls) + IngestCalls(chunks, client.embedder, namespace)
    ensures text == IngestReply(documentId, chunks, client.embedder, client.writer, namespace)
  {
    var embedded: seq<PineconeRecord> := [];
    for i := 0 to |chunks|
      invariant client.calls == old(client.calls) + EmbedCalls(Survivors(chunks[..i]), client.embedder)
      invariant EmbedAll(Survivors(chunks[..i]), client.embedder) == Ok(embedded)
    {
      var chunk := chunks[i];
      if chunk.content == "" || chunk.id == "" {
        SkipStep(chunks, i);
        continue;
      }
      EmbedStep(chunks, i, client.embedder);
      ghost var before := client.calls;
      var embedding := client.GenerateEmbeddings(chunk.content);
      ConcatAssoc(old(client.calls), EmbedCalls(Survivors(chunks[..i]), client.embedder), [Embed(chunk.content)]);
      if embedding.Err? {
        FailedPrefixDecides(chunks, i + 1, client.embedder);
        EmbeddingFailureWritesNothing(documentId, chunks, client.embedder, client.writer, namespace);
        text := "Error: " + embedding.message;
        return;
      }
      embedded := embedded + [ToRecord(chunk, embedding.value)];
    }
    WholePrefix(chunks);
    if embedded == [] {
      text := "Error: No embedded chunks found";
      return;
    }
    var error := client.UpsertRecords(embedded, namespace);
    ConcatAssoc(old(client.calls), EmbedCalls(Survivors(chunks), client.embedder), [Upsert(embedded, namespace)]);
    if error.Some? {
      text := "Error: " + error.value;
    } else {
      text := "Successfully processed document. The document ID is " + documentId;
    }
  }

  /** A skipped chunk leaves the survivors unchanged. */
  lemma SkipStep(chunks: seq<Chunk>, i: nat)
    requires i < |chunks| && !Usable(chunks[i])
    ensures Survivors(chunks[..i + 1]) == Survivors(chunks[..i])
  {
    PrefixStep(chunks, i);
    SurvivorsAppend(chunks[..i], [chunks[i]]);
    assert Survivors([chunks[i]]) == [];
  }

  lemma EmbedOne(c: Chunk, embedder: string -> Result<Embedding>)
    ensures embedder(c.content).Ok? ==> EmbedAll([c], embedder) == Ok([ToRecord(c, embedder(c.content).value)])
    ensures embedder(c.content).Err? ==> EmbedAll([c], embedder) == Err(embedder(c.content).message)
    ensures EmbedCalls([c], embedder) == [Embed(c.content)]
  {
    var cs := [c];
    assert cs[0] == c && cs[1..] == [];
    assert EmbedAll(cs[1..], embedder) == Ok([]);
    if embedder(c.content).Ok? {
      var rec := ToRecord(c, embedder(c.content).value);
      ConcatEmpty([rec]);
    }
  }

  /** A usable chunk after a successful prefix adds one embedding call, and
      one record when its embedding succeeds. */
  lemma EmbedStep(chunks: seq<Chunk>, i: nat, embedder: string -> Result<Embedding>)
    requires i < |chunks| && Usable(chunks[i])
    requires EmbedAll(Survivors(chunks[..i]), embedder).Ok?
    ensures EmbedCalls(Survivors(chunks[..i + 1]), embedder)
      == EmbedCalls(Survivors(chunks[..i]), embedder) + [Embed(chunks[i].content)]
    ensures embedder(chunks[i].content).Err? ==>
      EmbedAll(Survivors(chunks[..i + 1]), embedder) == Err(embedder(chunks[i].content).message)
    ensures embedder(chunks[i].content).Ok? ==>
      EmbedAll(Survivors(chunks[..i + 1]), embedder)
        == Ok(EmbedAll(Survivors(chunks[..i]), embedder).value + [ToRecord(chunks[i], embedder(chunks[i].content).value)])
  {
    var c := chunks[i];
    PrefixStep(chunks, i);
    SurvivorsAppend(chunks[..i], [c]);
    assert Survivors([c]) == [c];
    EmbedAllAppend(Survivors(chunks[..i]), [c], embedder);
    EmbedCallsAppend(Survivors(chunks[..i]), [c], embedder);
    EmbedOne(c, embedder);
  }

  /** Once an embedding has failed, the chunks after it change neither the
      outcome nor the calls made. */
  lemma FailedPrefixDecides(chunks: seq<Chunk>, n: nat, embedder: string -> Result<Embedding>)
    requires n <= |chunks|
    requires EmbedAll(Survivors(chunks[..n]), embedder).Err?
    ensures EmbedAll(Survivors(chunks), embedder) == EmbedAll(Survivors(chunks[..n]), embedder)
    ensures EmbedCalls(Survivors(chunks), embedder) == EmbedCalls(Survivors(chunks[..n]), embedder)
  {
    var a := Survivors(chunks[..n]);
    var b := Survivors(chunks[n..]);
    TakeDrop(chunks, n);
    SurvivorsAppend(chunks[..n], chunks[n..]);
    assert Survivors(chunks) == a + b;
    assert EmbedAll(a + b, embedder) == EmbedAll(a, embedder) by {
      EmbedAllAppend(a, b, embedder);
    }
    assert EmbedCalls(a + b, embedder) == EmbedCalls(a, embedder) by {
      EmbedCallsAppend(a, b, embedder);
      ConcatEmpty(EmbedCalls(a, embedder));
    }
  }

  function UpsertCount(calls: seq<Call>): nat {
    if calls == [] then 0 else (if calls[0].Upsert? then 1 else 0) + UpsertCount(calls[1..])
  }

  lemma {:induction false} UpsertCountAppend(a: seq<Call>, b: seq<Call>)
    ensures UpsertCount(a + b) == UpsertCount(a) + UpsertCount(b)
  {
    if a == [] {
      ConcatEmpty(b);
    } else {
      ConcatHeadTail(a, b);
      UpsertCountAppend(a[1..], b);
    }
  }

  lemma {:induction false} NoUpsertAmongEmbeds(calls: seq<Call>)
    requires forall k :: 0 <= k < |calls| ==> calls[k].Embed?
    ensures UpsertCount(calls) == 0
  {
    if calls != [] {
      NoUpsertAmongEmbeds(calls[1..]);
    }
  }

  /** Upsert is called at most once: exactly when every surviving chunk was
      embedded and at least one survived. It is then the last call, after
      exactly one embedding call per surviving chunk in order, and its batch
      holds one record per surviving chunk, in order, with that chunk's id,
      content and metadata. */
  lemma IngestUpsertsOnceAfterAllEmbeds(chunks: seq<Chunk>, embedder: string -> Result<Embedding>,
                                        namespace: Option<string>)
    ensures var survivors := Survivors(chunks);
      var calls := IngestCalls(chunks, embedder, namespace);
      && UpsertCount(calls) == (if EmbedAll(survivors, embedder).Ok? && survivors != [] then 1 else 0)
      && (UpsertCount(calls) == 1 ==>
        && |calls| == |survivors| + 1
        && (forall k :: 0 <= k < |survivors| ==> calls[k] == Embed(survivors[k].content))
        && calls[|survivors|].Upsert? && calls[|survivors|].namespace == namespace
        && |calls[|survivors|].records| == |survivors|
        && forall k :: 0 <= k < |survivors| ==>
          var r := calls[|survivors|].records[k];
          r.id == survivors[k].id && r.text == survivors[k].content && r.metadata == survivors[k].metadata)
  {
    var survivors := Survivors(chunks);
    var embeds := EmbedCalls(survivors, embedder);
    var batch := EmbedAll(survivors, embedder);
    NoUpsertAmongEmbeds(embeds);
    UpsertCountAppend(embeds, UpsertCalls(batch, namespace));
    if batch.Ok? && batch.value != [] {
      assert UpsertCount(UpsertCalls(batch, namespace)) == 1;
    } else {
      assert UpsertCalls(batch, namespace) == [];
    }
  }

  lemma {:induction false} NoneUsableNoneSurvive(chunks: seq<Chunk>)
    requires forall k :: 0 <= k < |chunks| ==> !Usable(chunks[k])
    ensures Survivors(chunks) == []
  {
    if chunks != [] {
      NoneUsableNoneSurvive(chunks[1..]);
    }
  }

  /** When no chunk survives, nothing is embedded, upsert is never called and
      the error text is returned. */
  lemma NothingSurvivesNoUpsert(documentId: string, chunks: seq<Chunk>, embedder: string -> Result<Embedding>,
                                writer: (seq<PineconeRecord>, Option<string>) -> Option<string>,
                                namespace: Option<string>)
    requires forall k :: 0 <= k < |chunks| ==> !Usable(chunks[k])
    ensures IngestCalls(chunks, embedder, namespace) == []
    ensures IngestReply(documentId, chunks, embedder, writer, namespace) == "Error: No embedded chunks found"
  {
    NoneUsableNoneSurvive(chunks);
    assert EmbedAll([], embedder) == Ok([]);
  }

  /** When an embedding fails, upsert is never called: no partial batch is
      written, and the text carries the failure's message. */
  lemma EmbeddingFailureWritesNothing(documentId: string, chunks: seq<Chunk>, embedder: string -> Result<Embedding>,
                                      writer: (seq<PineconeRecord>, Option<string>) -> Option<string>,
                                      namespace: Option<string>)
    requires EmbedAll(Survivors(chunks), embedder).Err?
    ensures IngestCalls(chunks, embedder, namespace) == EmbedCalls(Survivors(chunks), embedder)
    ensures UpsertCount(IngestCalls(chunks, embedder, namespace)) == 0
    ensures IngestReply(documentId, chunks, embedder, writer, namespace)
      == "Error: " + EmbedAll(Survivors(chunks), embedder).message
  {
    IngestUpsertsOnceAfterAllEmbeds(chunks, embedder, namespace);
    ConcatEmpty(EmbedCalls(Survivors(chunks), embedder));
  }
}
