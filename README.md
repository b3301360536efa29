# mcp-pinecone: a Dafny model of the tool and resource handlers

mcp-pinecone is an MCP server that sits in front of a Pinecone vector index.
This project models its request handlers in Dafny and proves properties about them.

From `tools.py` it models three tools:

- **semantic-search**: builds the metadata filter, calls the search once, and renders the matches as numbered text blocks.
- **read-document**: renders one fetched record as lines.
- **process-document**: skips unusable chunks, embeds the rest one by one, and upserts the whole batch once.

From `server.py` it models:

- **format_text_content**: the text layout of one record.
- **get_vector_resource**: including its not-found branch.
- **list_vectors_resource**: the per-record summaries.

Module layout:

- `wrappers.dfy`: `Option` and `Result`.
- `sequences.dfy`: generic concatenation lemmas, and a ranked concatenation used for the numbered search blocks.
- `text.dfy`: the Python string operations the handlers use: `str.strip()` over Python's whitespace set, `"\n".join`, `split` as its inverse, and `str(n)` for the rank.
- `metadata.dfy`: a metadata dict as an association list. This keeps the dict's insertion order, which `items()` walks. Keys are distinct, and values are held as the text `str()` gives them.
- `gateway.dfy`: the Pinecone client as a `Client` class.
  - Embedding, upsert and search are fixed functions chosen when the client is made.
  - Every call is appended to a ghost call log, so the order of the calls can be stated.
- `tools.dfy`: module `Tools`. It holds the filter predicate and `BuildFilter`, the search text (`SearchReport`, `FormatMatches`, `SemanticSearch`), the read-document text (`DocumentLines`, `ReadDocument`), and the ingestion loop.
  - The loop is `ProcessDocument`. Its specification functions are `Survivors`, `EmbedAll`, `EmbedCalls`, `IngestCalls` and `IngestReply`.
- `server.dfy`: module `Server`. It holds the record layout (`RecordLines`, `FormatTextContent`), `GetVectorResource`, and the listing (`Summary`, `ListVectors`).

Each imperative handler is a method with loops and invariants. Each is proved against a specification function of its inputs, and the lemmas state what those functions promise.

## Model

| member | source | states |
|---|---|---|
| Tools.BuildFilter | src/mcp_pinecone/tools.py:39-49 | The filter holds `category` (equality) exactly when the category is truthy, and `tags` (`$in`) exactly when the tag list is non-empty. It holds `date` (`$gte`/`$lte`) exactly when the range has both `start` and `end`. It holds no other key. |
| Tools.SearchFilterUnique | src/mcp_pinecone/tools.py:39-49 | The arguments determine the filter: two filters built from the same arguments, with date ranges that agree on the bounds used, are equal. |
| Tools.OneSidedRangeIgnored | src/mcp_pinecone/tools.py:45-49 | A date range that lacks `start` or `end` (or is missing) gives the same filter as no date range at all. It is never applied in part. |
| Tools.FalsyArgumentsGiveEmptyFilter | src/mcp_pinecone/tools.py:39-45 | With a falsy category, no tags and no complete range, the filter is the empty dict. |
| Tools.BlocksAppend | src/mcp_pinecone/tools.py:63-67 | The blocks of `a + b` are the blocks of `a`, then those of `b` with the numbering carried on from `a`. |
| Tools.SearchReportOrder | src/mcp_pinecone/tools.py:62-67 | The search text is the header, then one block per match in input order. Match k (from 0) gets the block numbered k + 1, after the text for the first k matches. |
| Tools.FormatMatches | src/mcp_pinecone/tools.py:62-67 | The loop builds exactly `SearchReport(matches)`. A block is the `Result i \| Similarity: s \| Document ID: id` line, then the stripped `text` line, then ten dashes and a blank line. |
| Tools.SemanticSearch | src/mcp_pinecone/tools.py:37-72 | Exactly one client call is added: a search with the query, top_k and namespace, and a filter satisfying the filter predicate. The text is the formatted matches, or `Error: ` plus the error message. |
| Tools.DocumentLines | src/mcp_pinecone/tools.py:105-112 | A found document renders as `Document ID: id` and a blank line. When the metadata is non-empty, these are followed by `Metadata:` and one `key: value` line per entry, in dict order. |
| Tools.ReadDocument | src/mcp_pinecone/tools.py:92-117 | A fetch error gives `Error: ` plus the message. A missing id gives `Document <id> not found`. Otherwise the text is the newline-join of the document lines. Missing or None metadata counts as empty. |
| Tools.DocumentTextLines | src/mcp_pinecone/tools.py:114 | When no id, key or value holds a newline, splitting the text on newlines gives back exactly the document lines. |
| Tools.SurvivorsAreUsable | src/mcp_pinecone/tools.py:139-141 | The chunks that reach embedding are exactly the chunks whose content and id are both non-empty. |
| Tools.SurvivorsAppend | src/mcp_pinecone/tools.py:134-141 | Skipping is decided chunk by chunk and keeps the chunker's order. |
| Tools.FailureIndex | src/mcp_pinecone/tools.py:143 | Gives the first chunk whose embedding raises: every earlier chunk embeds, and the chunk at that index fails. |
| Tools.EmbedAll | src/mcp_pinecone/tools.py:133-150 | The walk fails iff some chunk's embedding raises, and it then fails with the first such error. Otherwise it yields one record per chunk, in order, holding that chunk's id, embedding, content and metadata. |
| Tools.EmbedCalls | src/mcp_pinecone/tools.py:143 | One embedding call per chunk, in order, with that chunk's content. The calls stop at the first failure (included) or cover every chunk. |
| Tools.EmbedAllAppend | src/mcp_pinecone/tools.py:134-150 | Embedding `a + b` fails with `a`'s failure if `a` fails, and otherwise with `b`'s. Otherwise it yields `a`'s records followed by `b`'s. |
| Tools.EmbedCallsAppend | src/mcp_pinecone/tools.py:134-150 | The calls for `a + b` are the calls for `a`, followed by those for `b` only when all of `a` was embedded. |
| Tools.ProcessDocument | src/mcp_pinecone/tools.py:128-163 | The client's call log grows by exactly `IngestCalls`. The text is exactly `IngestReply`: the first embedding error, `Error: No embedded chunks found`, the upsert error, or the success message with the document id. |
| Tools.SkipStep | src/mcp_pinecone/tools.py:139-141 | A chunk with empty content or id adds no call and no record. |
| Tools.EmbedStep | src/mcp_pinecone/tools.py:143-150 | After a successful prefix, a usable chunk adds one embedding call. It adds its record at the end if the embedding succeeds; otherwise its error ends the walk. |
| Tools.FailedPrefixDecides | src/mcp_pinecone/tools.py:143 | Once an embedding has failed, the later chunks change neither the outcome nor the calls made. |
| Tools.IngestUpsertsOnceAfterAllEmbeds | src/mcp_pinecone/tools.py:133-155 | Upsert is called exactly once if every survivor embedded and at least one survived, and never otherwise. When it is called, it is last, after one embedding call per survivor in order. Its batch is the full list of survivors' records with their id, content and metadata, sent with the namespace. |
| Tools.NoneUsableNoneSurvive | src/mcp_pinecone/tools.py:139-141 | If no chunk is usable, none reaches embedding. |
| Tools.NothingSurvivesNoUpsert | src/mcp_pinecone/tools.py:152-153 | If no chunk is usable, no client call is made and the text is `Error: No embedded chunks found`. |
| Tools.EmbeddingFailureWritesNothing | src/mcp_pinecone/tools.py:143-163 | If an embedding fails, the only calls are the embeddings up to the failure, upsert is never called (no partial write), and the text is `Error: ` plus that failure's message. |
| Gateway.Client.GenerateEmbeddings | src/mcp_pinecone/tools.py:143 | Logs one embedding call and returns the client's embedding of the text, or its error. |
| Gateway.Client.UpsertRecords | src/mcp_pinecone/tools.py:155 | Logs one upsert call with the batch and namespace, and returns the client's error, if any. |
| Gateway.Client.SearchRecords | src/mcp_pinecone/tools.py:51-57 | Logs one search call with its arguments and returns the client's matches or error. |
| Text.TrimStartDropsLeadingSpace | src/mcp_pinecone/tools.py:66 | `lstrip` removes exactly the leading whitespace: the result is a suffix, and what it removed is all whitespace. The result does not start with whitespace. |
| Text.TrimEndDropsTrailingSpace | src/mcp_pinecone/tools.py:66 | `rstrip` removes exactly the trailing whitespace, symmetrically. |
| Text.StripDropsSurroundingSpace | src/mcp_pinecone/tools.py:66 | `strip` yields the slice between the leading and trailing whitespace, with whitespace at neither end. |
| Text.StripIdempotent | src/mcp_pinecone/tools.py:66 | Stripping a stripped text changes nothing. |
| Text.NatToStringDigits | src/mcp_pinecone/tools.py:65 | The rendered rank is a non-empty run of decimal digits with no leading zero. |
| Text.DecimalRoundTrip | src/mcp_pinecone/tools.py:65 | Reading the rendered rank back gives the rank, so distinct ranks render differently. |
| Text.SplitJoin | src/mcp_pinecone/server.py:135 | Splitting a newline-join of lines that hold no newline gives the lines back. |
| Metadata.Get | src/mcp_pinecone/server.py:69-70 | `m.get(k)` is Some exactly when `k` is a key, and then it is the value stored under `k`. |
| Metadata.GetOrIsGet | src/mcp_pinecone/server.py:106 | `m.get(k, default)` is the value under `k` when present, else the default. |
| Metadata.EntryLinesAppend | src/mcp_pinecone/tools.py:111-112 | One `key: value` line per entry, in order: the lines of a concatenation are the concatenation of the lines. |
| Server.VisibleEntriesMembers | src/mcp_pinecone/server.py:126-128 | The listed entries are exactly the entries whose key is not `title`, `text` or `content_type`, each key at most once. |
| Server.VisibleEntriesAppend | src/mcp_pinecone/server.py:126-128 | Listing is decided entry by entry and keeps the dict's order. |
| Server.RecordLinesLayout | src/mcp_pinecone/server.py:118-135 | The lines are, in order: `Title: t` (only when there is a title), `ID: <id>` (`None` when absent), one `key: value` line per listed entry, a blank line, and the stored text (only when present). The line count follows. |
| Server.FirstLineIsTitleIffTitle | src/mcp_pinecone/server.py:122-124 | The first line starts with `Title: ` exactly when the metadata has a title; otherwise it is the id line. |
| Server.VisibleKeyListedOnce | src/mcp_pinecone/server.py:126-128 | Each metadata key other than `title`, `text` and `content_type` gets exactly one line, holding its value. |
| Server.HiddenOrMissingKeyNotListed | src/mcp_pinecone/server.py:126-128 | `title`, `text`, `content_type` and absent keys get no `key: value` line. |
| Server.FormatTextContent | src/mcp_pinecone/server.py:118-135 | The loop builds exactly the newline-join of `RecordLines`. |
| Server.RecordTextLines | src/mcp_pinecone/server.py:135 | When neither the id nor any key or value holds a newline, splitting the text on newlines gives back exactly the record's lines. |
| Server.GetVectorResource | src/mcp_pinecone/server.py:54-84 | A fetch error gives an error object with its message. A missing, empty or record-less response gives the error `Vector not found: <id>`. Otherwise the text is the layout of the first record. |
| Server.SummaryFields | src/mcp_pinecone/server.py:97-110 | Each summary has URI `pinecone://vectors/<id>`. Its name is the title, else `Vector <id>`. Its description is the first min(len, 100) characters of the text plus `...`, and is empty iff the text is missing or empty, so it is at most 103 characters. Its metadata is the record's (empty when None), and its mimeType is the content type, else `text/plain`. |
| Server.ListVectors | src/mcp_pinecone/server.py:90-113 | A listing error gives that error. Otherwise there is one summary per listed record, in order, the i-th being the i-th record's. |

## Left out

- JSON: the tools' `{"type": "text", "text": ...}` wrapper and the resources' `json.dumps(..., indent=2)` are not rendered. The model returns the text, the error message or the list of summaries they carry.
- Similarity scores: `:.3f` formats a float, and floating point is not modelled. A match's score is held as its already-rendered text.
- The chunker (`create_chunker`, `chunk_document`) is not part of this model. Its output is an input of `ProcessDocument`.
- The Pinecone client's network behaviour is not modelled. Embedding, upsert and search are fixed functions of the client, and the fetch and list responses are parameters.
- Gateway.Client.GenerateEmbeddings: the embedder is one fixed function of the text, so a transient failure is not represented: once a chunk text embeds, a later chunk with the same text embeds too.
- Client errors: an exception raised by a client call becomes an `Err` or error value. Other exceptions inside the handlers are not modelled, such as a missing `score` or `id` key, or a `TypeError` from a non-string `text` value.
- A record whose `metadata` is None: the handlers disagree. `get_vector_resource` (server.py:65,69) and `semantic_search_tool` (tools.py:64,66) raise on it, which becomes an error reply. `read_document_tool` (tools.py:102,109) and `list_vectors_resource` (server.py:100) read it as empty. `Server.VectorData.metadata` and `Gateway.Match.metadata` cannot be None, so the model does not capture the error path of the first two; `Tools.ReadDocument` and `Server.ListVectors` read missing metadata as empty, as the source does.
- Metadata values are held as the text `str()` gives them. Non-string values are not modelled: `metadata["text"]` is appended raw in `format_text_content`, and `.strip()` would fail on a non-string `text`.
- The search handler does not reject an empty query or a `top_k` below 1 (tools.py:27-57); the model passes both through to the search.
- The search handler passes the query text to `search_records` and makes no embedding call of its own (tools.py:51-57), so the model logs one search call.
- Tools.SemanticSearch: the `Search` call record does not carry `include_metadata=True` (tools.py:55), which the handler always passes; the `top_k=10` default of the tool's argument (tools.py:30) is not modelled, since the model takes `top_k` as an explicit argument.
- Zero chunks and all-chunks-skipped both produce `Error: No embedded chunks found`, as in the code. There is no separate empty-document error.
- Server.GetVectorResource renders the record by calling `FormatTextContent`. The source repeats that code inline (server.py:64-82); the two are the same line for line.
- Server.ListVectors appends `Summary(record)`, the dict the source builds in the loop body, and states the fields of that dict in `SummaryFields`.
- Logging (the warning for a skipped chunk, the error logs) is not modelled.
- `pinecone-stats` and `list-documents` only pass a client response to `json.dumps`, and are not modelled.
- Also not modelled: `format_binary_content`, the prompts, tool and resource registration, and server start-up.
- Namespace defaults are not modelled: `get_vector_resource` and `list_vectors_resource` fetch and list in the client's default namespace, and these responses are parameters here.
