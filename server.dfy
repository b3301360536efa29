/** The resource handlers of server.py: the text layout of one record
    (`format_text_content`, also used by `get_vector_resource`) and the
    summaries of `list_vectors_resource`. */
module Server {
  import opened Wrappers
  import opened Text
  import opened Sequences
  import opened Metadata

  /** The keys the record layout does not list as `key: value` lines. */
  const HIDDEN: set<string> := {"title", "text", "content_type"}

  /** A record as the layout reads it: `vector_data.get('id')` (None when
      absent) and its metadata (empty when absent). */
  datatype VectorData = VectorData(id: Option<string>, metadata: Metadata)

  /** `str()` of the id; Python writes a missing id as `None`. */
  function ShowId(id: Option<string>): string {
    match id
    case Some(s) => s
    case None => "None"
  }

  /** The entries the layout lists as `key: value` lines, in metadata order. */
  function VisibleEntries(m: seq<Entry>): (r: seq<Entry>)
    ensures |r| <= |m|
  {
    if m == [] then [] else (if m[0].0 in HIDDEN then [] else [m[0]]) + VisibleEntries(m[1..])
  }

  /** The listed entries are exactly the entries whose key is not hidden,
      and a dict's listing names each key at most once. */
  lemma {:induction false} VisibleEntriesMembers(m: seq<Entry>)
    ensures forall e :: e in VisibleEntries(m) <==> e in m && e.0 !in HIDDEN
    ensures DistinctKeys(m) ==> DistinctKeys(VisibleEntries(m))
  {
    if m != [] {
      var rest := VisibleEntries(m[1..]);
      VisibleEntriesMembers(m[1..]);
      assert m == [m[0]] + m[1..];
      if DistinctKeys(m) {
        forall e | e in rest ensures e.0 != m[0].0 {
          var j :| 0 <= j < |m[1..]| && m[1..][j] == e;
          assert m[j + 1] == e;
        }
      }
    }
  }

  /** Filtering is done entry by entry and keeps the order. */
  lemma {:induction false} VisibleEntriesAppend(a: seq<Entry>, b: seq<Entry>)
    ensures VisibleEntries(a + b) == VisibleEntries(a) + VisibleEntries(b)
  {
    if a == [] {
      ConcatEmpty(b);
    } else {
      ConcatHeadTail(a, b);
      VisibleEntriesAppend(a[1..], b);
      ConcatAssoc(if a[0].0 in HIDDEN then [] else [a[0]], VisibleEntries(a[1..]), VisibleEntries(b));
    }
  }

  /** `Title: <title>` when the metadata has a title. */
  function TitleLines(m: Metadata): seq<string> {
    match Get(m, "title")
    case Some(title) => ["Title: " + title]
    case None => []
  }

  /** The stored text as the last line, when the metadata has one. */
  function TextLines(m: Metadata): seq<string> {
    match Get(m, "text")
    case Some(text) => [text]
    case None => []
  }

  /** The lines of a record: an optional title line, the id line, one
      `key: value` line per visible entry in order, a blank line, and the
      stored text as the last line when there is one. */
  function RecordLines(v: VectorData): seq<string> {
    TitleLines(v.metadata) + ["ID: " + ShowId(v.id)] + EntryLines(VisibleEntries(v.metadata))
    + [""] + TextLines(v.metadata)
  }

  /** Line by line, what `RecordLines` holds. */
  lemma RecordLinesLayout(v: VectorData)
    ensures var lines := RecordLines(v);
      var t := if HasKey(v.metadata, "title") then 1 else 0;
      var vis := VisibleEntries(v.metadata);
      && |lines| == t + |vis| + 2 + (if HasKey(v.metadata, "text") then 1 else 0)
      && (HasKey(v.metadata, "title") ==> lines[0] == "Title: " + Get(v.metadata, "title").value)
      && lines[t] == "ID: " + ShowId(v.id)
      && (forall k :: 0 <= k < |vis| ==> lines[t + 1 + k] == vis[k].0 + ": " + vis[k].1)
      && lines[t + 1 + |vis|] == ""
      && (HasKey(v.metadata, "text") ==> lines[|lines| - 1] == Get(v.metadata, "text").value)
  {
    var md := v.metadata;
    var head := TitleLines(md) + ["ID: " + ShowId(v.id)];
    var entries := EntryLines(VisibleEntries(md));
    var tail := [""] + TextLines(md);
    ConcatAssoc(head + entries, [""], TextLines(md));
    assert RecordLines(v) == head + entries + tail;
    assert |head| == (if HasKey(md, "title") then 1 else 0) + 1;
  }

  /** The first line is a title line exactly when the metadata has a title;
      otherwise it is the id line. */
  lemma FirstLineIsTitleIffTitle(v: VectorData)
    ensures var first := RecordLines(v)[0];
      (|first| >= 7 && first[..7] == "Title: ") <==> HasKey(v.metadata, "title")
  {
    RecordLinesLayout(v);
    var first := RecordLines(v)[0];
    if HasKey(v.metadata, "title") {
      assert first[..7] == "Title: ";
    } else {
      assert first[0] == 'I';
    }
  }

  /** Every metadata key other than `title`, `text` and `content_type` is
      listed exactly once, with its value. */
  lemma VisibleKeyListedOnce(v: VectorData, key: string)
    requires key !in HIDDEN && HasKey(v.metadata, key)
    ensures var vis := VisibleEntries(v.metadata);
      exists k :: 0 <= k < |vis| && vis[k] == (key, Get(v.metadata, key).value)
        && forall j :: 0 <= j < |vis| && j != k ==> vis[j].0 != key
  {
    var m := v.metadata;
    var vis := VisibleEntries(m);
    VisibleEntriesMembers(m);
    var i :| 0 <= i < |m| && m[i].0 == key;
    assert m[i] in m;
    var k :| 0 <= k < |vis| && vis[k] == m[i];
    assert Get(m, key) == Some(m[i].1);
    assert DistinctKeys(vis);
    assert vis[k] == (key, Get(m, key).value);
    assert forall j :: 0 <= j < |vis| && j != k ==> vis[j].0 != key;
    assert VisibleEntries(v.metadata) == vis;
  }

  /** `title`, `text`, `content_type` and keys the metadata lacks are never listed. */
  lemma HiddenOrMissingKeyNotListed(v: VectorData, key: string)
    requires key in HIDDEN || !HasKey(v.metadata, key)
    ensures var vis := VisibleEntries(v.metadata);
      forall k :: 0 <= k < |vis| ==> vis[k].0 != key
  {
    var m := v.metadata;
    var vis := VisibleEntries(m);
    VisibleEntriesMembers(m);
    forall k | 0 <= k < |vis| ensures vis[k].0 != key {
      assert vis[k] in vis;
      if !HasKey(m, key) {
        var i :| 0 <= i < |m| && m[i] == vis[k];
      }
    }
  }

  /** The line the layout writes for one entry, if any. */
  function ListedLine(e: Entry): seq<string> {
    if e.0 in HIDDEN then [] else [e.0 + ": " + e.1]
  }

  lemma ListedLinesStep(m: seq<Entry>, i: nat)
    requires i < |m|
    ensures EntryLines(VisibleEntries(m[..i + 1])) == EntryLines(VisibleEntries(m[..i])) + ListedLine(m[i])
  {
    PrefixStep(m, i);
    VisibleEntriesAppend(m[..i], [m[i]]);
    EntryLinesAppend(VisibleEntries(m[..i]), VisibleEntries([m[i]]));
    assert VisibleEntries([m[i]]) == (if m[i].0 in HIDDEN then [] else [m[i]]) by {
      assert [m[i]][1..] == [];
    }
  }

  method FormatTextContent(v: VectorData) returns (s: string)
    ensures s == Join(RecordLines(v), "\n")
  {
    var metadata := v.metadata;
    var output: seq<string> := [];
    var title := Get(metadata, "title");
    if title.Some? {
      output := output + ["Title: " + title.value];
    }
    output := output + ["ID: " + ShowId(v.id)];
    ghost var head := output;
    assert head == TitleLines(metadata) + ["ID: " + ShowId(v.id)];
    for i := 0 to |metadata|
      invariant output == head + EntryLines(VisibleEntries(metadata[..i]))
    {
      var (key, value) := metadata[i];
      ListedLinesStep(metadata, i);
      ConcatAssoc(head, EntryLines(VisibleEntries(metadata[..i])), ListedLine(metadata[i]));
      if key !in HIDDEN {
        output := output + [key + ": " + value];
      }
    }
    WholePrefix(metadata);
    output := output + [""];
    ghost var body := output;
    var text := Get(metadata, "text");
    if text.Some? {
      output := output + [text.value];
    }
    assert output == body + TextLines(metadata);
    assert output == RecordLines(v);
    s := Join(output, "\n");
  }

  /** No line holds a line break. */
  predicate SingleLines(lines: seq<string>) {
    forall i :: 0 <= i < |lines| ==> '\n' !in lines[i]
  }

  lemma SingleLinesConcat(a: seq<string>, b: seq<string>)
    requires SingleLines(a) && SingleLines(b)
    ensures SingleLines(a + b)
  {
    assert forall i :: |a| <= i < |a| + |b| ==> (a + b)[i] == b[i - |a|];
  }

  /** The value a dict holds under `k`, when it holds one, is one of its entries' values. */
  lemma GetIsAnEntry(m: Metadata, k: string)
    requires HasKey(m, k)
    ensures exists j :: 0 <= j < |m| && Get(m, k) == Some(m[j].1)
  {
    var j :| 0 <= j < |m| && m[j].0 == k;
    assert Get(m, k) == Some(m[j].1);
  }

  /** When neither the id nor any metadata key or value holds a newline, the
      text read back line by line is exactly the record's lines. */
  lemma RecordTextLines(v: VectorData)
    requires '\n' !in ShowId(v.id)
    requires forall k :: 0 <= k < |v.metadata| ==> '\n' !in v.metadata[k].0 && '\n' !in v.metadata[k].1
    ensures Split(Join(RecordLines(v), "\n"), '\n') == RecordLines(v)
  {
    var m := v.metadata;
    var vis := VisibleEntries(m);
    assert SingleLines(TitleLines(m)) by {
      if HasKey(m, "title") {
        GetIsAnEntry(m, "title");
      }
    }
    assert SingleLines(EntryLines(vis)) by {
      VisibleEntriesMembers(m);
      forall k | 0 <= k < |vis| ensures '\n' !in EntryLines(vis)[k] {
        assert vis[k] in vis;
        var j :| 0 <= j < |m| && m[j] == vis[k];
      }
    }
    assert SingleLines(TextLines(m)) by {
      if HasKey(m, "text") {
        GetIsAnEntry(m, "text");
      }
    }
    SingleLinesConcat(TitleLines(m), ["ID: " + ShowId(v.id)]);
    SingleLinesConcat(TitleLines(m) + ["ID: " + ShowId(v.id)], EntryLines(vis));
    SingleLinesConcat(TitleLines(m) + ["ID: " + ShowId(v.id)] + EntryLines(vis), [""]);
    SingleLinesConcat(TitleLines(m) + ["ID: " + ShowId(v.id)] + EntryLines(vis) + [""], TextLines(m));
    SplitJoin(RecordLines(v), '\n');
  }

  /** What `get_vector_resource` returns: a JSON error object (held here as
      its message) or the record's text. */
  datatype VectorResource = Error(message: string) | Rendered(text: string)

  /** `fetched` is the fetch response's `records` list, None when the
      response is empty or has no `records` entry, or the fetch's error. */
  method GetVectorResource(vectorId: string, fetched: Result<Option<seq<VectorData>>>) returns (r: VectorResource)
    ensures fetched.Err? ==> r == Error(fetched.message)
    ensures fetched.Ok? && (fetched.value.None? || fetched.value.value == []) ==>
      r == Error("Vector not found: " + vectorId)
    ensures fetched.Ok? && fetched.value.Some? && fetched.value.value != [] ==>
      r == Rendered(Join(RecordLines(fetched.value.value[0]), "\n"))
  {
    if fetched.Err? {
      return Error(fetched.message);
    }
    if fetched.value.None? || fetched.value.value == [] {
      return Error("Vector not found: " + vectorId);
    }
    var text := FormatTextContent(fetched.value.value[0]);
    r := Rendered(text);
  }

  // ---------------------------------------------------------------------
  // Listing
  // ---------------------------------------------------------------------

  /** A record of the listing: its id and its metadata (None when absent or None). */
  datatype ListedRecord = ListedRecord(id: string, metadata: Option<Metadata>)

  /** One entry of the listing. */
  datatype ResourceSummary = ResourceSummary(uri: string, name: string, description: string,
                                             metadata: Metadata, mimeType: string)

  const PREVIEW_LENGTH := 100

  function Min(a: int, b: int): int {
    if a <= b then a else b
  }

  /** The summary of one record (the dict `list_vectors_resource` builds). */
  function Summary(r: ListedRecord): ResourceSummary {
    var metadata := OrEmpty(r.metadata);
    var text := GetOr(metadata, "text", "");
    var description := if text != "" then text[..Min(|text|, PREVIEW_LENGTH)] + "..." else "";
    ResourceSummary("pinecone://vectors/" + r.id, GetOr(metadata, "title", "Vector " + r.id),
                    description, metadata, GetOr(metadata, "content_type", "text/plain"))
  }

  /** A summary points at its record's URI, is named by the title or else by
      `Vector <id>`, previews at most the first 100 characters of the text
      followed by `...` (nothing when the text is missing or empty), carries
      the metadata (empty when there is none) and the content type or else
      `text/plain`. */
  lemma SummaryFields(r: ListedRecord)
    ensures var s := Summary(r);
      && s.uri == "pinecone://vectors/" + r.id
      && s.metadata == OrEmpty(r.metadata)
      && (HasKey(s.metadata, "title") ==> s.name == Get(s.metadata, "title").value)
      && (!HasKey(s.metadata, "title") ==> s.name == "Vector " + r.id)
      && (HasKey(s.metadata, "content_type") ==> s.mimeType == Get(s.metadata, "content_type").value)
      && (!HasKey(s.metadata, "content_type") ==> s.mimeType == "text/plain")
    ensures var s := Summary(r);
      var text := GetOr(s.metadata, "text", "");
      && |s.description| <= PREVIEW_LENGTH + 3
      && (s.description == "" <==> text == "")
      && (text != "" ==>
            && |s.description| == Min(|text|, PREVIEW_LENGTH) + 3
            && s.description[..|s.description| - 3] == text[..|s.description| - 3]
            && s.description[|s.description| - 3..] == "...")
  {
    var metadata := OrEmpty(r.metadata);
    GetOrIsGet(metadata, "title", "Vector " + r.id);
    GetOrIsGet(metadata, "content_type", "text/plain");
  }

  /** `list_vectors_resource`: one summary per listed record, in order, or
      the listing's error. */
  method ListVectors(listed: Result<seq<ListedRecord>>) returns (r: Result<seq<ResourceSummary>>)
    ensures listed.Err? ==> r == Err(listed.message)
    ensures listed.Ok? ==> r.Ok? && |r.value| == |listed.value|
    ensures listed.Ok? ==> forall i :: 0 <= i < |listed.value| ==> r.value[i] == Summary(listed.value[i])
  {
    if listed.Err? {
      return Err(listed.message);
    }
    var records := listed.value;
    var resources: seq<ResourceSummary> := [];
    for i := 0 to |records|
      invariant |resources| == i
      invariant forall j :: 0 <= j < i ==> resources[j] == Summary(records[j])
    {
      resources := resources + [Summary(records[i])];
    }
    r := Ok(resources);
  }
}
