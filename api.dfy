/**
 * The two HTTP handlers of app/main.py: `save` (which input is ingested and
 * how) and `search` (retrieval, context block, completion call).
 *
 * Routing, form parsing and reading the uploaded file are not modelled: a
 * handler receives the already-read form fields. The completion service is a
 * `CompletionClient` whose answers are opaque; it records every prompt it is
 * sent, so "no completion call" is a statement about that record.
 */
module Api {
  import opened Wrappers
  import opened Json
  import opened Text
  import opened Storage

  /** An uploaded file: its declared name and its bytes. */
  datatype Upload = Upload(filename: string, content: seq<byte>)

  /** `SaveResponse(message, doc_id, chunks)`. */
  datatype SaveResponse = SaveResponse(message: string, docId: string, chunks: nat)

  /** What `save` produces: a response, or an exception that escapes it. */
  datatype Outcome = Responded(response: SaveResponse) | Raised

  /** The branch of `save` a request takes, with what that branch ingests. */
  datatype Channel =
    | CsvUpload(name: string, content: seq<byte>)
    | JsonUpload(name: string, data: Json)
    | InvalidJsonUpload
    | TextUpload(name: string, text: string)
    | JsonForm(data: Json, filename: Option<string>)
    | InvalidJsonForm
    | TextForm(text: string, filename: Option<string>)
    | NoInput

  /** `json.loads(content.decode("utf-8"))`; `None` when either step raises. */
  function DecodeJsonFile(rt: Runtime, content: seq<byte>): Option<Json>
  {
    match rt.utf8(content)
    case None => None
    case Some(s) => rt.loads(s)
  }

  /** The if-chain of `save`: a file wins over `json_payload`, which wins over
      `text`; an upload is dispatched on its (overridable) name's extension. */
  function ChannelOf(file: Option<Upload>, text: Option<string>, jsonPayload: Option<string>,
                     filename: Option<string>, rt: Runtime): Channel
  {
    if file.Some? then
      var fname := OrElse(filename, file.value.filename);
      if EndsWith(Lower(fname), ".csv") then CsvUpload(fname, file.value.content)
      else if EndsWith(Lower(fname), ".json") then
        match DecodeJsonFile(rt, file.value.content)
        case None => InvalidJsonUpload
        case Some(data) => JsonUpload(fname, data)
      else TextUpload(fname, rt.utf8Lossy(file.value.content))
    else if Truthy(jsonPayload) then
      match rt.loads(jsonPayload.value)
      case None => InvalidJsonForm
      case Some(data) => JsonForm(data, filename)
    else if Truthy(text) then TextForm(text.value, filename)
    else NoInput
  }

  /** The contents of both stores. */
  datatype Stores = Stores(records: seq<DocRecord>, batches: seq<seq<Entry>>)

  function TextEffect(docId: string, text: string, filename: Option<string>, s: Stores): (Outcome, Stores)
  {
    var d := TextDocument(docId, filename);
    (Responded(SaveResponse("Text stored", docId, 1)),
     Stores(s.records + [d], s.batches + [Batch(docId, Some(d.filename), [(text, None)])]))
  }

  function JsonEffect(rt: Runtime, docId: string, data: Json, filename: Option<string>, s: Stores): (Outcome, Stores)
  {
    var d := JsonDocument(docId, filename);
    match JsonChunks(data, rt)
    case None => (Raised, Stores(s.records + [d], s.batches))
    case Some(cs) =>
      (Responded(SaveResponse("JSON stored", docId, |cs|)),
       Stores(s.records + [d], s.batches + [Batch(docId, Some(d.filename), cs)]))
  }

  /** What `save` answers and what the two stores hold afterwards, for each
      channel; `docId` is the uuid the storage layer would generate. */
  function SaveEffect(ch: Channel, rt: Runtime, docId: string, s: Stores): (Outcome, Stores)
  {
    match ch
    case CsvUpload(name, content) =>
      var d := CsvDocument(docId, Some(name));
      var cs := CsvChunks(rt.readCsv(content), rt);
      (Responded(SaveResponse("CSV stored", docId, |cs|)),
       Stores(s.records + [d], s.batches + [Batch(docId, Some(d.filename), cs)]))
    case JsonUpload(name, data) => JsonEffect(rt, docId, data, Some(name), s)
    case InvalidJsonUpload => (Responded(SaveResponse("Invalid JSON file", "", 0)), s)
    case TextUpload(name, text) => TextEffect(docId, text, Some(name), s)
    case JsonForm(data, filename) => JsonEffect(rt, docId, data, filename, s)
    case InvalidJsonForm => (Responded(SaveResponse("Invalid JSON payload", "", 0)), s)
    case TextForm(text, filename) => TextEffect(docId, text, filename, s)
    case NoInput => (Responded(SaveResponse("No input provided", "", 0)), s)
  }

  /** The `save` handler. */
  method Save(db: DocumentStore, col: Collection, rt: Runtime, docId: string,
              file: Option<Upload>, text: Option<string>, jsonPayload: Option<string>, filename: Option<string>)
    returns (out: Outcome)
    modifies db, col
    ensures (out, Stores(db.records, col.batches)) ==
            SaveEffect(ChannelOf(file, text, jsonPayload, filename, rt), rt, docId, Stores(old(db.records), old(col.batches)))
  {
    if file.Some? {
      var content := file.value.content;
      var fname := OrElse(filename, file.value.filename);
      if EndsWith(Lower(fname), ".csv") {
        var id, n := SaveCsvBytes(db, col, rt, docId, content, Some(fname));
        return Responded(SaveResponse("CSV stored", id, n));
      } else if EndsWith(Lower(fname), ".json") {
        var data := DecodeJsonFile(rt, content);
        if data.None? {
          return Responded(SaveResponse("Invalid JSON file", "", 0));
        }
        var r := SaveJson(db, col, rt, docId, data.value, Some(fname));
        if r.None? {
          return Raised;
        }
        return Responded(SaveResponse("JSON stored", r.value.0, r.value.1));
      } else {
        var id, n := SaveText(db, col, docId, rt.utf8Lossy(content), Some(fname));
        return Responded(SaveResponse("Text stored", id, n));
      }
    }

    if Truthy(jsonPayload) {
      var data := rt.loads(jsonPayload.value);
      if data.None? {
        return Responded(SaveResponse("Invalid JSON payload", "", 0));
      }
      var r := SaveJson(db, col, rt, docId, data.value, filename);
      if r.None? {
        return Raised;
      }
      return Responded(SaveResponse("JSON stored", r.value.0, r.value.1));
    }

    if Truthy(text) {
      var id, n := SaveText(db, col, docId, text.value, filename);
      return Responded(SaveResponse("Text stored", id, n));
    }

    return Responded(SaveResponse("No input provided", "", 0));
  }

  // ---------------------------------------------------------------------------
  // Properties of `save`

  /** An uploaded file decides the branch alone: `json_payload` and `text` are
      ignored, and the name used is the override when it is non-empty. */
  lemma FileTakesPriority(f: Upload, t1: Option<string>, j1: Option<string>, t2: Option<string>, j2: Option<string>,
                          filename: Option<string>, rt: Runtime)
    ensures ChannelOf(Some(f), t1, j1, filename, rt) == ChannelOf(Some(f), t2, j2, filename, rt)
    ensures var ch := ChannelOf(Some(f), t1, j1, filename, rt);
      (ch.CsvUpload? || ch.JsonUpload? || ch.InvalidJsonUpload? || ch.TextUpload?) &&
      (ch.CsvUpload? || ch.JsonUpload? || ch.TextUpload? ==> ch.name == OrElse(filename, f.filename))
  {
  }

  /** Without a file, a non-empty `json_payload` decides the branch and `text`
      is ignored. */
  lemma JsonPayloadBeatsText(j: Option<string>, t1: Option<string>, t2: Option<string>, filename: Option<string>, rt: Runtime)
    requires Truthy(j)
    ensures ChannelOf(None, t1, j, filename, rt) == ChannelOf(None, t2, j, filename, rt)
    ensures ChannelOf(None, t1, j, filename, rt).JsonForm? || ChannelOf(None, t1, j, filename, rt).InvalidJsonForm?
  {
  }

  /** "No input provided" is answered exactly when no channel is truthy. */
  lemma NoInputExactly(file: Option<Upload>, text: Option<string>, jsonPayload: Option<string>, filename: Option<string>, rt: Runtime)
    ensures ChannelOf(file, text, jsonPayload, filename, rt) == NoInput <==>
            file.None? && !Truthy(jsonPayload) && !Truthy(text)
  {
  }

  /** The extension test ignores case: an upload goes to the CSV handler exactly
      when the last four characters of its name lower-case to ".csv", to the
      JSON handler exactly when it does not and the last five lower-case to
      ".json", and is stored as text otherwise. */
  lemma UploadDispatch(f: Upload, text: Option<string>, jsonPayload: Option<string>, filename: Option<string>, rt: Runtime)
    ensures var name := OrElse(filename, f.filename);
      var ch := ChannelOf(Some(f), text, jsonPayload, filename, rt);
      (ch.CsvUpload? <==> HasExtension(name, ".csv")) &&
      (ch.JsonUpload? || ch.InvalidJsonUpload? <==> !HasExtension(name, ".csv") && HasExtension(name, ".json")) &&
      (ch.TextUpload? <==> !HasExtension(name, ".csv") && !HasExtension(name, ".json"))
  {
  }

  /** A payload that does not decode is answered with an empty doc id and no
      chunks, and creates neither a record nor entries. */
  lemma InvalidJsonCreatesNothing(file: Option<Upload>, text: Option<string>, jsonPayload: Option<string>,
                                  filename: Option<string>, rt: Runtime, docId: string, s: Stores)
    requires file.Some? ==>
      var name := OrElse(filename, file.value.filename);
      !EndsWith(Lower(name), ".csv") && EndsWith(Lower(name), ".json") && DecodeJsonFile(rt, file.value.content).None?
    requires file.None? ==> Truthy(jsonPayload) && rt.loads(jsonPayload.value).None?
    ensures var (out, s') := SaveEffect(ChannelOf(file, text, jsonPayload, filename, rt), rt, docId, s);
      out.Responded? && out.response.docId == "" && out.response.chunks == 0 && s' == s
  {
  }

  /** With a fresh document id, `save` leaves both stores as they were exactly
      when it answers with an empty doc id; otherwise exactly one record is
      committed. */
  lemma EmptyDocIdMeansNothingStored(ch: Channel, rt: Runtime, docId: string, s: Stores)
    requires Fresh(docId, s.records)
    ensures var (out, s') := SaveEffect(ch, rt, docId, s);
      (out.Responded? && out.response.docId == "" <==> s' == s) &&
      (s' != s ==> exists d :: s'.records == s.records + [d] && d.id == docId)
  {
  }

  /** A response carrying a doc id reports exactly the number of entries the
      one new batch holds, and that batch is keyed by the doc id. */
  lemma ReportedCountIsStoredCount(ch: Channel, rt: Runtime, docId: string, s: Stores)
    requires docId != ""
    ensures var (out, s') := SaveEffect(ch, rt, docId, s);
      out.Responded? && out.response.docId != "" ==>
        out.response.docId == docId &&
        |s'.records| == |s.records| + 1 && s'.records[..|s.records|] == s.records &&
        |s'.batches| == |s.batches| + 1 && s'.batches[..|s.batches|] == s.batches &&
        |s'.batches[|s.batches|]| == out.response.chunks &&
        (forall i :: 0 <= i < out.response.chunks ==> s'.batches[|s.batches|][i].id == ChunkId(docId, i)) &&
        (!ch.CsvUpload? ==> out.response.chunks >= 1)
  {
  }

  /** The only request that escapes `save` as an exception is a JSON list whose
      first element is an object and some later element is not. */
  lemma OnlyMixedJsonListsRaise(ch: Channel, rt: Runtime, docId: string, s: Stores)
    ensures SaveEffect(ch, rt, docId, s).0.Raised? <==>
      (ch.JsonUpload? || ch.JsonForm?) && IsRecordList(ch.data) && !AllObjects(ch.data.items)
  {
  }

  /** Every branch of `save` keeps the two stores consistent, given a fresh
      document id. */
  lemma SavePreservesConsistency(ch: Channel, rt: Runtime, docId: string, s: Stores)
    requires Consistent(s.records, s.batches)
    requires Fresh(docId, s.records)
    ensures var s' := SaveEffect(ch, rt, docId, s).1; Consistent(s'.records, s'.batches)
  {
    match ch
    case CsvUpload(name, content) =>
      StorePreservesConsistency(s.records, s.batches, CsvDocument(docId, Some(name)),
        Some(CsvDocument(docId, Some(name)).filename), CsvChunks(rt.readCsv(content), rt));
    case JsonUpload(name, data) => JsonPreservesConsistency(rt, docId, data, Some(name), s);
    case JsonForm(data, filename) => JsonPreservesConsistency(rt, docId, data, filename, s);
    case TextUpload(name, text) =>
      StorePreservesConsistency(s.records, s.batches, TextDocument(docId, Some(name)),
        Some(TextDocument(docId, Some(name)).filename), [(text, None)]);
    case TextForm(text, filename) =>
      StorePreservesConsistency(s.records, s.batches, TextDocument(docId, filename),
        Some(TextDocument(docId, filename).filename), [(text, None)]);
    case _ =>
  }

  lemma JsonPreservesConsistency(rt: Runtime, docId: string, data: Json, filename: Option<string>, s: Stores)
    requires Consistent(s.records, s.batches)
    requires Fresh(docId, s.records)
    ensures var s' := JsonEffect(rt, docId, data, filename, s).1; Consistent(s'.records, s'.batches)
  {
    var d := JsonDocument(docId, filename);
    match JsonChunks(data, rt)
    case None => CommitPreservesConsistency(s.records, s.batches, d);
    case Some(cs) => StorePreservesConsistency(s.records, s.batches, d, Some(d.filename), cs);
  }

  // ---------------------------------------------------------------------------
  // search

  /** What the completion service is asked: the question and the context
      block. The instruction text around them is not modelled. */
  datatype Prompt = Prompt(question: string, context: string)

  /** The completion service. Its answers are opaque; it records every prompt. */
  class CompletionClient {
    const respond: Prompt -> string
    var prompts: seq<Prompt>

    constructor (respond: Prompt -> string)
      ensures this.respond == respond && prompts == []
    {
      this.respond := respond;
      prompts := [];
    }

    method Complete(p: Prompt) returns (answer: string)
      modifies this
      ensures answer == respond(p)
      ensures prompts == old(prompts) + [p]
    {
      answer := respond(p);
      prompts := prompts + [p];
    }
  }

  /** `SearchResponse(answer, sources, matches)`. */
  datatype SearchResponse = SearchResponse(answer: string, sources: seq<Option<string>>, matches: seq<Match>)

  const NothingRelevant: string := "I couldn\U{2019}t find anything relevant."

  /** What an f-string inserts for an optional string. */
  function PyStr(s: Option<string>): string
  {
    match s
    case Some(v) => v
    case None => "None"
  }

  /** `f"Source: {m['source']}\n{m['text']}"`. */
  function SourceLine(m: Match): string
  {
    "Source: " + PyStr(m.source) + "\n" + m.text
  }

  function SourceLines(ms: seq<Match>): (r: seq<string>)
    ensures |r| == |ms|
  {
    seq(|ms|, i requires 0 <= i < |ms| => SourceLine(ms[i]))
  }

  /** The context block: one source line per match, in rank order, separated
      by blank lines. */
  function ContextBlock(ms: seq<Match>): string
  {
    Join(SourceLines(ms), "\n\n")
  }

  /** The sources of the matches, one per match, duplicates kept. */
  function SourcesOf(ms: seq<Match>): (r: seq<Option<string>>)
    ensures |r| == |ms|
  {
    seq(|ms|, i requires 0 <= i < |ms| => ms[i].source)
  }

  /** The context block is empty exactly when there are no matches. */
  lemma ContextBlockEmpty(ms: seq<Match>)
    ensures ContextBlock(ms) == "" <==> ms == []
  {
  }

  /** One match gives exactly its source line, with no separator. */
  lemma ContextBlockSingle(m: Match)
    ensures ContextBlock([m]) == "Source: " + PyStr(m.source) + "\n" + m.text
  {
  }

  /** The block of a split ranking is the two blocks joined by one blank line,
      so every match appears once, in rank order. */
  lemma ContextBlockAppend(a: seq<Match>, b: seq<Match>)
    requires |a| > 0 && |b| > 0
    ensures ContextBlock(a + b) == ContextBlock(a) + "\n\n" + ContextBlock(b)
  {
    assert SourceLines(a + b) == SourceLines(a) + SourceLines(b);
    JoinAppend(SourceLines(a), SourceLines(b), "\n\n");
  }

  /** The `search` handler: with no matches, the fixed answer and no
      completion call; otherwise one call with the question and the context
      block, whose answer is returned with the sources and matches unchanged. */
  method Search(col: Collection, llm: CompletionClient, q: string, order: seq<nat>) returns (resp: SearchResponse)
    requires RankingFits(order, |col.Entries()|)
    modifies llm
    ensures var ms := MatchesOf(col.Query(order, TopK));
      (ms == [] ==> resp == SearchResponse(NothingRelevant, [], []) && llm.prompts == old(llm.prompts)) &&
      (ms != [] ==>
        var p := Prompt(q, ContextBlock(ms));
        resp == SearchResponse(llm.respond(p), SourcesOf(ms), ms) && llm.prompts == old(llm.prompts) + [p])
  {
    var matches, sources := SearchMatches(col, order);
    if |matches| == 0 {
      return SearchResponse(NothingRelevant, [], []);
    }
    var context := ContextBlock(matches);
    var answer := llm.Complete(Prompt(q, context));
    assert sources == SourcesOf(matches);
    return SearchResponse(answer, sources, matches);
  }
}
