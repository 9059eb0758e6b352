/**
 * Chunk normalisation, chunk ids and metadata, the document record store and
 * the vector collection, as in app/storage.py.
 *
 * The record store (a SQL session) and the collection (a vector index) are
 * objects whose contents the save operations append to. Embedding vectors and
 * the nearest-neighbour search are not modelled: the ranking the index
 * computes for a query is an input (`order`, entry positions best first).
 */
module Storage {
  import opened Wrappers
  import opened Json
  import opened Text
  import Utils

  /** A document record: `Document(id, filename, content_type)`. */
  datatype DocRecord = DocRecord(id: string, filename: string, contentType: string)

  /** Metadata of one indexed entry, a string-to-string dict. */
  type Metadata = map<string, string>

  /** One entry of the vector collection: id, document text and metadata. */
  datatype Entry = Entry(id: string, document: string, metadata: Metadata)

  /** A chunk before indexing: its display text and its original-form payload. */
  type Chunk = (string, Option<string>)

  /** The default `top_k` of `search_matches`. */
  const TopK: nat := 8

  /** The textual form of `uuid.uuid4()`: 36 characters, lower-case hex digits
      separated by hyphens at positions 8, 13, 18 and 23. */
  predicate UuidText(s: string)
  {
    |s| == 36 &&
    forall i :: 0 <= i < |s| ==>
      if i == 8 || i == 13 || i == 18 || i == 23 then s[i] == '-' else s[i] in "0123456789abcdef"
  }

  lemma UuidHasNoUnderscore(s: string)
    requires UuidText(s)
    ensures '_' !in s
  {
  }

  function RecordIds(records: seq<DocRecord>): set<string>
  {
    set r | r in records :: r.id
  }

  /** What is assumed of a freshly generated document id. */
  predicate Fresh(docId: string, records: seq<DocRecord>)
  {
    UuidText(docId) && docId !in RecordIds(records)
  }

  predicate IsContentType(t: string)
  {
    t == "text/plain" || t == "application/json" || t == "text/csv"
  }

  /** The relational record store, reduced to the records committed so far. */
  class DocumentStore {
    var records: seq<DocRecord>

    constructor ()
      ensures records == []
    {
      records := [];
    }

    /** `db.add(d); db.commit()`. */
    method Commit(d: DocRecord)
      modifies this
      ensures records == old(records) + [d]
    {
      records := records + [d];
    }
  }

  /** The entries of one `collection.add` call, from its three parallel lists. */
  function Zip(ids: seq<string>, documents: seq<string>, metadatas: seq<Metadata>): (b: seq<Entry>)
    requires |ids| == |documents| == |metadatas|
    ensures |b| == |ids|
  {
    seq(|ids|, i requires 0 <= i < |ids| => Entry(ids[i], documents[i], metadatas[i]))
  }

  /** All entries of a list of batches, in insertion order. */
  function Concat(batches: seq<seq<Entry>>): seq<Entry>
  {
    if |batches| == 0 then [] else Concat(batches[..|batches| - 1]) + batches[|batches| - 1]
  }

  /** The ranking is a list of positions of stored entries. */
  predicate RankingFits(order: seq<nat>, size: nat)
  {
    forall i :: 0 <= i < |order| ==> order[i] < size
  }

  /** The first `k` entries of the ranking. */
  function Nearest(entries: seq<Entry>, order: seq<nat>, k: nat): (hits: seq<Entry>)
    requires RankingFits(order, |entries|)
    ensures |hits| <= k && |hits| <= |order|
    ensures |hits| == k || |hits| == |order|
    ensures forall i :: 0 <= i < |hits| ==> hits[i] == entries[order[i]]
  {
    var n := if k < |order| then k else |order|;
    seq(n, i requires 0 <= i < n => entries[order[i]])
  }

  /** The vector collection: the batches appended by `collection.add`. */
  class Collection {
    var batches: seq<seq<Entry>>

    constructor ()
      ensures batches == []
    {
      batches := [];
    }

    function Entries(): seq<Entry>
      reads this
    {
      Concat(batches)
    }

    /** `collection.add(ids=..., documents=..., metadatas=...)`: one batch. */
    method Add(ids: seq<string>, documents: seq<string>, metadatas: seq<Metadata>)
      requires |ids| == |documents| == |metadatas|
      modifies this
      ensures batches == old(batches) + [Zip(ids, documents, metadatas)]
      ensures Entries() == old(Entries()) + Zip(ids, documents, metadatas)
    {
      batches := batches + [Zip(ids, documents, metadatas)];
      assert batches[..|batches| - 1] == old(batches);
    }

    /** `collection.query(query_texts=[q], n_results=k)`, given the ranking the
        index computes for `q`; what it promises is stated on `Nearest`. */
    function Query(order: seq<nat>, k: nat): seq<Entry>
      reads this
      requires RankingFits(order, |Entries()|)
    {
      Nearest(Entries(), order, k)
    }
  }

  // ---------------------------------------------------------------------------
  // _store_chunks

  /** `f"{doc_id}_{i}"`. */
  function ChunkId(docId: string, i: nat): string
  {
    docId + "_" + Decimal(i)
  }

  /** The metadata dict `_store_chunks` writes for one chunk. */
  function ChunkMetadata(docId: string, source: Option<string>, blob: Option<string>): (m: Metadata)
    ensures m.Keys == {"doc_id", "source", "json"}
    ensures m["doc_id"] == docId
    ensures m["source"] == OrElse(source, "unknown") && m["source"] != ""
    ensures m["json"] == OrElse(blob, "")
  {
    map["doc_id" := docId, "source" := OrElse(source, "unknown"), "json" := OrElse(blob, "")]
  }

  /** The batch `_store_chunks` adds for the chunks of one document. */
  function Batch(docId: string, source: Option<string>, chunks: seq<Chunk>): (b: seq<Entry>)
    ensures |b| == |chunks|
  {
    seq(|chunks|, i requires 0 <= i < |chunks| =>
      Entry(ChunkId(docId, i), chunks[i].0, ChunkMetadata(docId, source, chunks[i].1)))
  }

  /** Within one document, distinct chunk positions give distinct ids. */
  lemma ChunkIdsDistinct(docId: string, i: nat, j: nat)
    requires i != j
    ensures ChunkId(docId, i) != ChunkId(docId, j)
  {
    if ChunkId(docId, i) == ChunkId(docId, j) {
      assert Decimal(i) == ChunkId(docId, i)[|docId| + 1..];
      assert Decimal(j) == ChunkId(docId, j)[|docId| + 1..];
      DecimalInjective(i, j);
    }
  }

  /** A chunk id determines its document and its position, provided document
      ids contain no underscore (as uuid text does not). */
  lemma ChunkIdsAcrossDocuments(a: string, b: string, i: nat, j: nat)
    requires '_' !in a && '_' !in b
    requires ChunkId(a, i) == ChunkId(b, j)
    ensures a == b && i == j
  {
    var s := ChunkId(a, i);
    assert s[|a|] == '_' && s[|b|] == '_';
    assert |a| == |b|;
    assert a == s[..|a|] == b;
    assert Decimal(i) == s[|a| + 1..] == Decimal(j);
    DecimalInjective(i, j);
  }

  /** The loop of `_store_chunks`: the three parallel lists for one batch. */
  method ChunkColumns(docId: string, source: Option<string>, chunks: seq<Chunk>)
    returns (ids: seq<string>, texts: seq<string>, metadatas: seq<Metadata>)
    ensures |ids| == |chunks| && |texts| == |chunks| && |metadatas| == |chunks|
    ensures forall i :: 0 <= i < |chunks| ==>
      ids[i] == ChunkId(docId, i) && texts[i] == chunks[i].0 &&
      metadatas[i] == ChunkMetadata(docId, source, chunks[i].1)
    ensures Zip(ids, texts, metadatas) == Batch(docId, source, chunks)
  {
    ids, texts, metadatas := [], [], [];
    for i := 0 to |chunks|
      invariant |ids| == i && |texts| == i && |metadatas| == i
      invariant forall j :: 0 <= j < i ==>
        ids[j] == ChunkId(docId, j) && texts[j] == chunks[j].0 &&
        metadatas[j] == ChunkMetadata(docId, source, chunks[j].1)
    {
      var (text, blob) := chunks[i];
      ids := ids + [docId + "_" + Decimal(i)];
      texts := texts + [text];
      metadatas := metadatas + [map["doc_id" := docId, "source" := OrElse(source, "unknown"), "json" := OrElse(blob, "")]];
    }
  }

  /** `_store_chunks`: exactly one batch is added to the collection. */
  method StoreChunks(col: Collection, docId: string, source: Option<string>, chunks: seq<Chunk>)
    modifies col
    ensures col.batches == old(col.batches) + [Batch(docId, source, chunks)]
  {
    var ids, texts, metadatas := ChunkColumns(docId, source, chunks);
    col.Add(ids, texts, metadatas);
  }

  // ---------------------------------------------------------------------------
  // save_text

  function TextDocument(docId: string, filename: Option<string>): DocRecord
  {
    DocRecord(docId, OrElse(filename, "text_input.txt"), "text/plain")
  }

  /** `save_text`: one record and one chunk holding the whole text. */
  method SaveText(db: DocumentStore, col: Collection, docId: string, text: string, filename: Option<string>)
    returns (id: string, count: nat)
    modifies db, col
    ensures id == docId && count == 1
    ensures db.records == old(db.records) + [TextDocument(docId, filename)]
    ensures col.batches == old(col.batches) + [Batch(docId, Some(TextDocument(docId, filename).filename), [(text, None)])]
  {
    var d := DocRecord(docId, OrElse(filename, "text_input.txt"), "text/plain");
    db.Commit(d);
    StoreChunks(col, docId, Some(d.filename), [(text, None)]);
    id, count := docId, 1;
  }

  // ---------------------------------------------------------------------------
  // save_json

  function JsonDocument(docId: string, filename: Option<string>): DocRecord
  {
    DocRecord(docId, OrElse(filename, "data.json"), "application/json")
  }

  /** `isinstance(data, list) and data and isinstance(data[0], dict)`. */
  predicate IsRecordList(data: Json)
  {
    data.JArr? && |data.items| > 0 && data.items[0].JObj?
  }

  predicate AllObjects(items: seq<Json>)
  {
    forall i :: 0 <= i < |items| ==> items[i].JObj?
  }

  /** The chunk of one JSON object: its flattened text and its serialisation. */
  function ObjectChunk(obj: Json, rt: Runtime): Chunk
    requires obj.JObj?
  {
    (Utils.FlattenRow(obj.fields, rt.show), Some(Utils.RobustJsonDump(obj, rt)))
  }

  /** The chunks `save_json` stores for a decoded value; `None` when building
      them raises (a later list element that is not an object has no
      `.items()`). */
  function JsonChunks(data: Json, rt: Runtime): Option<seq<Chunk>>
  {
    if IsRecordList(data) then
      if AllObjects(data.items) then
        Some(seq(|data.items|, i requires 0 <= i < |data.items| => ObjectChunk(data.items[i], rt)))
      else None
    else if data.JObj? then Some([ObjectChunk(data, rt)])
    else Some([(rt.show(data), Some(Utils.RobustJsonDump(data, rt)))])
  }

  /** The normalisation step of `save_json`. */
  method NormalizeJson(data: Json, rt: Runtime) returns (chunks: Option<seq<Chunk>>)
    ensures chunks == JsonChunks(data, rt)
    ensures chunks.Some? ==> |chunks.value| >= 1
    ensures IsRecordList(data) ==> (chunks.Some? <==> AllObjects(data.items))
    ensures IsRecordList(data) && chunks.Some? ==>
      |chunks.value| == |data.items| &&
      forall i :: 0 <= i < |data.items| ==>
        data.items[i].JObj? && chunks.value[i] == ObjectChunk(data.items[i], rt)
    ensures !IsRecordList(data) && data.JObj? ==> chunks == Some([ObjectChunk(data, rt)])
    ensures !IsRecordList(data) && !data.JObj? ==>
      chunks == Some([(rt.show(data), Some(Utils.RobustJsonDump(data, rt)))])
  {
    if data.JArr? && |data.items| > 0 && data.items[0].JObj? {
      var cs: seq<Chunk> := [];
      for i := 0 to |data.items|
        invariant |cs| == i
        invariant forall j :: 0 <= j < i ==> data.items[j].JObj? && cs[j] == ObjectChunk(data.items[j], rt)
      {
        var row := data.items[i];
        if !row.JObj? {
          assert !AllObjects(data.items);
          chunks := None;
          return;
        }
        var texts := Utils.RowsToText([row.fields], rt.show);
        cs := cs + [(texts[0], Some(Utils.RobustJsonDump(row, rt)))];
      }
      assert cs == seq(|data.items|, i requires 0 <= i < |data.items| => ObjectChunk(data.items[i], rt));
      chunks := Some(cs);
    } else if data.JObj? {
      var texts := Utils.RowsToText([data.fields], rt.show);
      chunks := Some([(texts[0], Some(Utils.RobustJsonDump(data, rt)))]);
    } else {
      chunks := Some([(rt.show(data), Some(Utils.RobustJsonDump(data, rt)))]);
    }
  }

  /** `save_json`. The record is committed before the chunks are built, so when
      building them raises (`None`) the record stays and nothing is indexed. */
  method SaveJson(db: DocumentStore, col: Collection, rt: Runtime, docId: string, data: Json, filename: Option<string>)
    returns (result: Option<(string, nat)>)
    modifies db, col
    ensures db.records == old(db.records) + [JsonDocument(docId, filename)]
    ensures JsonChunks(data, rt).None? ==> result == None && col.batches == old(col.batches)
    ensures JsonChunks(data, rt).Some? ==>
      var cs := JsonChunks(data, rt).value;
      result == Some((docId, |cs|)) &&
      col.batches == old(col.batches) + [Batch(docId, Some(JsonDocument(docId, filename).filename), cs)]
  {
    var d := DocRecord(docId, OrElse(filename, "data.json"), "application/json");
    db.Commit(d);
    var chunks := NormalizeJson(data, rt);
    if chunks.None? {
      result := None;
      return;
    }
    StoreChunks(col, docId, Some(d.filename), chunks.value);
    result := Some((docId, |chunks.value|));
  }

  // ---------------------------------------------------------------------------
  // save_csv_bytes

  function CsvDocument(docId: string, filename: Option<string>): DocRecord
  {
    DocRecord(docId, OrElse(filename, "data.csv"), "text/csv")
  }

  /** `zip(rows_to_text(rows), [robust_json_dump(r) for r in rows])`. */
  function CsvChunks(rows: seq<Record>, rt: Runtime): (cs: seq<Chunk>)
    ensures |cs| == |rows|
  {
    var texts := Utils.FlattenAll(rows, rt.show);
    seq(|rows|, i requires 0 <= i < |rows| => (texts[i], Some(Utils.RobustJsonDump(JObj(rows[i]), rt))))
  }

  /** Chunk i of a CSV upload is row i flattened, paired with row i serialised. */
  lemma CsvChunkAt(rows: seq<Record>, rt: Runtime, i: nat)
    requires i < |rows|
    ensures CsvChunks(rows, rt)[i] == (Utils.FlattenRow(rows[i], rt.show), Some(Utils.RobustJsonDump(JObj(rows[i]), rt)))
  {
    Utils.FlattenAllAt(rows, rt.show, i);
  }

  /** `save_csv_bytes`. Parsing is the foreign `readCsv`; it happens after the
      record is committed. */
  method SaveCsvBytes(db: DocumentStore, col: Collection, rt: Runtime, docId: string, fileBytes: seq<byte>, filename: Option<string>)
    returns (id: string, count: nat)
    modifies db, col
    ensures id == docId && count == |rt.readCsv(fileBytes)|
    ensures db.records == old(db.records) + [CsvDocument(docId, filename)]
    ensures col.batches == old(col.batches) + [Batch(docId, Some(CsvDocument(docId, filename).filename), CsvChunks(rt.readCsv(fileBytes), rt))]
  {
    var d := DocRecord(docId, OrElse(filename, "data.csv"), "text/csv");
    db.Commit(d);
    var rows := rt.readCsv(fileBytes);
    var texts := Utils.RowsToText(rows, rt.show);
    var blobs := seq(|rows|, i requires 0 <= i < |rows| => Utils.RobustJsonDump(JObj(rows[i]), rt));
    var chunks := seq(|texts|, i requires 0 <= i < |texts| => (texts[i], Some(blobs[i])));
    assert chunks == CsvChunks(rows, rt);
    StoreChunks(col, docId, Some(d.filename), chunks);
    id, count := docId, |chunks|;
  }

  // ---------------------------------------------------------------------------
  // search_matches

  /** One match as `search_matches` returns it; missing metadata keys read as `None`. */
  datatype Match = Match(id: string, text: string, source: Option<string>, json: Option<string>, docId: Option<string>)

  /** `m.get(key)`. */
  function Get(m: Metadata, key: string): Option<string>
  {
    if key in m then Some(m[key]) else None
  }

  function MatchOf(e: Entry): Match
  {
    Match(e.id, e.document, Get(e.metadata, "source"), Get(e.metadata, "json"), Get(e.metadata, "doc_id"))
  }

  /** The matches of a ranked result, in rank order. */
  function MatchesOf(hits: seq<Entry>): (ms: seq<Match>)
    ensures |ms| == |hits|
  {
    seq(|hits|, i requires 0 <= i < |hits| => MatchOf(hits[i]))
  }

  /** `search_matches`: flattens the ranked result into parallel `matches` and
      `sources`, in rank order, duplicates kept. */
  method SearchMatches(col: Collection, order: seq<nat>) returns (matches: seq<Match>, sources: seq<Option<string>>)
    requires RankingFits(order, |col.Entries()|)
    ensures var hits := col.Query(order, TopK);
      |matches| == |hits| && |sources| == |hits| &&
      forall i :: 0 <= i < |hits| ==> matches[i] == MatchOf(hits[i]) && sources[i] == matches[i].source
    ensures matches == MatchesOf(col.Query(order, TopK))
    ensures |matches| <= TopK
  {
    var hits := col.Query(order, TopK);
    matches, sources := [], [];
    for i := 0 to |hits|
      invariant |matches| == i && |sources| == i
      invariant forall j :: 0 <= j < i ==> matches[j] == MatchOf(hits[j]) && sources[j] == matches[j].source
    {
      var md := hits[i].metadata;
      matches := matches + [Match(hits[i].id, hits[i].document, Get(md, "source"), Get(md, "json"), Get(md, "doc_id"))];
      sources := sources + [Get(md, "source")];
    }
  }

  // ---------------------------------------------------------------------------
  // Invariants of the two stores

  function DocOf(e: Entry): string
  {
    if "doc_id" in e.metadata then e.metadata["doc_id"] else ""
  }

  /** The shape `_store_chunks` gives the entry at position i of its batch. */
  ghost predicate WellKeyed(e: Entry, i: nat, ids: set<string>)
  {
    && e.metadata.Keys == {"doc_id", "source", "json"}
    && e.metadata["source"] != ""
    && e.metadata["doc_id"] in ids
    && e.id == ChunkId(e.metadata["doc_id"], i)
  }

  /** Records have distinct uuid ids and a known content type; every batch
      belongs to one recorded document, distinct batches to distinct ones, and
      every entry is keyed `{doc_id}_{position}`. */
  ghost predicate Consistent(records: seq<DocRecord>, batches: seq<seq<Entry>>)
  {
    && (forall i, j :: 0 <= i < j < |records| ==> records[i].id != records[j].id)
    && (forall i :: 0 <= i < |records| ==> UuidText(records[i].id) && IsContentType(records[i].contentType))
    && (forall k, i :: 0 <= k < |batches| && 0 <= i < |batches[k]| ==> WellKeyed(batches[k][i], i, RecordIds(records)))
    && (forall k, i :: 0 <= k < |batches| && 0 <= i < |batches[k]| ==> DocOf(batches[k][i]) == DocOf(batches[k][0]))
    && (forall k1, k2 :: 0 <= k1 < k2 < |batches| && |batches[k1]| > 0 && |batches[k2]| > 0 ==>
          DocOf(batches[k1][0]) != DocOf(batches[k2][0]))
  }

  lemma RecordIdsAppend(records: seq<DocRecord>, d: DocRecord)
    ensures RecordIds(records + [d]) == RecordIds(records) + {d.id}
  {
  }

  lemma RecordIdIsUuid(records: seq<DocRecord>, id: string)
    requires forall i :: 0 <= i < |records| ==> UuidText(records[i].id)
    requires id in RecordIds(records)
    ensures '_' !in id
  {
    var r :| r in records && r.id == id;
    UuidHasNoUnderscore(id);
  }

  /** Committing a record with a fresh id keeps the stores consistent (the
      path where building the chunks raises). */
  lemma CommitPreservesConsistency(records: seq<DocRecord>, batches: seq<seq<Entry>>, d: DocRecord)
    requires Consistent(records, batches)
    requires Fresh(d.id, records) && IsContentType(d.contentType)
    ensures Consistent(records + [d], batches)
  {
  }

  /** Committing a fresh record and then indexing its chunks keeps the stores
      consistent. */
  lemma StorePreservesConsistency(records: seq<DocRecord>, batches: seq<seq<Entry>>, d: DocRecord, source: Option<string>, chunks: seq<Chunk>)
    requires Consistent(records, batches)
    requires Fresh(d.id, records) && IsContentType(d.contentType)
    ensures Consistent(records + [d], batches + [Batch(d.id, source, chunks)])
  {
    CommitPreservesConsistency(records, batches, d);
    RecordIdsAppend(records, d);
    var rs, bs := records + [d], batches + [Batch(d.id, source, chunks)];
    var ids := RecordIds(rs);
    var nb := |batches|;
    forall k, i | 0 <= k < |bs| && 0 <= i < |bs[k]| ensures WellKeyed(bs[k][i], i, ids) {
      if k < nb {
        assert bs[k] == batches[k];
        assert WellKeyed(batches[k][i], i, RecordIds(records));
      }
    }
    forall k1, k2 | 0 <= k1 < k2 < |bs| && |bs[k1]| > 0 && |bs[k2]| > 0
      ensures DocOf(bs[k1][0]) != DocOf(bs[k2][0])
    {
      if k2 == nb {
        assert bs[k1] == batches[k1];
        assert WellKeyed(batches[k1][0], 0, RecordIds(records));
        assert DocOf(bs[k2][0]) == d.id;
      } else {
        assert bs[k1] == batches[k1] && bs[k2] == batches[k2];
      }
    }
  }

  /** Every id in the collection is unique: two different positions never hold
      the same id. */
  lemma EntryIdsUnique(records: seq<DocRecord>, batches: seq<seq<Entry>>, k1: nat, i1: nat, k2: nat, i2: nat)
    requires Consistent(records, batches)
    requires k1 < |batches| && i1 < |batches[k1]| && k2 < |batches| && i2 < |batches[k2]|
    requires (k1, i1) != (k2, i2)
    ensures batches[k1][i1].id != batches[k2][i2].id
  {
    var e1, e2 := batches[k1][i1], batches[k2][i2];
    assert WellKeyed(e1, i1, RecordIds(records)) && WellKeyed(e2, i2, RecordIds(records));
    var a, b := e1.metadata["doc_id"], e2.metadata["doc_id"];
    RecordIdIsUuid(records, a);
    RecordIdIsUuid(records, b);
    if e1.id == e2.id {
      ChunkIdsAcrossDocuments(a, b, i1, i2);
    }
  }

  lemma {:induction false} ConcatIndex(batches: seq<seq<Entry>>, n: nat)
    requires n < |Concat(batches)|
    ensures exists k, i :: 0 <= k < |batches| && 0 <= i < |batches[k]| && batches[k][i] == Concat(batches)[n]
  {
    var front := batches[..|batches| - 1];
    var last := batches[|batches| - 1];
    assert Concat(batches) == Concat(front) + last;
    if n < |Concat(front)| {
      ConcatIndex(front, n);
      var k, i :| 0 <= k < |front| && 0 <= i < |front[k]| && front[k][i] == Concat(front)[n];
      assert batches[k] == front[k];
    } else {
      var i := n - |Concat(front)|;
      assert batches[|batches| - 1][i] == Concat(batches)[n];
    }
  }

  /** Every match of a consistent collection names its source (never empty),
      carries its original form, and points back to a recorded document. */
  lemma MatchProvenance(records: seq<DocRecord>, batches: seq<seq<Entry>>, order: seq<nat>, k: nat, n: nat)
    requires Consistent(records, batches)
    requires RankingFits(order, |Concat(batches)|)
    requires n < |Nearest(Concat(batches), order, k)|
    ensures var m := MatchOf(Nearest(Concat(batches), order, k)[n]);
      m.source.Some? && m.source.value != "" && m.json.Some? &&
      m.docId.Some? && m.docId.value in RecordIds(records)
  {
    var e := Nearest(Concat(batches), order, k)[n];
    ConcatIndex(batches, order[n]);
    var b, i :| 0 <= b < |batches| && 0 <= i < |batches[b]| && batches[b][i] == Concat(batches)[order[n]];
    assert WellKeyed(batches[b][i], i, RecordIds(records));
  }
}
