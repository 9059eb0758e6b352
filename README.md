# AutoDB ingestion and retrieval core, modelled in Dafny

AutoDB is a small "store and ask" service. Clients upload plain text, JSON or
CSV. The service commits a document record, splits the payload into chunks,
and adds the chunks to a vector collection under ids `{doc_id}_{i}`. A query
retrieves the nearest chunks. The service then builds a provenance-tagged
context block from them and asks a language model for an answer.

This project models the deterministic part of that pipeline:

- `Utils` (app/utils.py): record flattening (`rows_to_text`) and serialise-or-fallback (`robust_json_dump`).
- `Storage` (app/storage.py):
  - the two stores, as classes: `DocumentStore` holds the committed document records and `Collection` holds the batches added to the vector index;
  - chunk ids and metadata (`_store_chunks`);
  - the three save operations;
  - result flattening (`search_matches`);
  - a consistency invariant over both stores.
- `Api` (app/main.py): the `save` handler's channel priority and extension dispatch, and the `search` handler's short-circuit and context block.
- `Text`: the Python string operations the core relies on: `str.join`, `str(int)`, ASCII `lower`, `endswith`, and `x or default`.
- `Json`: the decoded JSON value and the `Runtime` record of foreign functions.
- `Wrappers`: the Option type.

Foreign behaviour is not reimplemented. It comes in as fields of `Json.Runtime`:

- `str()`;
- `json.dumps` and `json.loads` (returning `None` where they raise);
- strict and lossy UTF-8 decoding;
- pandas CSV reading.

The uuid4 document id is a parameter, `docId`. The nearest-neighbour ranking is a parameter too: `order` lists entry positions, best first. The completion service is a `CompletionClient` object. It records every prompt it receives and answers through an opaque function.

Two behaviours of the code that a reader might not expect, both modelled as written:

- When a JSON list's first element is an object but a later element is not, `save_json` calls `.items()` (inside `rows_to_text`, app/utils.py:10) on that later element, and the call raises (app/storage.py:55-57). By then the document record is already committed (app/storage.py:50-51), so an orphan record remains. The model returns `None` from `Storage.JsonChunks` on this path. `Storage.SaveJson` keeps the committed record and adds no batch, and `Api.Save` returns `Raised`. `Api.OnlyMixedJsonListsRaise` shows that this is the only way `save` can raise in the model.
- A CSV parse failure in `pd.read_csv` is not caught (app/storage.py:76-77) and happens after the record is committed. The model has no path for it (see Left out).

## Model

| member | source | states |
|---|---|---|
| Utils.RowsToText | app/utils.py:5-13 | the nested loops produce exactly the reference `FlattenAll`: one string per row, in row order, and (with `FlattenAllAt`) string i is row i's `"k: v"` parts in key order joined by `" \| "` |
| Utils.FlattenRow | app/utils.py:9-12 | one row's text: its `"k: v"` parts, in key order, joined by `" \| "` |
| Utils.FlattenAll | app/utils.py:7-13 | the reference list of row texts: one string per row, in row order |
| Utils.PartsAt | app/utils.py:9-11 | part i of a row is `"{k}: {v}"` for the row's i-th field, with `v` shown by `str()` |
| Utils.FlattenAllAt | app/utils.py:7-13 | element i of the flattened list depends on row i alone |
| Utils.FlattenAllAppend | app/utils.py:7-13 | flattening `a + b` gives flattening `a` followed by flattening `b` |
| Utils.FlattenSmallRows | app/utils.py:9-12 | a row with no keys flattens to `""`; a one-key row flattens to exactly `"k: v"`, with no separator |
| Utils.FlattenRowAppend | app/utils.py:9-12 | splitting a row into two non-empty halves splits its text at exactly one `" \| "`, parts kept in key order |
| Utils.PeopleExample | app/utils.py:5-13 | the rows Alice,30 and Bob,25 flatten to `"name: Alice \| age: 30"` and `"name: Bob \| age: 25"` |
| Utils.RobustJsonDump | app/utils.py:16-20 | never fails: the serialisation when `json.dumps` succeeds, else `str(obj)` |
| Text.JoinAppend | app/utils.py:12 | `sep.join` of two non-empty lists is the two joins with one separator between them |
| Text.Join | app/utils.py:12 | Python's `sep.join(parts)`: no leading or trailing separator, one separator between neighbours |
| Text.Lower | app/main.py:50 | `str.lower()` keeps the length and lower-cases every character in place |
| Text.EndsWith | app/main.py:50 | `s.endswith(suffix)`: the last `len(suffix)` characters of `s` are `suffix` |
| Text.Decimal | app/storage.py:27 | `str(i)` is a non-empty string of decimal digits with no underscore |
| Text.DecimalRoundTrip | app/storage.py:27 | reading back the digits of `str(n)` gives `n`, so different positions give different strings |
| Text.LowerEndsWith | app/main.py:50 | `name.lower().endswith(ext)` holds exactly when the last `len(ext)` characters of `name`, lower-cased, are `ext` |
| Text.OrElse | app/storage.py:32-33 | `s or default` is `s` when present and non-empty, else the default; never empty when the default is not |
| Storage.ChunkMetadata | app/storage.py:30-34 | metadata has exactly the keys doc_id, source and json; source falls back to `"unknown"` and is never empty; json falls back to `""` |
| Storage.ChunkId | app/storage.py:27 | the collection id of chunk i is `f"{doc_id}_{i}"` |
| Storage.Batch | app/storage.py:22-35 | the batch `_store_chunks` adds: one entry per chunk, in chunk order, keyed `{doc_id}_{i}` with that chunk's text and metadata |
| Storage.ChunkColumns | app/storage.py:22-34 | `ids`, `texts` and `metadatas` have the length of `chunks`; `ids[i] == doc_id + "_" + str(i)`, `texts[i]` is chunk i's text, and `metadatas[i]` is its metadata |
| Storage.ChunkIdsDistinct | app/storage.py:26-27 | within one document, distinct chunk positions give distinct ids |
| Storage.ChunkIdsAcrossDocuments | app/storage.py:27 | for underscore-free document ids, a chunk id determines both the document and the position |
| Storage.StoreChunks | app/storage.py:22-35 | exactly one batch is appended to the collection: the entries `(id_i, text_i, metadata_i)` in chunk order |
| Storage.Collection.Add | app/storage.py:35 | `collection.add` appends one batch, zipped from its three parallel lists |
| Storage.Nearest | app/storage.py:85 | the query returns at most `k` entries in ranking order, each a stored entry |
| Storage.Collection.Query | app/storage.py:85 | the collection's query is `Nearest` over its stored entries |
| Storage.DocumentStore.Commit | app/storage.py:41-42 | `db.add` plus `db.commit` appends exactly one record |
| Storage.SaveText | app/storage.py:38-44 | commits one `text/plain` record named `filename or "text_input.txt"`; indexes exactly one chunk `(text, no json)`, so its json metadata is `""`; returns `(doc_id, 1)` |
| Storage.NormalizeJson | app/storage.py:53-64 | list whose first element is an object: one chunk per element, in list order, chunk i = (row i flattened, row i dumped); it fails exactly when some element is not an object. A single object gives one flattened chunk. Any other value gives one chunk with text `str(data)`. Every successful result has at least one chunk |
| Storage.JsonChunks | app/storage.py:53-64 | the chunk list `save_json` builds, or `None` where `row.items()` raises on a non-object element |
| Storage.SaveJson | app/storage.py:47-67 | always commits one `application/json` record named `filename or "data.json"`; then either returns `(doc_id, number of chunks)` after adding exactly those chunks as one batch, or raises and adds nothing |
| Storage.CsvChunkAt | app/storage.py:78-79 | CSV chunk i pairs `rows_to_text(rows)[i]` with `robust_json_dump(rows[i])` |
| Storage.CsvChunks | app/storage.py:77-79 | one CSV chunk per parsed row, in row order |
| Storage.SaveCsvBytes | app/storage.py:70-81 | commits one `text/csv` record named `filename or "data.csv"`; adds one batch with one chunk per parsed row, in row order; returns `(doc_id, number of rows)` |
| Storage.SearchMatches | app/storage.py:84-98 | `matches` and `sources` have the length of the ranked result and keep its order; match i is hit i's id, text and metadata; `sources[i] == matches[i].source`, duplicates kept; at most 8 |
| Storage.CommitPreservesConsistency | app/storage.py:48-51 | committing a record with a fresh uuid keeps the stores consistent, even when no chunks follow |
| Storage.Consistent | app/storage.py:22-51 | the invariant the save paths keep: distinct uuid record ids with a known content type; every entry keyed `{doc_id}_{i}` by its own position; each non-empty batch owned by one committed record, different batches by different records |
| Storage.StorePreservesConsistency | app/storage.py:38-44 | committing a fresh record and indexing its chunks keeps both stores consistent: distinct record ids, each batch owned by one record, every entry keyed `{doc_id}_{i}` |
| Storage.EntryIdsUnique | app/storage.py:26-35 | in consistent stores, no id occurs at two positions of the collection, across all documents |
| Storage.MatchProvenance | app/storage.py:89-97 | in consistent stores, every match has a non-empty source and a json payload, and its doc_id names a committed record |
| Api.Save | app/main.py:33-77 | the response and both new store contents are exactly `SaveEffect` of the channel the if-chain selects |
| Api.ChannelOf | app/main.py:47-77 | the branch the if-chain of `save` takes: file first (CSV, then JSON, then text by extension), then `json_payload`, then `text`, else no input |
| Api.DecodeJsonFile | app/main.py:55-57 | `json.loads(content.decode("utf-8"))`, with a failure of either step treated alike |
| Api.TextEffect | app/main.py:62-63 | a text branch commits one record and indexes one chunk, answering "Text stored" with count 1 |
| Api.JsonEffect | app/main.py:58-59 | a JSON branch commits the record, then stores the chunks and answers "JSON stored", or raises |
| Api.SaveEffect | app/main.py:47-77 | the response and the new store contents of each branch |
| Api.FileTakesPriority | app/main.py:47-49 | with a file, `json_payload` and `text` are ignored, and the name used is the override when it is non-empty, else the uploaded name |
| Api.JsonPayloadBeatsText | app/main.py:65-71 | without a file, a non-empty `json_payload` decides the branch and `text` is ignored |
| Api.NoInputExactly | app/main.py:73-77 | "No input provided" is answered exactly when there is no file and neither `json_payload` nor `text` is non-empty |
| Api.UploadDispatch | app/main.py:50-63 | an upload goes to CSV exactly when its name ends in `.csv` ignoring case; to JSON exactly when it does not but ends in `.json`; otherwise it is stored as text |
| Api.InvalidJsonCreatesNothing | app/main.py:54-57 | a JSON upload or payload that fails to decode gets doc id `""` and 0 chunks, and both stores stay unchanged |
| Api.EmptyDocIdMeansNothingStored | app/main.py:47-77 | for a fresh doc id, the response has doc id `""` exactly when neither store changed; otherwise exactly one record with that id is committed |
| Api.ReportedCountIsStoredCount | app/main.py:51-75 | a response with a doc id adds exactly one record and one batch; the reported chunk count is that batch's size; entry i is keyed `{doc_id}_{i}`; the count is at least 1 except for CSV |
| Api.OnlyMixedJsonListsRaise | app/main.py:58 | `save` raises exactly for a JSON list whose first element is an object and some later element is not |
| Api.SavePreservesConsistency | app/main.py:47-77 | every branch of `save` keeps both stores consistent, given a fresh uuid |
| Api.JsonPreservesConsistency | app/storage.py:47-67 | a JSON save keeps both stores consistent, whether it succeeds or raises |
| Api.CompletionClient.Complete | app/main.py:111-115 | one completion call: the prompt is recorded and its opaque answer returned |
| Api.PyStr | app/main.py:92 | Python's f-string rendering of an optional source: the text, or `None` |
| Api.SourceLine | app/main.py:92 | one match's context entry, `"Source: {source}\n{text}"` |
| Api.ContextBlock | app/main.py:91-93 | the context block: the matches' entries, in rank order, joined by one blank line |
| Api.ContextBlockEmpty | app/main.py:87-93 | the context block is empty exactly when there are no matches |
| Api.ContextBlockSingle | app/main.py:91-93 | one match gives exactly `"Source: {source}\n{text}"` |
| Api.ContextBlockAppend | app/main.py:91-93 | the block of a split ranking is the two blocks joined by one blank line, in rank order |
| Api.Search | app/main.py:82-121 | no matches: the fixed "couldn’t find anything relevant" answer, empty lists, and no completion call. Otherwise exactly one call, with the question and the context block; the answer is returned with `sources` and `matches` unchanged |

## Left out

- Embeddings, Chroma persistence and the nearest-neighbour ranking (app/storage.py:14-19, 85): foreign libraries. The ranking is an input, and entries carry no embedding vector.
- The OpenAI client and the prompt wording (app/main.py:17, 95-115): a network call. `Prompt` keeps only the question and the context block, and the answer is opaque. The model, temperature and a missing `content` in the reply are not modelled.
- pandas CSV parsing (app/storage.py:76-77): foreign. `Runtime.readCsv` is total. The code does not catch a parse failure, and it happens after the record is committed; the model has no path for it.
- `json.dumps`, `json.loads`, `str()` and UTF-8 decoding: foreign, so they are `Runtime` fields. A round trip of the `json` metadata back to the row therefore cannot be stated.
- What the collection does with an empty batch, or with an id it already holds: this is the index library's behaviour. An empty batch arises from a CSV with a header and no rows. The model appends such a batch like any other.
- SQLAlchemy engine, sessions and schema (app/db.py): I/O plumbing. A record is `(id, filename, content_type)`, and `created_at` is not kept.
- Pydantic response models (app/models.py): they appear only as the datatypes `SaveResponse` and `SearchResponse`.
- FastAPI routing, CORS and asynchronous file reading (app/main.py:20-31, 48): framework code. An upload's name is a string. The code would raise on a missing name, and the model does not cover that case.
- Floating-point JSON numbers are `real`, so NaN and infinities cannot be represented.
- `Text.Lower` maps only ASCII letters. This gives the same answer as Python's `str.lower()` for the `.csv` and `.json` tests, because no other character lower-cases to one of `. c s v j o n`.
- Flattening determinism has no separate lemma. `Utils.RowsToText` fixes its result as a function of the rows and `str()`, which already implies it.
- Concurrency between requests: the model runs requests one at a time.
- The unused `metadata` argument of `save_text` and the unused `db` argument of `search` are dropped.
