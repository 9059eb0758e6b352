/**
 * Decoded JSON values and key->value records, plus the foreign functions the
 * service relies on but does not implement itself (string conversion, the
 * JSON codec, UTF-8 decoding and the CSV reader).
 */
module Json {
  import opened Wrappers

  /** A decoded JSON value. Objects keep their members in insertion order,
      which is the iteration order of the Python dict `json.loads` builds. */
  datatype Json =
    | JNull
    | JBool(b: bool)
    | JInt(i: int)
    | JFloat(f: real)
    | JStr(s: string)
    | JArr(items: seq<Json>)
    | JObj(fields: Record)

  /** A key->value record (a JSON object or one CSV row) in key iteration order. */
  type Record = seq<(string, Json)>

  /** A byte of an uploaded payload. */
  type byte = b: int | 0 <= b < 256

  /** The behaviour of the libraries the core calls into but does not define.
      A function returning `None` stands for a call that raises. */
  datatype Runtime = Runtime(
    show: Json -> string,               // Python `str(v)`, also what an f-string inserts
    dumps: Json -> Option<string>,      // `json.dumps(v, ensure_ascii=False)`
    loads: string -> Option<Json>,      // `json.loads(s)`
    utf8: seq<byte> -> Option<string>,  // `b.decode("utf-8")`
    utf8Lossy: seq<byte> -> string,     // `b.decode("utf-8", errors="ignore")`
    readCsv: seq<byte> -> seq<Record>)  // `pd.read_csv(...).to_dict(orient="records")`
}
