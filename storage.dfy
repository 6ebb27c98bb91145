/** The JSON files under data/ as the helper modules (utilits.py, utils.py, user_state.py)
    see them: a file is missing, holds text that does not parse, or holds a value. */
module Storage {

  /** A data file: absent, present but unreadable, or present with parsed content. */
  datatype Stored<T> = Missing | Corrupt | Present(value: T)

  /** `load_json(path, default)`: the parsed content, or `default` when the file is
      missing or does not parse. */
  function LoadOr<T>(f: Stored<T>, default: T): T
  {
    if f.Present? then f.value else default
  }

  /** A JSON value; numbers are integers. */
  datatype Json =
    | JNull
    | JBool(b: bool)
    | JNum(n: int)
    | JStr(s: string)
    | JList(items: seq<Json>)
    | JObject(fields: map<string, Json>)
}
