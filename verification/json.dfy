/** Values as Python's `json.load` produces them, and the outcome of reading a JSON file. */
module Json {

  /** A JSON value. Numbers are integers only; every modelled branch passes
      a number on, prints it or rejects it without looking at its value. */
  datatype Value =
    | Null
    | Bool(b: bool)
    | Number(n: int)
    | String(s: string)
    | Array(items: seq<Value>)
    | Object(fields: map<string, Value>)

  /** What opening and `json.load`-ing one file gives. */
  datatype Loaded =
    | Absent              // the file does not exist
    | Parsed(value: Value)
    | Malformed           // it exists but is not valid JSON
    | Unreadable          // it exists but cannot be opened or decoded

  /** Python's `d.get(key, default)` on a JSON object. */
  function Get(fields: map<string, Value>, key: string, default: Value): Value
  {
    if key in fields then fields[key] else default
  }
}
