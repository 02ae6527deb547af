/** The values that cross the HTTP boundary: bytes, decoded JSON, query-parameter values. */
module Wire {

  newtype byte = x: int | 0 <= x < 256

  type Bytes = seq<byte>

  /** The byte of '\n', which separates the lines of a bulk import. */
  const Newline: byte := 10

  /** A decoded JSON value (numbers are integers; floating point is not modelled). */
  datatype Json =
    | JNull
    | JBool(b: bool)
    | JInt(i: int)
    | JStr(s: string)
    | JArray(items: seq<Json>)
    | JObject(fields: map<string, Json>)

  /** A Python value passed as a query parameter, a list of strings or of integers included. */
  datatype Value = Str(s: string) | Int(i: int) | Bool(b: bool) | StrList(items: seq<string>) | IntList(ints: seq<int>)
}
