/** The parsed API descriptor: the untyped tree a YAML decoder produces,
    as a tagged variant. A nested mapping is keyed by arbitrary values
    (YAML allows non-string keys); the top level is keyed by strings. */
module Document {

  newtype byte = x: int | 0 <= x < 256

  type Bytes = seq<byte>

  datatype Value =
    | Null
    | Bool(b: bool)
    | Int(i: int)
    | Float(text: string) // kept as written; the rewrite never reads one
    | Str(s: string)
    | Seq(items: seq<Value>)
    | Map(entries: map<Value, Value>)

  /** The top-level mapping of a descriptor. */
  type Doc = map<string, Value>
}
