/** Metadata dictionaries attached to documents, chunks and index entries. */
module Meta {
  import PyText

  /** The values the pipeline stores in metadata: strings, integers and `None`. */
  datatype MetaValue = Str(s: string) | Int(i: int) | Null

  /** A Python metadata dict; `m + map[k := v]` is `dict.update`. */
  type Metadata = map<string, MetaValue>

  /** Python's `str(v)`, which is what an f-string inserts. */
  function Display(v: MetaValue): string {
    match v
    case Str(s) => s
    case Int(i) => PyText.IntToString(i)
    case Null => "None"
  }
}
