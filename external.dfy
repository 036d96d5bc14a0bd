/**
 The interfaces of the collaborators the gatherer script calls but does not
 define: the JSON values plugins return, the plugin dispatcher `gather`
 (an oracle), and the logging sink (an append-only list of calls).
 */
module External {

  datatype Option<+T> = None | Some(value: T)

  /** A JSON-serialisable value. Numbers are kept abstract as reals. */
  datatype Json =
    | JNull
    | JBool(b: bool)
    | JNum(n: real)
    | JStr(s: string)
    | JArr(items: seq<Json>)
    | JObj(fields: map<string, Json>)

  /** What one `gather(plugin, system)` call does: return a value or raise. */
  datatype GatherOutcome = Gathered(value: Json) | Raised

  /** The plugin dispatcher, as an oracle from (plugin, system) to an outcome. */
  type Gather = (string, string) -> GatherOutcome

  /** One gather call the collection loop makes. */
  datatype Call = Call(plugin: string, system: string)

  /**
   One call of the logging sink: its positional arguments and the `level`
   keyword, when one is passed (None means the sink's default level).
   */
  datatype LogCall = LogCall(args: seq<string>, level: Option<int>)
}
