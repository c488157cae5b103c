/** Values exchanged with the outside world: optional replies of the
    external services and the JSON-like payload of the search service. */
module Values {

  /** A reply from an external call: `None` when the call raised. */
  datatype Option<+T> = None | Some(value: T)

  /** The JSON-like values a search reply is built from. Objects are keyed
      by text; numbers are kept as integers, since no step looks at them. */
  datatype Json =
    | JNull
    | JBool(b: bool)
    | JNum(n: int)
    | JStr(s: string)
    | JArr(items: seq<Json>)
    | JObj(fields: map<string, Json>)

  /** The default search payload `{"organic": []}`. */
  const EmptyOrganic: Json := JObj(map["organic" := JArr([])])

  /** `entry.get("link", "")` on one result record. */
  function LinkOf(entry: map<string, Json>): (link: Json)
  {
    if "link" in entry then entry["link"] else JStr("")
  }
}
