/**
  JSON documents as trees, and the conversion between trees and JSON text.
  The conversion is a library's business (`json.dumps` / `json.loads`), so
  it is a pair of functions handed in from outside; the only thing assumed
  of it, where a result needs it, is that loading a dump gives the tree back.
 */
module Json {
  import opened Wrappers

  /** A JSON value. Numbers keep their literal text; objects are maps (member order is not modelled). */
  datatype Json =
    | JNull
    | JBool(b: bool)
    | JNum(literal: string)
    | JStr(str: string)
    | JArr(items: seq<Json>)
    | JObj(fields: map<string, Json>)

  /** Tree to text and text to tree; `load` answers `None` for text that is not JSON. */
  datatype Codec = Codec(dump: Json -> string, load: string -> Option<Json>)

  /** Loading what was dumped gives back the same tree. */
  ghost predicate RoundTrips(codec: Codec)
  {
    forall j: Json :: codec.load(codec.dump(j)) == Some(j)
  }

  /** Python's `d.get(key)`: the member's value, or `None` when it is absent. */
  function Get(fields: map<string, Json>, key: string): (r: Option<Json>)
    ensures r.Some? <==> key in fields
    ensures r.Some? ==> r.value == fields[key]
  {
    if key in fields then Some(fields[key]) else None
  }
}
