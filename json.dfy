/** The decoded JSON payloads the providers return. */
module JsonValues {
  import opened Wrappers

  /** A JSON object keeps its members in insertion order, as a Python dict does. */
  datatype Json =
    | JNull
    | JBool(b: bool)
    | JNum(x: real)
    | JStr(s: string)
    | JArr(items: seq<Json>)
    | JObj(fields: seq<Field>)

  datatype Field = Field(key: string, val: Json)

  /** `d.get(key)` as an Option: the value of the first member named `key`. */
  function Get(fields: seq<Field>, key: string): (r: Option<Json>)
    ensures r.None? <==> forall i :: 0 <= i < |fields| ==> fields[i].key != key
    ensures r.Some? ==> exists i :: 0 <= i < |fields| && fields[i].key == key && fields[i].val == r.value
  {
    if |fields| == 0 then None
    else if fields[0].key == key then Some(fields[0].val)
    else
      var r := Get(fields[1..], key);
      assert forall i :: 1 <= i < |fields| ==> fields[i] == fields[1..][i - 1];
      r
  }

  /** `d.get(key, default)`: Python's None is JSON null. */
  function GetOr(fields: seq<Field>, key: string, default: Json): (r: Json)
    ensures Get(fields, key).None? ==> r == default
    ensures Get(fields, key).Some? ==> r == Get(fields, key).value
  {
    match Get(fields, key)
    case None => default
    case Some(v) => v
  }
}
