/** The parsed JSON value (`enum Json` of src/main.rs) and its two indexing
    operators. */
module Values {

  /** A JSON value. `Number` keeps the text of the number as scanned: the
      floating-point conversion itself is not modelled. `Object` is the
      `HashMap<String, Json>` of the source. */
  datatype Json =
    | Object(fields: map<string, Json>)
    | Array(items: seq<Json>)
    | Number(text: string)
    | String(text: string)
    | True
    | False
    | Null

  /** `impl Index<usize> for Json`: only an array can be indexed by number, and
      only within its length; every other use panics in the source. */
  function At(j: Json, idx: nat): (r: Json)
    requires j.Array? && idx < |j.items|
    ensures r in j.items && r < j
  {
    j.items[idx]
  }

  /** `impl Index<&str> for Json`: only an object can be indexed by key, and only
      by a key it holds; every other use panics in the source. */
  function Get(j: Json, key: string): (r: Json)
    requires j.Object? && key in j.fields
    ensures r in j.fields.Values && r < j
  {
    j.fields[key]
  }
}
