/** Small value types shared by the whole model: optional values, results with
    an error, and the JSON values that the client sends in request bodies. */
module Values {

  datatype Option<+T> = None | Some(value: T)

  datatype Result<+T, +E> = Ok(value: T) | Err(error: E)

  /** A JSON value as PHP's json encoding produces it from the arrays the client
      builds: strings, integers, lists (PHP arrays with keys 0..n-1) and
      objects (PHP arrays with string keys). */
  datatype Json =
    | JString(str: string)
    | JInt(num: int)
    | JList(items: seq<Json>)
    | JObject(fields: map<string, Json>)

  /** The value reached by following the object keys in `path` from `j`,
      the way the receiving server reads a field of the request body. */
  function Lookup(j: Json, path: seq<string>): Option<Json>
    decreases |path|
  {
    if path == [] then Some(j)
    else match j
      case JObject(fields) =>
        if path[0] in fields then Lookup(fields[path[0]], path[1..]) else None
      case _ => None
  }

  /** Every field of a nested object is reached by the two-key path to it. */
  lemma LookupNested(fields: map<string, Json>, outer: string, inner: map<string, Json>)
    requires outer in fields && fields[outer] == JObject(inner)
    ensures forall k :: k in inner ==> Lookup(JObject(fields), [outer, k]) == Some(inner[k])
  {
    forall k | k in inner
      ensures Lookup(JObject(fields), [outer, k]) == Some(inner[k])
    {
      assert [outer, k][1..] == [k] && [k][1..] == [];
      assert Lookup(JObject(inner), [k]) == Lookup(inner[k], []);
    }
  }
}
