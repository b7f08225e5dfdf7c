/** The JSON data the `Serialize` impls write: a struct is the sequence of
    fields in the order its `serialize_field` calls write them. Also the
    read-side helpers a consumer of that data uses. */
module Json {
  import opened Options

  datatype Json =
    | JNull
    | JBool(b: bool)
    | JNum(n: int)
    | JStr(s: string)
    | JArr(items: seq<Json>)
    | JObj(fields: seq<(string, Json)>)

  /** The keys of an object, in the order the serializer wrote them. */
  function Keys(fields: seq<(string, Json)>): seq<string>
  {
    seq(|fields|, i requires 0 <= i < |fields| => fields[i].0)
  }

  /** No key occurs twice. */
  predicate Distinct(keys: seq<string>)
  {
    forall i, j :: 0 <= i < j < |keys| ==> keys[i] != keys[j]
  }

  /** The value of the first field named `key`; `None` when the key is absent
      (which a reader can tell apart from a field whose value is `JNull`). */
  function Lookup(fields: seq<(string, Json)>, key: string): (r: Option<Json>)
    ensures r.None? <==> key !in Keys(fields)
    ensures r.Some? ==> (key, r.value) in fields
  {
    if fields == [] then None
    else if fields[0].0 == key then
      assert Keys(fields)[0] == key;
      Some(fields[0].1)
    else
      assert Keys(fields) == [fields[0].0] + Keys(fields[1..]);
      Lookup(fields[1..], key)
  }

  /** `j[key]` for an object, `None` for every other value. */
  function Get(j: Json, key: string): Option<Json>
  {
    if j.JObj? then Lookup(j.fields, key) else None
  }

  /** When keys are distinct, the field that holds `key` is the one `Lookup` finds. */
  lemma {:induction false} LookupDistinct(fields: seq<(string, Json)>, key: string, v: Json)
    requires Distinct(Keys(fields))
    requires (key, v) in fields
    ensures Lookup(fields, key) == Some(v)
  {
    var ks := Keys(fields);
    if fields[0] != (key, v) {
      var k :| 0 <= k < |fields| && fields[k] == (key, v);
      assert k != 0 ==> ks[0] != ks[k];
      assert fields[0].0 != key;
      assert (key, v) == fields[1..][k - 1];
      assert Keys(fields[1..]) == ks[1..];
      LookupDistinct(fields[1..], key, v);
    }
  }

  /** Every object anywhere inside `j` has distinct keys. */
  predicate UniqueKeys(j: Json)
  {
    match j
    case JArr(items) => forall i :: 0 <= i < |items| ==> UniqueKeys(items[i])
    case JObj(fields) =>
      Distinct(Keys(fields)) && forall i :: 0 <= i < |fields| ==> UniqueKeys(fields[i].1)
    case _ => true
  }
}
