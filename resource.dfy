/**
 * Resources as schema-less JSON-like trees. A FHIR resource (an Observation,
 * a DocumentReference, a Bundle entry) is an object whose fields hold
 * primitives, nested elements or repeated elements. Dates are integers.
 */
module Resource {

  datatype Json =
    | JNull
    | JBool(b: bool)
    | JNum(n: int)
    | JStr(s: string)
    | JArr(items: seq<Json>)
    | JObj(fields: seq<Field>)

  datatype Field = Field(name: string, value: Json)

  datatype Option<T> = None | Some(value: T)

  /** The element named `name` of an object (the first field of that name); `JNull` when absent. */
  function Get(v: Json, name: string): (r: Json)
    ensures r != JNull ==> v.JObj? && exists i :: 0 <= i < |v.fields| && v.fields[i] == Field(name, r)
    ensures v.JObj? && |v.fields| > 0 && v.fields[0].name == name ==> r == v.fields[0].value
  {
    if v.JObj? then Lookup(v.fields, name) else JNull
  }

  function Lookup(fields: seq<Field>, name: string): (r: Json)
    ensures r != JNull ==> exists i :: 0 <= i < |fields| && fields[i] == Field(name, r)
    ensures (forall i :: 0 <= i < |fields| ==> fields[i].name != name) ==> r == JNull
    decreases |fields|
  {
    if fields == [] then JNull
    else if fields[0].name == name then fields[0].value
    else Lookup(fields[1..], name)
  }

  /** Fields of other names before the one read make no difference to the read. */
  lemma {:induction false} LookupSkipsOthers(before: seq<Field>, rest: seq<Field>, name: string)
    requires forall i :: 0 <= i < |before| ==> before[i].name != name
    ensures Lookup(before + rest, name) == Lookup(rest, name)
    decreases |before|
  {
    if before != [] {
      assert (before + rest)[0] == before[0];
      assert (before + rest)[1..] == before[1..] + rest;
      assert forall i :: 0 <= i < |before[1..]| ==> before[1..][i] == before[i + 1];
      LookupSkipsOthers(before[1..], rest, name);
    } else {
      assert before + rest == rest;
    }
  }

  /**
   * Ruby's `Array.wrap`: a repeated element stands for its items, an absent
   * one for nothing, anything else for itself.
   */
  function Wrap(v: Json): (r: seq<Json>)
    ensures v == JNull ==> r == []
    ensures v.JArr? ==> r == v.items
    ensures v != JNull && !v.JArr? ==> r == [v]
  {
    match v
    case JNull => []
    case JArr(items) => items
    case _ => [v]
  }
}
