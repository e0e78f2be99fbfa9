/** JSON trees as Jackson holds them: an object keeps its fields in insertion order. */
module JsonTrees {
  import opened Wrappers

  /** `asInt` is what Jackson reads from a scalar as an integer, if it reads one. */
  datatype Json =
    | Scalar(text: string, asInt: Option<int>)
    | Arr(items: seq<Json>)
    | Obj(fields: seq<Field>)

  datatype Field = Field(key: string, value: Json)

  function Lookup(fields: seq<Field>, key: string): (r: Option<Json>)
    ensures r.Some? <==> key in Keys(fields)
  {
    if fields == [] then None
    else if fields[0].key == key then Some(fields[0].value)
    else Lookup(fields[1..], key)
  }

  function Keys(fields: seq<Field>): set<string> {
    if fields == [] then {} else {fields[0].key} + Keys(fields[1..])
  }

  /** `ObjectNode.set`: replaces the value in place, or adds the field at the end. */
  function SetField(fields: seq<Field>, key: string, value: Json): (r: seq<Field>)
    ensures Keys(r) == Keys(fields) + {key}
    ensures Lookup(r, key) == Some(value)
    ensures key !in Keys(fields) ==> r == fields + [Field(key, value)]
  {
    if fields == [] then [Field(key, value)]
    else if fields[0].key == key then [Field(key, value)] + fields[1..]
    else [fields[0]] + SetField(fields[1..], key, value)
  }

  lemma {:induction false} LookupAfterSet(fields: seq<Field>, key: string, value: Json, other: string)
    requires other != key
    ensures Lookup(SetField(fields, key, value), other) == Lookup(fields, other)
  {
    if fields != [] && fields[0].key != key && fields[0].key != other {
      LookupAfterSet(fields[1..], key, value, other);
    }
  }
}
