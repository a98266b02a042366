/** The values of the JSON library as far as lists and metadata are made of them. Objects keep
    the order in which their keys were first set. */
module Json {
  import opened Common

  datatype Json = JNull | JString(text: string) | JNumber(value: int) | JArray(items: seq<Json>) | JObject(fields: seq<Field>)

  datatype Field = Field(key: string, value: Json)

  function FieldAt(fields: seq<Field>, key: string): (i: int)
    ensures -1 <= i < |fields|
    ensures i >= 0 ==> fields[i].key == key
    ensures i == -1 ==> forall j | 0 <= j < |fields| :: fields[j].key != key
  {
    if fields == [] then -1
    else if fields[|fields| - 1].key == key then |fields| - 1
    else FieldAt(fields[..|fields| - 1], key)
  }

  // json_object_set: a known key keeps its place.
  function SetField(fields: seq<Field>, key: string, value: Json): seq<Field> {
    var i := FieldAt(fields, key);
    if i >= 0 then fields[i := Field(key, value)] else fields + [Field(key, value)]
  }

  // json_object_del
  function DeleteField(fields: seq<Field>, key: string): seq<Field> {
    var i := FieldAt(fields, key);
    if i >= 0 then fields[..i] + fields[i + 1..] else fields
  }

  predicate DistinctFields(fields: seq<Field>) {
    forall i, j | 0 <= i < j < |fields| :: fields[i].key != fields[j].key
  }

  lemma SetNew(fields: seq<Field>, key: string, value: Json)
    requires forall i | 0 <= i < |fields| :: fields[i].key != key
    ensures SetField(fields, key, value) == fields + [Field(key, value)]
  {
  }

  function Value(fields: seq<Field>, key: string): Option<Json> {
    var i := FieldAt(fields, key);
    if i >= 0 then Some(fields[i].value) else None
  }

  lemma {:induction false} FieldUnique(fields: seq<Field>, key: string, i: nat)
    requires DistinctFields(fields) && i < |fields| && fields[i].key == key
    ensures FieldAt(fields, key) == i
  {
  }

  lemma ValueSet(fields: seq<Field>, key: string, value: Json, other: string)
    requires DistinctFields(fields)
    ensures DistinctFields(SetField(fields, key, value))
    ensures Value(SetField(fields, key, value), other) == if other == key then Some(value) else Value(fields, other)
  {
    var t := SetField(fields, key, value);
    var i := FieldAt(fields, other);
    if other == key {
      FieldUnique(t, key, if i >= 0 then i else |fields|);
    } else if i >= 0 {
      FieldUnique(t, other, i);
    }
  }

  lemma ValueDeleted(fields: seq<Field>, key: string, other: string)
    requires DistinctFields(fields)
    ensures DistinctFields(DeleteField(fields, key))
    ensures Value(DeleteField(fields, key), other) == if other == key then None else Value(fields, other)
  {
    var k := FieldAt(fields, key);
    var t := DeleteField(fields, key);
    if k >= 0 {
      assert forall j | 0 <= j < |t| :: t[j] == fields[if j < k then j else j + 1];
      var i := FieldAt(fields, other);
      if i >= 0 && i != k {
        FieldUnique(t, other, if i < k then i else i - 1);
      }
    }
  }
}
