/**
 Controller evidence: a JSON object whose top-level sections are merged by spreading one
 object over another. Object fields keep their order, because the store compares the
 serialized text, and two objects have the same text exactly when they are equal here.
 */
module Evidence {
  import opened Wrappers

  datatype Json =
    | Null
    | Bool(value: bool)
    | Num(number: real)
    | Str(text: string)
    | Arr(items: seq<Json>)
    | Obj(fields: seq<Field>)

  datatype Field = Field(name: string, value: Json)

  /** The fields of an object: no name occurs twice. */
  predicate Distinct(fields: seq<Field>) {
    fields == [] || (Lookup(fields[1..], fields[0].name).None? && Distinct(fields[1..]))
  }

  type Sections = s: seq<Field> | Distinct(s)

  function Lookup(fields: seq<Field>, name: string): Option<Json> {
    if fields == [] then None
    else if fields[0].name == name then Some(fields[0].value)
    else Lookup(fields[1..], name)
  }

  /** `value?.name`: undefined unless the value is an object with that field. */
  function Get(value: Option<Json>, name: string): Option<Json> {
    if value.Some? && value.value.Obj? then Lookup(value.value.fields, name) else None
  }

  predicate Truthy(value: Option<Json>) {
    match value
    case None => false
    case Some(Null) => false
    case Some(Bool(b)) => b
    case Some(Num(n)) => n != 0.0
    case Some(Str(t)) => t != ""
    case Some(_) => true
  }

  /** Assignment to one field: replaced in place, or added at the end. */
  function Put(fields: Sections, name: string, value: Json): (r: Sections)
    ensures forall n :: Lookup(r, n) == if n == name then Some(value) else Lookup(fields, n)
  {
    if fields == [] then
      var single := [Field(name, value)];
      assert single[1..] == [];
      single
    else if fields[0].name == name then [Field(name, value)] + fields[1..]
    else
      var rest := Put(fields[1..], name, value);
      [fields[0]] + rest
  }

  /** `{ ...base, ...delta }`: later assignments win, earlier ones keep their place. */
  function Merge(base: Sections, delta: Sections): (r: Sections)
    ensures forall n :: Lookup(r, n) == if Lookup(delta, n).Some? then Lookup(delta, n) else Lookup(base, n)
    decreases |delta|
  {
    if delta == [] then base
    else Merge(Put(base, delta[0].name, delta[0].value), delta[1..])
  }

  lemma {:induction false} PutStored(fields: Sections, name: string, value: Json)
    requires Lookup(fields, name) == Some(value)
    ensures Put(fields, name, value) == fields
  {
    if fields[0].name == name {
      assert [Field(name, value)] + fields[1..] == fields;
    } else {
      PutStored(fields[1..], name, value);
      assert [fields[0]] + fields[1..] == fields;
    }
  }

  lemma {:induction false} MergeStored(base: Sections, delta: Sections)
    requires forall n | Lookup(delta, n).Some? :: Lookup(base, n) == Lookup(delta, n)
    ensures Merge(base, delta) == base
    decreases |delta|
  {
    if delta != [] {
      var first := delta[0];
      assert Lookup(delta, first.name) == Some(first.value);
      PutStored(base, first.name, first.value);
      forall n | Lookup(delta[1..], n).Some? ensures Lookup(base, n) == Lookup(delta[1..], n) {
        assert n != first.name && Lookup(delta, n) == Lookup(delta[1..], n);
      }
      MergeStored(base, delta[1..]);
    }
  }

  /** Merging the same observation again leaves the very same text. */
  lemma MergeTwice(base: Sections, delta: Sections)
    ensures Merge(Merge(base, delta), delta) == Merge(base, delta)
  {
    MergeStored(Merge(base, delta), delta);
  }
}
