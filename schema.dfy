/** The entities the pipeline passes between its stages: the schema (an ordered object
    shape of key descriptors), the validated record, and the key-to-value-list bindings
    that are partitioned and rendered. */
module EnvSchema {
  import opened Wrappers

  /** What a schema key accepts: any string, or one of an ordered list of literals. */
  datatype Descriptor = Scalar | Enum(members: seq<string>)

  /** One key of the schema's shape. */
  datatype Field = Field(key: string, desc: Descriptor)

  /** The schema's shape, in declaration order. */
  type Schema = seq<Field>

  /** One key of the validated record with the value that passed its descriptor. */
  datatype Entry = Entry(key: string, value: string)

  /** One key of a generated module with every value its type may take. */
  datatype Binding = Binding(key: string, values: seq<string>)

  /** The keys of an object shape are distinct. */
  predicate WellFormed(schema: Schema)
  {
    forall i, j :: 0 <= i < j < |schema| ==> schema[i].key != schema[j].key
  }

  function SchemaKeys(schema: Schema): seq<string>
  {
    seq(|schema|, i requires 0 <= i < |schema| => schema[i].key)
  }

  function EntryKeys(rec: seq<Entry>): (ks: seq<string>)
  {
    seq(|rec|, i requires 0 <= i < |rec| => rec[i].key)
  }

  function BindingKeys(bs: seq<Binding>): (ks: seq<string>)
  {
    seq(|bs|, i requires 0 <= i < |bs| => bs[i].key)
  }

  /** `schema.shape[key]`: the descriptor declared for `key`, `None` for `undefined`. */
  function Lookup(schema: Schema, key: string): (d: Option<Descriptor>)
    ensures d.None? <==> forall i :: 0 <= i < |schema| ==> schema[i].key != key
  {
    if schema == [] then None
    else if schema[0].key == key then Some(schema[0].desc)
    else Lookup(schema[1..], key)
  }

  /** In a well-formed shape, looking a declared key up finds its own descriptor. */
  lemma {:induction false} LookupAt(schema: Schema, i: nat)
    requires WellFormed(schema) && i < |schema|
    ensures Lookup(schema, schema[i].key) == Some(schema[i].desc)
  {
    if i > 0 {
      assert schema[0].key != schema[i].key;
      assert schema[1..][i - 1] == schema[i];
      LookupAt(schema[1..], i - 1);
    }
  }

  lemma LookupAll(schema: Schema)
    requires WellFormed(schema)
    ensures forall i :: 0 <= i < |schema| ==> Lookup(schema, schema[i].key) == Some(schema[i].desc)
  {
    forall i | 0 <= i < |schema| ensures Lookup(schema, schema[i].key) == Some(schema[i].desc) {
      LookupAt(schema, i);
    }
  }
}
