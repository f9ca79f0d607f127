/** The `reduce` of `withTypedEnv` (src/index.ts:55-66): each validated entry is given its
    value list and added to `server`, and to `client` when its key is public. Objects are
    built by spreading, so both are ordered key-to-list bindings. */
module Partitioner {
  import opened Wrappers
  import opened EnvSchema

  /** Keys with this prefix are safe to expose to the client. */
  const PublicPrefix := "NEXT_PUBLIC_"

  /** The one key without the prefix that is public as well. */
  const AlwaysPublicKey := "NODE_ENV"

  /** `key.startsWith("NEXT_PUBLIC_") || key === "NODE_ENV"`. */
  predicate IsPublic(key: string)
  {
    PublicPrefix <= key || key == AlwaysPublicKey
  }

  /** The accumulator of the `reduce`. */
  datatype Partition = Partition(client: seq<Binding>, server: seq<Binding>)

  /** The value list of an entry (src/index.ts:57-59): an enumeration key gets every
      declared member, any other key the singleton of its value. */
  function ValuesFor(schema: Schema, e: Entry): seq<string>
  {
    match Lookup(schema, e.key)
    case Some(Enum(members)) => members
    case _ => [e.value]
  }

  /** `{ ...obj, [key]: values }`: an existing key keeps its place and gets the new list;
      a new key goes at the end. */
  function Put(bs: seq<Binding>, key: string, values: seq<string>): (r: seq<Binding>)
    ensures key !in BindingKeys(bs) ==> r == bs + [Binding(key, values)]
    ensures key in BindingKeys(bs) ==> |r| == |bs| && BindingKeys(r) == BindingKeys(bs)
    ensures forall j :: 0 <= j < |bs| && bs[j].key != key ==> r[j] == bs[j]
    ensures Binding(key, values) in r
  {
    if bs == [] then [Binding(key, values)]
    else
      assert BindingKeys(bs) == [bs[0].key] + BindingKeys(bs[1..]);
      if bs[0].key == key then [Binding(key, values)] + bs[1..]
      else [bs[0]] + Put(bs[1..], key, values)
  }

  /** One step of the `reduce`. */
  function Step(schema: Schema, acc: Partition, e: Entry): Partition
  {
    var values := ValuesFor(schema, e);
    Partition(if IsPublic(e.key) then Put(acc.client, e.key, values) else acc.client,
              Put(acc.server, e.key, values))
  }

  /** `Object.entries(rec).reduce(step, { client: {}, server: {} })`. */
  function PartitionRecord(schema: Schema, rec: seq<Entry>): Partition
  {
    if rec == [] then Partition([], [])
    else Step(schema, PartitionRecord(schema, rec[..|rec| - 1]), rec[|rec| - 1])
  }

  /** The reference definition of the client view: the public bindings, in order. */
  function PublicOnly(bs: seq<Binding>): seq<Binding>
  {
    if bs == [] then []
    else (if IsPublic(bs[0].key) then [bs[0]] else []) + PublicOnly(bs[1..])
  }

  /** A binding is in the public view exactly when it is in the list and its key is public. */
  lemma {:induction false} PublicOnlyMembers(bs: seq<Binding>, b: Binding)
    ensures b in PublicOnly(bs) <==> b in bs && IsPublic(b.key)
  {
    if bs != [] {
      PublicOnlyMembers(bs[1..], b);
      assert bs == [bs[0]] + bs[1..];
    }
  }

  /** The public view keeps relative order: it distributes over concatenation. */
  lemma {:induction false} PublicOnlyConcat(a: seq<Binding>, b: seq<Binding>)
    ensures PublicOnly(a + b) == PublicOnly(a) + PublicOnly(b)
  {
    if a != [] {
      assert (a + b)[1..] == a[1..] + b;
      PublicOnlyConcat(a[1..], b);
    } else {
      assert a + b == b;
    }
  }

  lemma PublicOnlyCons(b: Binding, rest: seq<Binding>)
    ensures PublicOnly([b] + rest) == (if IsPublic(b.key) then [b] else []) + PublicOnly(rest)
  {
    assert ([b] + rest)[1..] == rest;
  }

  lemma PutCons(b: Binding, rest: seq<Binding>, key: string, values: seq<string>)
    ensures Put([b] + rest, key, values)
         == if b.key == key then [Binding(key, values)] + rest else [b] + Put(rest, key, values)
  {
    assert ([b] + rest)[1..] == rest;
  }

  /** Spreading a key into an object and then taking the public view is the same as
      spreading it into the public view when the key is public, and a no-op otherwise. */
  lemma {:induction false} PublicOnlyPut(bs: seq<Binding>, key: string, values: seq<string>)
    ensures PublicOnly(Put(bs, key, values))
         == if IsPublic(key) then Put(PublicOnly(bs), key, values) else PublicOnly(bs)
  {
    if bs != [] {
      var b, rest := bs[0], bs[1..];
      assert bs == [b] + rest;
      if b.key == key {
        PublicOnlyPutHere(b, rest, values);
      } else {
        PublicOnlyPut(rest, key, values);
        PublicOnlyPutLater(b, rest, key, values);
      }
    }
  }

  lemma PublicOnlyPutHere(b: Binding, rest: seq<Binding>, values: seq<string>)
    ensures PublicOnly(Put([b] + rest, b.key, values))
         == if IsPublic(b.key) then Put(PublicOnly([b] + rest), b.key, values) else PublicOnly([b] + rest)
  {
    var nb := Binding(b.key, values);
    PutCons(b, rest, b.key, values);
    PublicOnlyCons(b, rest);
    PublicOnlyCons(nb, rest);
    if IsPublic(b.key) {
      PutCons(b, PublicOnly(rest), b.key, values);
    }
  }

  lemma PublicOnlyPutLater(b: Binding, rest: seq<Binding>, key: string, values: seq<string>)
    requires b.key != key
    requires PublicOnly(Put(rest, key, values))
          == if IsPublic(key) then Put(PublicOnly(rest), key, values) else PublicOnly(rest)
    ensures PublicOnly(Put([b] + rest, key, values))
         == if IsPublic(key) then Put(PublicOnly([b] + rest), key, values) else PublicOnly([b] + rest)
  {
    PutCons(b, rest, key, values);
    PublicOnlyCons(b, rest);
    PublicOnlyCons(b, Put(rest, key, values));
    if IsPublic(b.key) {
      if IsPublic(key) {
        PutCons(b, PublicOnly(rest), key, values);
      }
    } else {
      assert PublicOnly([b] + rest) == PublicOnly(rest);
      assert PublicOnly([b] + Put(rest, key, values)) == PublicOnly(Put(rest, key, values));
    }
  }

  /** The client object is exactly the public part of the server object, in the same
      order and with the same value lists. */
  lemma {:induction false} ClientIsPublicServer(schema: Schema, rec: seq<Entry>)
    ensures PartitionRecord(schema, rec).client == PublicOnly(PartitionRecord(schema, rec).server)
  {
    if rec != [] {
      var e := rec[|rec| - 1];
      ClientIsPublicServer(schema, rec[..|rec| - 1]);
      PublicOnlyPut(PartitionRecord(schema, rec[..|rec| - 1]).server, e.key, ValuesFor(schema, e));
    }
  }

  /** Every client binding is a server binding; a server key is a client key exactly when
      it is public. */
  lemma ClientSubsetOfServer(schema: Schema, rec: seq<Entry>, b: Binding)
    ensures b in PartitionRecord(schema, rec).client <==>
              b in PartitionRecord(schema, rec).server && IsPublic(b.key)
  {
    ClientIsPublicServer(schema, rec);
    PublicOnlyMembers(PartitionRecord(schema, rec).server, b);
  }

  /** Each entry paired with its value list, in entry order. */
  function RecordBindings(schema: Schema, rec: seq<Entry>): seq<Binding>
  {
    seq(|rec|, i requires 0 <= i < |rec| => Binding(rec[i].key, ValuesFor(schema, rec[i])))
  }

  /** With distinct keys (as in any object), the server object has one binding per entry,
      in entry order, each with the entry's value list. */
  lemma {:induction false} ServerFollowsRecord(schema: Schema, rec: seq<Entry>)
    requires forall i, j :: 0 <= i < j < |rec| ==> rec[i].key != rec[j].key
    ensures PartitionRecord(schema, rec).server == RecordBindings(schema, rec)
  {
    if rec != [] {
      DistinctInit(rec, rec[..|rec| - 1]);
      ServerFollowsRecord(schema, rec[..|rec| - 1]);
      ServerStep(schema, rec);
    }
  }

  /** Dropping the last entry keeps the keys distinct, and the last key is not among the rest. */
  lemma DistinctInit(rec: seq<Entry>, init: seq<Entry>)
    requires |rec| > 0 && init == rec[..|rec| - 1]
    requires forall i, j :: 0 <= i < j < |rec| ==> rec[i].key != rec[j].key
    ensures forall i, j :: 0 <= i < j < |init| ==> init[i].key != init[j].key
    ensures rec[|rec| - 1].key !in EntryKeys(init)
  {
  }

  /** One step of the induction: a fresh key is appended to `server`. */
  lemma ServerStep(schema: Schema, rec: seq<Entry>)
    requires |rec| > 0
    requires rec[|rec| - 1].key !in EntryKeys(rec[..|rec| - 1])
    requires PartitionRecord(schema, rec[..|rec| - 1]).server == RecordBindings(schema, rec[..|rec| - 1])
    ensures PartitionRecord(schema, rec).server == RecordBindings(schema, rec)
  {
    var init, last := rec[..|rec| - 1], rec[|rec| - 1];
    var before := PartitionRecord(schema, init).server;
    var b := Binding(last.key, ValuesFor(schema, last));
    assert BindingKeys(before) == EntryKeys(init);
    assert Put(before, last.key, b.values) == before + [b];
    RecordBindingsLast(schema, rec);
  }

  /** `RecordBindings` of a non-empty record ends with its last entry's binding. */
  lemma RecordBindingsLast(schema: Schema, rec: seq<Entry>)
    requires |rec| > 0
    ensures RecordBindings(schema, rec) ==
              RecordBindings(schema, rec[..|rec| - 1]) + [Binding(rec[|rec| - 1].key, ValuesFor(schema, rec[|rec| - 1]))]
  {
  }

  /** A key such as "SECRET_KEY" never reaches the client object. */
  lemma PrivateKeyNotInClient(schema: Schema, rec: seq<Entry>, key: string)
    requires !IsPublic(key)
    ensures key !in BindingKeys(PartitionRecord(schema, rec).client)
  {
    var client := PartitionRecord(schema, rec).client;
    if key in BindingKeys(client) {
      var k :| 0 <= k < |client| && client[k].key == key;
      ClientSubsetOfServer(schema, rec, client[k]);
    }
  }
}
