/**
 * The schema cache: id -> schema and canonical key -> id. The key of a schema is its
 * `JSON.stringify` text, an uninterpreted function here (it depends on field order, so two
 * structurally equal schemas need not share a key).
 */
module Cache {
  import opened Js

  /** The contents of both maps. */
  datatype State = State(byId: map<Value, Value>, bySchema: map<string, Value>)

  const Empty: State := State(map[], map[])

  /** `setSchema(id, schema)`: both entries are overwritten; nothing is removed. */
  function Put(s: State, key: Value -> string, id: Value, schema: Value): State
  {
    State(s.byId[id := schema], s.bySchema[key(schema) := id])
  }

  function SchemaOf(s: State, id: Value): Option<Value>
  {
    if id in s.byId then Some(s.byId[id]) else None
  }

  function IdOf(s: State, key: Value -> string, schema: Value): Option<Value>
  {
    if key(schema) in s.bySchema then Some(s.bySchema[key(schema)]) else None
  }

  /** The two maps are inverse to each other: the bijection a cache is meant to keep. */
  ghost predicate Consistent(s: State, key: Value -> string)
  {
    && (forall id :: id in s.byId ==> IdOf(s, key, s.byId[id]) == Some(id))
    && (forall k :: k in s.bySchema ==> s.bySchema[k] in s.byId && key(s.byId[s.bySchema[k]]) == k)
  }

  class SchemaCache {
    /** `JSON.stringify`, used as the key of the by-schema map. */
    const key: Value -> string
    var byId: map<Value, Value>
    var bySchema: map<string, Value>

    function Contents(): State
      reads this
    {
      State(byId, bySchema)
    }

    constructor (key: Value -> string)
      ensures this.key == key && Contents() == Empty
    {
      this.key := key;
      byId := map[];
      bySchema := map[];
    }

    method SetSchema(id: Value, schema: Value) returns (r: Value)
      modifies this
      ensures r == id
      ensures Contents() == Put(old(Contents()), key, id, schema)
    {
      byId := byId[id := schema];
      var strSchema := key(schema);
      bySchema := bySchema[strSchema := id];
      r := id;
    }

    function GetSchemaById(id: Value): (r: Option<Value>)
      reads this
      ensures r.Some? <==> id in byId
      ensures r.Some? ==> r.value == byId[id]
    {
      if id in byId then Some(byId[id]) else None
    }

    function GetIdBySchema(schema: Value): (r: Option<Value>)
      reads this
      ensures r.Some? <==> key(schema) in bySchema
      ensures r.Some? ==> r.value == bySchema[key(schema)]
    {
      var strSchema := key(schema);
      if strSchema in bySchema then Some(bySchema[strSchema]) else None
    }
  }

  /** A fresh cache answers "absent" to every query. */
  lemma EmptyKnowsNothing(key: Value -> string, id: Value, schema: Value)
    ensures SchemaOf(Empty, id) == None && IdOf(Empty, key, schema) == None
  {
  }

  /**
   * After `setSchema(id, schema)` the id yields the schema, every schema with the same key yields
   * the id, and every other entry is as before.
   */
  lemma PutThenLookup(s: State, key: Value -> string, id: Value, schema: Value, otherId: Value, other: Value)
    ensures SchemaOf(Put(s, key, id, schema), id) == Some(schema)
    ensures key(other) == key(schema) ==> IdOf(Put(s, key, id, schema), key, other) == Some(id)
    ensures otherId != id ==> SchemaOf(Put(s, key, id, schema), otherId) == SchemaOf(s, otherId)
    ensures key(other) != key(schema) ==> IdOf(Put(s, key, id, schema), key, other) == IdOf(s, key, other)
  {
  }

  /** Storing the same pair twice leaves the state of storing it once. */
  lemma PutIdempotent(s: State, key: Value -> string, id: Value, schema: Value)
    ensures Put(Put(s, key, id, schema), key, id, schema) == Put(s, key, id, schema)
  {
  }

  /** Storing a pair whose id and key are both new keeps the maps inverse to each other. */
  lemma PutFreshKeepsConsistent(s: State, key: Value -> string, id: Value, schema: Value)
    requires Consistent(s, key)
    requires id !in s.byId && key(schema) !in s.bySchema
    ensures Consistent(Put(s, key, id, schema), key)
  {
    var t := Put(s, key, id, schema);
    forall i | i in t.byId
      ensures IdOf(t, key, t.byId[i]) == Some(i)
    {
      if i != id {
        assert IdOf(s, key, s.byId[i]) == Some(i);
        assert key(s.byId[i]) != key(schema);
      }
    }
    forall k | k in t.bySchema
      ensures t.bySchema[k] in t.byId && key(t.byId[t.bySchema[k]]) == k
    {
      if k != key(schema) {
        assert s.bySchema[k] in s.byId && key(s.byId[s.bySchema[k]]) == k;
        assert s.bySchema[k] != id;
      }
    }
  }

  /**
   * `setSchema` does not keep the maps inverse: after storing A and then B under the same id, the
   * key of A still leads to that id, whose schema is now B.
   */
  lemma OverwriteBreaksBijection(key: Value -> string, id: Value, a: Value, b: Value)
    requires key(a) != key(b)
    ensures var s := Put(Put(Empty, key, id, a), key, id, b);
            && IdOf(s, key, a) == Some(id)
            && SchemaOf(s, id) == Some(b)
            && !Consistent(s, key)
  {
    var s := Put(Put(Empty, key, id, a), key, id, b);
    assert key(a) in s.bySchema && s.bySchema[key(a)] == id;
    assert key(s.byId[s.bySchema[key(a)]]) != key(a);
  }
}
