/**
 * The resolution pattern every encode and decode path follows: look the cache up, call the
 * registry on a miss, store the pair on success, and leave the cache alone on failure. A miss is
 * decided by JavaScript truthiness (`if (!schema)`, `if (!schemaId)`).
 */
module Resolution {
  import opened Js
  import opened Cache
  import opened Wire
  import SchemaPush

  /** The registry as the orchestration sees it: `fetchSchema` by id and `pushSchema`, each answering or failing. */
  datatype Registry = Registry(fetch: Value -> Result<Value>, push: SchemaPush.PushArgs -> Result<Value>)

  /** The outcome of one operation: its result, the cache afterwards, and how many registry calls it made. */
  datatype Step<T> = Step(result: Result<T>, after: State, calls: nat)

  predicate SchemaHit(s: State, id: Value)
  {
    SchemaOf(s, id).Some? && Truthy(SchemaOf(s, id).value)
  }

  predicate IdHit(s: State, key: Value -> string, schema: Value)
  {
    IdOf(s, key, schema).Some? && Truthy(IdOf(s, key, schema).value)
  }

  /** Id to schema: cache, else fetch and store. */
  function ResolveSchema(s: State, key: Value -> string, fetch: Value -> Result<Value>, id: Value): Step<Value>
  {
    if SchemaHit(s, id) then Step(Ok(SchemaOf(s, id).value), s, 0)
    else match fetch(id)
      case Err(f) => Step(Err(f), s, 1)
      case Ok(schema) => Step(Ok(schema), Put(s, key, id, schema), 1)
  }

  /** Schema to id: cache, else push (with the arguments the caller passes) and store. */
  function ResolveId(s: State, key: Value -> string, push: SchemaPush.PushArgs -> Result<Value>,
                     args: SchemaPush.PushArgs, schema: Value): Step<Value>
  {
    if IdHit(s, key, schema) then Step(Ok(IdOf(s, key, schema).value), s, 0)
    else match push(args)
      case Err(f) => Step(Err(f), s, 1)
      case Ok(id) => Step(Ok(id), Put(s, key, id, schema), 1)
  }

  method SchemaById(cache: SchemaCache, fetch: Value -> Result<Value>, schemaId: Value)
      returns (r: Result<Value>, ghost calls: nat)
    modifies cache
    ensures Step(r, cache.Contents(), calls) == ResolveSchema(old(cache.Contents()), cache.key, fetch, schemaId)
  {
    var schema := cache.GetSchemaById(schemaId);
    if schema.None? || !Truthy(schema.value) {
      calls := 1;
      var fetched := fetch(schemaId);
      if fetched.Err? {
        return Err(fetched.failure), calls;
      }
      var _ := cache.SetSchema(schemaId, fetched.value);
      r := Ok(fetched.value);
    } else {
      calls := 0;
      r := Ok(schema.value);
    }
  }

  method IdBySchema(cache: SchemaCache, push: SchemaPush.PushArgs -> Result<Value>,
                    args: SchemaPush.PushArgs, schema: Value)
      returns (r: Result<Value>, ghost calls: nat)
    modifies cache
    ensures Step(r, cache.Contents(), calls) == ResolveId(old(cache.Contents()), cache.key, push, args, schema)
  {
    var schemaId := cache.GetIdBySchema(schema);
    if schemaId.None? || !Truthy(schemaId.value) {
      calls := 1;
      var pushed := push(args);
      if pushed.Err? {
        return Err(pushed.failure), calls;
      }
      var _ := cache.SetSchema(pushed.value, schema);
      r := Ok(pushed.value);
    } else {
      calls := 0;
      r := Ok(schemaId.value);
    }
  }

  /** Encode by id: resolve the schema, encode with it, frame with the id the caller gave. */
  function ById(s: State, key: Value -> string, fetch: Value -> Result<Value>, schemaId: Value,
                encode: Value -> Result<seq<byte>>): Step<seq<byte>>
  {
    var st := ResolveSchema(s, key, fetch, schemaId);
    match st.result
    case Err(f) => Step(Err(f), st.after, st.calls)
    case Ok(schema) =>
      match encode(schema)
      case Err(f) => Step(Err(f), st.after, st.calls)
      case Ok(payload) => Step(Frame(schemaId, payload, 0), st.after, st.calls)
  }

  /** Encode by schema: encode first, then resolve the id, then frame with it. */
  function BySchema(s: State, key: Value -> string, push: SchemaPush.PushArgs -> Result<Value>,
                    args: SchemaPush.PushArgs, schema: Value, encoded: Result<seq<byte>>): Step<seq<byte>>
  {
    match encoded
    case Err(f) => Step(Err(f), s, 0)
    case Ok(payload) =>
      var st := ResolveId(s, key, push, args, schema);
      match st.result
      case Err(f) => Step(Err(f), st.after, st.calls)
      case Ok(id) => Step(Frame(id, payload, 0), st.after, st.calls)
  }

  /**
   * The resolution contract: a hit makes no call and changes nothing; a miss makes one call; a
   * failed call is passed on and leaves the cache as it was; a successful one stores the pair.
   */
  lemma ResolveSchemaContract(s: State, key: Value -> string, fetch: Value -> Result<Value>, id: Value)
    ensures var st := ResolveSchema(s, key, fetch, id);
      && (SchemaHit(s, id) ==> st == Step(Ok(s.byId[id]), s, 0))
      && (!SchemaHit(s, id) ==> st.calls == 1 && st.result == fetch(id))
      && (!SchemaHit(s, id) && fetch(id).Err? ==> st.after == s)
      && (!SchemaHit(s, id) && fetch(id).Ok? ==> st.after == Put(s, key, id, fetch(id).value))
  {
  }

  lemma ResolveIdContract(s: State, key: Value -> string, push: SchemaPush.PushArgs -> Result<Value>,
                          args: SchemaPush.PushArgs, schema: Value)
    ensures var st := ResolveId(s, key, push, args, schema);
      && (IdHit(s, key, schema) ==> st == Step(Ok(s.bySchema[key(schema)]), s, 0))
      && (!IdHit(s, key, schema) ==> st.calls == 1 && st.result == push(args))
      && (!IdHit(s, key, schema) && push(args).Err? ==> st.after == s)
      && (!IdHit(s, key, schema) && push(args).Ok? ==> st.after == Put(s, key, push(args).value, schema))
  {
  }

  /** Cache short-circuit: once an id has resolved to a truthy schema, resolving it again makes no call. */
  lemma SchemaShortCircuit(s: State, key: Value -> string, fetch: Value -> Result<Value>,
                           fetch2: Value -> Result<Value>, id: Value)
    requires ResolveSchema(s, key, fetch, id).result.Ok?
    requires Truthy(ResolveSchema(s, key, fetch, id).result.value)
    ensures var st := ResolveSchema(s, key, fetch, id);
            ResolveSchema(st.after, key, fetch2, id) == Step(st.result, st.after, 0)
  {
    var st := ResolveSchema(s, key, fetch, id);
    if !SchemaHit(s, id) {
      assert st.after.byId[id] == st.result.value;
    }
  }

  /** Cache short-circuit: once a schema has resolved to a truthy id, resolving it again makes no call. */
  lemma IdShortCircuit(s: State, key: Value -> string, push: SchemaPush.PushArgs -> Result<Value>,
                       push2: SchemaPush.PushArgs -> Result<Value>, args: SchemaPush.PushArgs,
                       args2: SchemaPush.PushArgs, schema: Value)
    requires ResolveId(s, key, push, args, schema).result.Ok?
    requires Truthy(ResolveId(s, key, push, args, schema).result.value)
    ensures var st := ResolveId(s, key, push, args, schema);
            ResolveId(st.after, key, push2, args2, schema) == Step(st.result, st.after, 0)
  {
    var st := ResolveId(s, key, push, args, schema);
    if !IdHit(s, key, schema) {
      assert st.after.bySchema[key(schema)] == st.result.value;
    }
  }

  /** A cached id 0 is falsy, so it counts as a miss: the schema is pushed again on every use. */
  lemma CachedZeroIdIsMiss(s: State, key: Value -> string, push: SchemaPush.PushArgs -> Result<Value>,
                           args: SchemaPush.PushArgs, schema: Value)
    requires IdOf(s, key, schema) == Some(Num(0))
    ensures ResolveId(s, key, push, args, schema).calls == 1
    ensures push(args) == Ok(Num(0)) ==>
              ResolveId(ResolveId(s, key, push, args, schema).after, key, push, args, schema).calls == 1
  {
  }

  /** Header invariant: a successful encode by id is a version-0 frame of that id. */
  lemma ByIdFrame(s: State, key: Value -> string, fetch: Value -> Result<Value>, schemaId: Value,
                  encode: Value -> Result<seq<byte>>)
    requires ById(s, key, fetch, schemaId, encode).result.Ok?
    ensures var f := ById(s, key, fetch, schemaId, encode).result.value;
            && schemaId.Num? && |f| >= HeaderSize && f[0] == 0
            && ParseHeader(f) == Ok(schemaId.n)
  {
    var st := ResolveSchema(s, key, fetch, schemaId);
    var payload := encode(st.result.value).value;
    HeaderRoundTrip(schemaId.n, payload);
  }

  /** Header invariant: a successful encode by schema is a version-0 frame of the resolved id. */
  lemma BySchemaFrame(s: State, key: Value -> string, push: SchemaPush.PushArgs -> Result<Value>,
                      args: SchemaPush.PushArgs, schema: Value, encoded: Result<seq<byte>>)
    requires BySchema(s, key, push, args, schema, encoded).result.Ok?
    ensures var st := ResolveId(s, key, push, args, schema);
            var f := BySchema(s, key, push, args, schema, encoded).result.value;
            && encoded.Ok? && st.result.Ok? && st.result.value.Num?
            && ParseHeader(f) == Ok(st.result.value.n)
            && f[HeaderSize..] == encoded.value
  {
    var st := ResolveId(s, key, push, args, schema);
    HeaderRoundTrip(st.result.value.n, encoded.value);
  }

  /** Encoding comes first: when it fails, no registry call is made and the cache is unchanged. */
  lemma BySchemaEncodeFailureNoCall(s: State, key: Value -> string, push: SchemaPush.PushArgs -> Result<Value>,
                                    args: SchemaPush.PushArgs, schema: Value, f: Failure)
    ensures BySchema(s, key, push, args, schema, Err(f)) == Step(Err(f), s, 0)
  {
  }
}
