/**
 * src/lib/encode.js: encode a message with the codec (validating it first when the registry
 * object asks for it), then frame it by id or by schema, resolving through the cache.
 */
module Encode {
  import opened Js
  import opened Avro
  import opened Cache
  import opened Wire
  import opened Resolution
  import opened Http
  import SchemaPush
  import ValidationErrors

  /**
   * `encodeMessage(schema, message, validate)`: compile the schema, reject a message the
   * validation hook complains about (when asked to), then serialise.
   */
  function EncodeSpec(codec: Codec, json: JsonLib, schema: Value, message: Value, validate: bool): Result<seq<byte>>
  {
    match codec.forSchema(schema)
    case Err(f) => Err(f)
    case Ok(t) =>
      var calls := codec.errorHookCalls(t, message);
      if validate && |calls| > 0 then Err(Validation(ValidationErrors.New(json, Violations(calls))))
      else codec.toBuffer(t, message)
  }

  /** `validateBeforeEncode`: collect every hook report; throw a ValidationError holding all of them, if any. */
  method ValidateBeforeEncode(codec: Codec, json: JsonLib, t: AvroType, message: Value) returns (r: Outcome)
    ensures r.Pass? <==> |codec.errorHookCalls(t, message)| == 0
    ensures r.Fail? ==> r.failure.Validation?
                        && r.failure.error == ValidationErrors.New(json, Violations(codec.errorHookCalls(t, message)))
  {
    var validationErrors := CollectViolations(codec.errorHookCalls(t, message));
    if |validationErrors| > 0 {
      assert validationErrors == Violations(codec.errorHookCalls(t, message));
      return Fail(Validation(ValidationErrors.New(json, validationErrors)));
    }
    return Pass;
  }

  method EncodeMessage(codec: Codec, json: JsonLib, schema: Value, message: Value, validate: bool)
      returns (r: Result<seq<byte>>)
    ensures r == EncodeSpec(codec, json, schema, message, validate)
  {
    var avroType := codec.forSchema(schema);
    if avroType.Err? {
      return Err(avroType.failure);
    }
    if validate {
      var outcome := ValidateBeforeEncode(codec, json, avroType.value, message);
      if outcome.Fail? {
        return Err(outcome.failure);
      }
    }
    r := codec.toBuffer(avroType.value, message);
  }

  /**
   * Validation only ever adds a rejection: when it is off, the result is the codec's; when it is
   * on and the hook reports, the error lists every report in order and serialising is never
   * reached; when it is on and the hook is silent, the result is the same as without it.
   */
  lemma ValidationOnlyRejects(codec: Codec, json: JsonLib, schema: Value, message: Value)
    requires codec.forSchema(schema).Ok?
    ensures var t := codec.forSchema(schema).value;
            var calls := codec.errorHookCalls(t, message);
            && EncodeSpec(codec, json, schema, message, false) == codec.toBuffer(t, message)
            && (|calls| == 0 ==> EncodeSpec(codec, json, schema, message, true) == codec.toBuffer(t, message))
            && (|calls| > 0 ==>
                  && EncodeSpec(codec, json, schema, message, true).Err?
                  && EncodeSpec(codec, json, schema, message, true).failure.Validation?
                  && |EncodeSpec(codec, json, schema, message, true).failure.error.validationErrors| == |calls|
                  && forall i :: 0 <= i < |calls| ==>
                       EncodeSpec(codec, json, schema, message, true).failure.error.validationErrors[i]
                       == ToViolation(calls[i]))
  {
  }

  /** A successful validated encoding is exactly the unvalidated one. */
  lemma ValidatedSuccessIsPlain(codec: Codec, json: JsonLib, schema: Value, message: Value)
    requires EncodeSpec(codec, json, schema, message, true).Ok?
    ensures EncodeSpec(codec, json, schema, message, false) == EncodeSpec(codec, json, schema, message, true)
  {
  }

  /**
   * The arguments `encodeMessageBySchema` hands to `pushSchema(registry, topic, type, schema)`:
   * it passes `topic, schema, type`, so the schema lands in the `type` position and the type in
   * the `schema` position.
   */
  function PushArgsAsCalled(topic: string, kind: string, schema: Value): SchemaPush.PushArgs
  {
    SchemaPush.PushArgs(Str(topic), schema, Str(kind))
  }

  /** The arguments in the declared order, as the registry classes pass them. */
  function PushArgsIntended(topic: string, kind: string, schema: Value): SchemaPush.PushArgs
  {
    SchemaPush.PushArgs(Str(topic), Str(kind), schema)
  }

  /**
   * As called, an object schema registers under the subject "{topic}-[object Object]" and the
   * body carries the type string instead of the schema.
   */
  lemma ArgumentOrderAsCalled(json: JsonLib, conn: Connection, topic: string, kind: string,
                              fields: seq<(string, Value)>)
    ensures var r := SchemaPush.BuildRequest(json, conn, PushArgsAsCalled(topic, kind, Obj(fields)));
            && r.path == ToStr(conn.path) + "subjects/" + topic + "-[object Object]/versions"
            && r.body == SchemaPush.Body(json, Str(kind))
  {
  }

  /** In the declared order the subject is "{topic}-{type}" and the body carries the schema. */
  lemma ArgumentOrderIntended(json: JsonLib, conn: Connection, topic: string, kind: string, schema: Value)
    ensures var r := SchemaPush.BuildRequest(json, conn, PushArgsIntended(topic, kind, schema));
            && r.path == ToStr(conn.path) + "subjects/" + topic + "-" + kind + "/versions"
            && r.body == SchemaPush.Body(json, schema)
  {
  }

  /** `encodeMessageById`: resolve the schema through the cache, encode, frame with the given id. */
  method EncodeMessageById(cache: SchemaCache, fetch: Value -> Result<Value>, codec: Codec, json: JsonLib,
                           validate: bool, schemaId: Value, message: Value)
      returns (r: Result<seq<byte>>, ghost calls: nat)
    modifies cache
    ensures Step(r, cache.Contents(), calls)
            == ById(old(cache.Contents()), cache.key, fetch, schemaId,
                    s => EncodeSpec(codec, json, s, message, validate))
  {
    var schema;
    schema, calls := SchemaById(cache, fetch, schemaId);
    if schema.Err? {
      return Err(schema.failure), calls;
    }
    var encodedMessage := EncodeMessage(codec, json, schema.value, message, validate);
    if encodedMessage.Err? {
      return Err(encodedMessage.failure), calls;
    }
    r := GetStandard(schemaId, encodedMessage.value, 0);
  }

  /**
   * `encodeMessageBySchema`: encode first, then resolve the id through the cache (pushing with the
   * arguments as called), then frame.
   */
  method EncodeMessageBySchema(cache: SchemaCache, push: SchemaPush.PushArgs -> Result<Value>, codec: Codec,
                               json: JsonLib, validate: bool, kind: string, topic: string,
                               schema: Value, message: Value)
      returns (r: Result<seq<byte>>, ghost calls: nat)
    modifies cache
    ensures Step(r, cache.Contents(), calls)
            == BySchema(old(cache.Contents()), cache.key, push, PushArgsAsCalled(topic, kind, schema), schema,
                        EncodeSpec(codec, json, schema, message, validate))
  {
    var encodedMessage := EncodeMessage(codec, json, schema, message, validate);
    if encodedMessage.Err? {
      return Err(encodedMessage.failure), 0;
    }
    var schemaId;
    schemaId, calls := IdBySchema(cache, push, PushArgsAsCalled(topic, kind, schema), schema);
    if schemaId.Err? {
      return Err(schemaId.failure), calls;
    }
    r := GetStandard(schemaId.value, encodedMessage.value, 0);
  }

  /** An invalid message is rejected before the registry is asked anything, and the cache stays as it was. */
  lemma InvalidMessageMakesNoCall(s: State, key: Value -> string, push: SchemaPush.PushArgs -> Result<Value>,
                                  codec: Codec, json: JsonLib, kind: string, topic: string,
                                  schema: Value, message: Value)
    requires codec.forSchema(schema).Ok?
    requires |codec.errorHookCalls(codec.forSchema(schema).value, message)| > 0
    ensures var st := BySchema(s, key, push, PushArgsAsCalled(topic, kind, schema), schema,
                               EncodeSpec(codec, json, schema, message, true));
            && st.calls == 0 && st.after == s
            && st.result.Err? && st.result.failure.Validation?
  {
  }
}
