/**
 * The SchemaRegistry class of src/schema-registry.js: a connection built from the parsed URL, a
 * schema cache, options, and the encode/decode operations that combine them.
 */
module SrcSchemaRegistry {
  import opened Js
  import opened Avro
  import opened Cache
  import opened Wire
  import opened Http
  import opened Resolution
  import Decode
  import Encode
  import SchemaErrors

  /** The constructor's options object; `{}` by default, so the flag is `undefined`. */
  datatype Options = Options(validateEncodedMessages: Value)

  const DefaultOptions: Options := Options(Undefined)

  /** The fields of `url.parse(schemaRegistryUrl)` the constructor reads; `protocol` keeps its colon ("https:"). */
  datatype UrlSections = UrlSections(protocol: Value, hostname: Value, port: Value, pathname: Value, auth: Value)

  /** The protocol choice as written: the parsed protocol is compared with "https", without the colon. */
  function ChooseProtocol(protocol: Value): (p: Protocol)
    ensures p == HttpsModule <==> protocol == Str("https")
  {
    if protocol == Str("https") then HttpsModule else HttpModule
  }

  /** The protocol choice the comparison evidently means: `url.parse` reports "https:". */
  function ChooseProtocolIntended(protocol: Value): (p: Protocol)
    ensures p == HttpsModule <==> protocol == Str("https:")
  {
    if protocol == Str("https:") then HttpsModule else HttpModule
  }

  /** As written, an "https://" URL is served over the plain http module. */
  lemma HttpsUrlUsesHttp()
    ensures ChooseProtocol(Str("https:")) == HttpModule
    ensures ChooseProtocol(Str("http:")) == HttpModule
  {
    assert Str("https:") != Str("https") by { assert |"https:"| != |"https"|; }
  }

  /** With the colon, "https://" selects https and "http://" selects http. */
  lemma IntendedProtocolChoice()
    ensures ChooseProtocolIntended(Str("https:")) == HttpsModule
    ensures ChooseProtocolIntended(Str("http:")) == HttpModule
    ensures ChooseProtocolIntended(Null) == HttpModule
  {
    assert Str("http:") != Str("https:") by { assert |"http:"| != |"https:"|; }
  }

  /** The connection the constructor builds: auth is set only when the URL carries a truthy one. */
  function ConnectionOf(sections: UrlSections): (c: Connection)
    ensures c.hostname == sections.hostname && c.port == sections.port && c.path == sections.pathname
    ensures c.protocol == ChooseProtocol(sections.protocol)
    ensures Truthy(sections.auth) ==> c.auth == sections.auth
    ensures !Truthy(sections.auth) ==> c.auth == Undefined
  {
    Connection(ChooseProtocol(sections.protocol), sections.hostname, sections.port, sections.pathname,
               if Truthy(sections.auth) then sections.auth else Undefined)
  }

  /** `_getMessageEncoded`: compile, validate when the option is truthy, serialise. */
  function MessageEncoded(codec: Codec, schema: Value, message: Value, validate: Value): Result<seq<byte>>
  {
    match codec.forSchema(schema)
    case Err(f) => Err(f)
    case Ok(t) =>
      var calls := codec.errorHookCalls(t, message);
      if Truthy(validate) && |calls| > 0 then Err(Validation(SchemaErrors.New(Violations(calls))))
      else codec.toBuffer(t, message)
  }

  /**
   * With validation on, a message the hook reports on is rejected with every report, in order,
   * under the constant message; with it off (the default) the codec decides alone.
   */
  lemma MessageEncodedValidation(codec: Codec, schema: Value, message: Value, validate: Value)
    requires codec.forSchema(schema).Ok?
    ensures var t := codec.forSchema(schema).value;
            var calls := codec.errorHookCalls(t, message);
            var r := MessageEncoded(codec, schema, message, validate);
            && (!Truthy(validate) || |calls| == 0 ==> r == codec.toBuffer(t, message))
            && (Truthy(validate) && |calls| > 0 ==>
                  && r.Err? && r.failure.Validation?
                  && r.failure.error.message == SchemaErrors.Message
                  && |r.failure.error.validationErrors| == |calls|
                  && forall i :: 0 <= i < |calls| ==> r.failure.error.validationErrors[i] == ToViolation(calls[i]))
  {
  }

  /** The default options never validate. */
  lemma DefaultOptionsSkipValidation(codec: Codec, schema: Value, message: Value)
    ensures MessageEncoded(codec, schema, message, DefaultOptions.validateEncodedMessages)
            == match codec.forSchema(schema)
               case Err(f) => Err(f)
               case Ok(t) => codec.toBuffer(t, message)
  {
  }

  class SchemaRegistry {
    const json: JsonLib
    const codec: Codec
    const connection: Connection
    const cache: SchemaCache
    const options: Options

    constructor (json: JsonLib, codec: Codec, sections: UrlSections, options: Options)
      ensures this.json == json && this.codec == codec && this.options == options
      ensures connection == ConnectionOf(sections)
      ensures fresh(cache) && cache.key == json.stringify && cache.Contents() == Empty
    {
      this.json := json;
      this.codec := codec;
      connection := ConnectionOf(sections);
      cache := new SchemaCache(json.stringify);
      this.options := options;
    }

    method GetStandardMessage(schemaId: Value, encodedMessage: seq<byte>, version: int) returns (r: Result<seq<byte>>)
      ensures r == Frame(schemaId, encodedMessage, version)
    {
      r := GetStandard(schemaId, encodedMessage, version);
    }

    method GetMessageEncoded(schema: Value, message: Value) returns (r: Result<seq<byte>>)
      ensures r == MessageEncoded(codec, schema, message, options.validateEncodedMessages)
    {
      var avroType := codec.forSchema(schema);
      if avroType.Err? {
        return Err(avroType.failure);
      }
      if Truthy(options.validateEncodedMessages) {
        var schemaErrors := CollectViolations(codec.errorHookCalls(avroType.value, message));
        if |schemaErrors| > 0 {
          assert schemaErrors == Violations(codec.errorHookCalls(avroType.value, message));
          return Err(Validation(SchemaErrors.New(schemaErrors)));
        }
      }
      r := codec.toBuffer(avroType.value, message);
    }

    method GetSchema(registry: Registry, schemaId: Value) returns (r: Result<Value>, ghost calls: nat)
      modifies cache
      ensures Step(r, cache.Contents(), calls) == ResolveSchema(old(cache.Contents()), cache.key, registry.fetch, schemaId)
    {
      r, calls := SchemaById(cache, registry.fetch, schemaId);
    }

    method GetMessageDecoded(registry: Registry, message: seq<byte>, offset: int)
        returns (r: Result<Value>, ghost calls: nat)
      modifies cache
      ensures Step(r, cache.Contents(), calls)
              == Decode.DecodeSpec(old(cache.Contents()), cache.key, registry.fetch, codec, message, offset)
    {
      var schemaId := ParseHeader(message);
      if schemaId.Err? {
        return Err(schemaId.failure), 0;
      }
      var schema;
      schema, calls := GetSchema(registry, Num(schemaId.value));
      if schema.Err? {
        return Err(schema.failure), calls;
      }
      var avroType := codec.forSchema(schema.value);
      if avroType.Err? {
        return Err(avroType.failure), calls;
      }
      r := codec.decode(avroType.value, message, offset);
    }

    /** `_encodeBySchema`: encode, resolve the id (pushing in the declared argument order), frame. */
    method EncodeBySchema(registry: Registry, kind: string, topic: string, schema: Value, message: Value)
        returns (r: Result<seq<byte>>, ghost calls: nat)
      modifies cache
      ensures Step(r, cache.Contents(), calls)
              == BySchema(old(cache.Contents()), cache.key, registry.push, Encode.PushArgsIntended(topic, kind, schema),
                          schema, MessageEncoded(codec, schema, message, options.validateEncodedMessages))
    {
      var encodedMessage := GetMessageEncoded(schema, message);
      if encodedMessage.Err? {
        return Err(encodedMessage.failure), 0;
      }
      var schemaId;
      schemaId, calls := IdBySchema(cache, registry.push, Encode.PushArgsIntended(topic, kind, schema), schema);
      if schemaId.Err? {
        return Err(schemaId.failure), calls;
      }
      r := GetStandardMessage(schemaId.value, encodedMessage.value, 0);
    }

    method EncodeById(registry: Registry, schemaId: Value, message: Value)
        returns (r: Result<seq<byte>>, ghost calls: nat)
      modifies cache
      ensures Step(r, cache.Contents(), calls)
              == ById(old(cache.Contents()), cache.key, registry.fetch, schemaId,
                      sc => MessageEncoded(codec, sc, message, options.validateEncodedMessages))
    {
      var schema;
      schema, calls := GetSchema(registry, schemaId);
      if schema.Err? {
        return Err(schema.failure), calls;
      }
      var encodedMessage := GetMessageEncoded(schema.value, message);
      if encodedMessage.Err? {
        return Err(encodedMessage.failure), calls;
      }
      r := GetStandardMessage(schemaId, encodedMessage.value, 0);
    }

    /** `encodeMessage(topic, schema, message)`: the value subject "{topic}-value". */
    method EncodeMessage(registry: Registry, topic: string, schema: Value, message: Value)
        returns (r: Result<seq<byte>>, ghost calls: nat)
      modifies cache
      ensures Step(r, cache.Contents(), calls)
              == BySchema(old(cache.Contents()), cache.key, registry.push, Encode.PushArgsIntended(topic, "value", schema),
                          schema, MessageEncoded(codec, schema, message, options.validateEncodedMessages))
    {
      r, calls := EncodeBySchema(registry, "value", topic, schema, message);
    }

    /** `encodeKey(topic, schema, key)`: the key subject "{topic}-key". */
    method EncodeKey(registry: Registry, topic: string, schema: Value, key: Value)
        returns (r: Result<seq<byte>>, ghost calls: nat)
      modifies cache
      ensures Step(r, cache.Contents(), calls)
              == BySchema(old(cache.Contents()), cache.key, registry.push, Encode.PushArgsIntended(topic, "key", schema),
                          schema, MessageEncoded(codec, schema, key, options.validateEncodedMessages))
    {
      r, calls := EncodeBySchema(registry, "key", topic, schema, key);
    }

    /** `decodeMessage(message)`: decode with the default payload offset. */
    method DecodeMessage(registry: Registry, message: seq<byte>) returns (r: Result<Value>, ghost calls: nat)
      modifies cache
      ensures Step(r, cache.Contents(), calls)
              == Decode.DecodeSpec(old(cache.Contents()), cache.key, registry.fetch, codec, message, Decode.DefaultOffset)
    {
      r, calls := GetMessageDecoded(registry, message, Decode.DefaultOffset);
    }
  }
}
