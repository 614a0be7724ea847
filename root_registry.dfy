/**
 * The earlier SchemaRegistry class of the top-level schema-registry.js: no options, no
 * validation, and the by-id cache lookup written inline in `encodeById`.
 */
module RootSchemaRegistry {
  import opened Js
  import opened Avro
  import opened Cache
  import opened Wire
  import opened Http
  import opened Resolution
  import Encode
  import SrcSchemaRegistry

  /** `getMessageEncoded`: compile and serialise, with no validation step. */
  function PlainEncoded(codec: Codec, schema: Value, message: Value): Result<seq<byte>>
  {
    match codec.forSchema(schema)
    case Err(f) => Err(f)
    case Ok(t) => codec.toBuffer(t, message)
  }

  /**
   * The earlier encoding is the later one with its default options, and encode.js's with
   * validation switched off: the three agree on every schema and message.
   */
  lemma PlainEncodedAgrees(codec: Codec, json: JsonLib, schema: Value, message: Value)
    ensures PlainEncoded(codec, schema, message)
            == SrcSchemaRegistry.MessageEncoded(codec, schema, message, SrcSchemaRegistry.DefaultOptions.validateEncodedMessages)
    ensures PlainEncoded(codec, schema, message) == Encode.EncodeSpec(codec, json, schema, message, false)
  {
  }

  /**
   * Encoding by id in the earlier class gives the same frame, cache and call count as the later
   * class with default options.
   */
  lemma EncodeByIdAgrees(s: State, key: Value -> string, fetch: Value -> Result<Value>, codec: Codec,
                         schemaId: Value, message: Value)
    ensures ById(s, key, fetch, schemaId, sc => PlainEncoded(codec, sc, message))
            == ById(s, key, fetch, schemaId,
                    sc => SrcSchemaRegistry.MessageEncoded(codec, sc, message, SrcSchemaRegistry.DefaultOptions.validateEncodedMessages))
  {
  }

  class SchemaRegistry {
    const codec: Codec
    const connection: Connection
    const cache: SchemaCache

    /** The constructor takes only the URL; the connection is built as in the later class. */
    constructor (json: JsonLib, codec: Codec, sections: SrcSchemaRegistry.UrlSections)
      ensures this.codec == codec
      ensures connection == SrcSchemaRegistry.ConnectionOf(sections)
      ensures fresh(cache) && cache.key == json.stringify && cache.Contents() == Empty
    {
      this.codec := codec;
      connection := SrcSchemaRegistry.ConnectionOf(sections);
      cache := new SchemaCache(json.stringify);
    }

    method GetStandardMessage(schemaId: Value, encodedMessage: seq<byte>, version: int) returns (r: Result<seq<byte>>)
      ensures r == Frame(schemaId, encodedMessage, version)
    {
      r := GetStandard(schemaId, encodedMessage, version);
    }

    method GetMessageEncoded(schema: Value, message: Value) returns (r: Result<seq<byte>>)
      ensures r == PlainEncoded(codec, schema, message)
    {
      var avroType := codec.forSchema(schema);
      if avroType.Err? {
        return Err(avroType.failure);
      }
      r := codec.toBuffer(avroType.value, message);
    }

    /** `encodeBySchema(type, topic, schema, message)`: push in the declared order on a miss. */
    method EncodeBySchema(registry: Registry, kind: string, topic: string, schema: Value, message: Value)
        returns (r: Result<seq<byte>>, ghost calls: nat)
      modifies cache
      ensures Step(r, cache.Contents(), calls)
              == BySchema(old(cache.Contents()), cache.key, registry.push, Encode.PushArgsIntended(topic, kind, schema),
                          schema, PlainEncoded(codec, schema, message))
    {
      var encodedMessage := GetMessageEncoded(schema, message);
      if encodedMessage.Err? {
        return Err(encodedMessage.failure), 0;
      }
      var schemaId;
      schemaId, calls := IdBySchema(cache, registry.push, Encode.PushArgsIntended(topic, kind, schema), schema);
      if schemaId.Err? {
        return Err(schemaId.failure), calls;
      }
      r := GetStandardMessage(schemaId.value, encodedMessage.value, 0);
    }

    /** `encodeById({schemaId, message})`: the cache lookup and fetch are inline here. */
    method EncodeById(registry: Registry, schemaId: Value, message: Value)
        returns (r: Result<seq<byte>>, ghost calls: nat)
      modifies cache
      ensures Step(r, cache.Contents(), calls)
              == ById(old(cache.Contents()), cache.key, registry.fetch, schemaId, sc => PlainEncoded(codec, sc, message))
    {
      var schema;
      schema, calls := SchemaById(cache, registry.fetch, schemaId);
      if schema.Err? {
        return Err(schema.failure), calls;
      }
      var encodedMessage := GetMessageEncoded(schema.value, message);
      if encodedMessage.Err? {
        return Err(encodedMessage.failure), calls;
      }
      r := GetStandardMessage(schemaId, encodedMessage.value, 0);
    }

    /** `encodeMessage({topic, schema, message})`: the value subject. */
    method EncodeMessage(registry: Registry, topic: string, schema: Value, message: Value)
        returns (r: Result<seq<byte>>, ghost calls: nat)
      modifies cache
      ensures Step(r, cache.Contents(), calls)
              == BySchema(old(cache.Contents()), cache.key, registry.push, Encode.PushArgsIntended(topic, "value", schema),
                          schema, PlainEncoded(codec, schema, message))
    {
      r, calls := EncodeBySchema(registry, "value", topic, schema, message);
    }

    /** `encodeKey({topic, schema, message})`: the key subject. */
    method EncodeKey(registry: Registry, topic: string, schema: Value, message: Value)
        returns (r: Result<seq<byte>>, ghost calls: nat)
      modifies cache
      ensures Step(r, cache.Contents(), calls)
              == BySchema(old(cache.Contents()), cache.key, registry.push, Encode.PushArgsIntended(topic, "key", schema),
                          schema, PlainEncoded(codec, schema, message))
    {
      r, calls := EncodeBySchema(registry, "key", topic, schema, message);
    }
  }
}
