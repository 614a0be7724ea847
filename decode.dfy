/**
 * src/lib/decode.js: check the magic byte, read the schema id, resolve the schema through the
 * cache, and let the codec decode the payload from the offset.
 */
module Decode {
  import opened Js
  import opened Avro
  import opened Cache
  import opened Wire
  import opened Resolution
  import SchemaPush
  import Encode

  /** The payload offset `decodeMessage` uses when none is given. */
  const DefaultOffset: int := 5

  /** `decodeMessage(registry, message, options, offset)`, with the registry call made through `fetch`. */
  function DecodeSpec(s: State, key: Value -> string, fetch: Value -> Result<Value>, codec: Codec,
                      message: seq<byte>, offset: int): Step<Value>
  {
    match ParseHeader(message)
    case Err(f) => Step(Err(f), s, 0)
    case Ok(n) =>
      var st := ResolveSchema(s, key, fetch, Num(n));
      match st.result
      case Err(f) => Step(Err(f), st.after, st.calls)
      case Ok(schema) =>
        match codec.forSchema(schema)
        case Err(f) => Step(Err(f), st.after, st.calls)
        case Ok(t) => Step(codec.decode(t, message, offset), st.after, st.calls)
  }

  method DecodeMessage(cache: SchemaCache, fetch: Value -> Result<Value>, codec: Codec,
                       message: seq<byte>, offset: int)
      returns (r: Result<Value>, ghost calls: nat)
    modifies cache
    ensures Step(r, cache.Contents(), calls) == DecodeSpec(old(cache.Contents()), cache.key, fetch, codec, message, offset)
  {
    var schemaId := ParseHeader(message);
    if schemaId.Err? {
      return Err(schemaId.failure), 0;
    }
    var schema;
    schema, calls := SchemaById(cache, fetch, Num(schemaId.value));
    if schema.Err? {
      return Err(schema.failure), calls;
    }
    var avroType := codec.forSchema(schema.value);
    if avroType.Err? {
      return Err(avroType.failure), calls;
    }
    r := codec.decode(avroType.value, message, offset);
  }

  /** A message without the leading zero is rejected before the cache or the registry is consulted. */
  lemma MagicByteRejected(s: State, key: Value -> string, fetch: Value -> Result<Value>, codec: Codec,
                          message: seq<byte>, offset: int)
    requires |message| >= 1 && message[0] != 0
    ensures DecodeSpec(s, key, fetch, codec, message, offset) == Step(Err(Error(MagicByteMessage)), s, 0)
  {
  }

  /** A header-only failure of any kind (too short, wrong magic byte) makes no call and changes nothing. */
  lemma BadHeaderMakesNoCall(s: State, key: Value -> string, fetch: Value -> Result<Value>, codec: Codec,
                             message: seq<byte>, offset: int)
    requires |message| < HeaderSize || message[0] != 0
    ensures var st := DecodeSpec(s, key, fetch, codec, message, offset);
            st.result.Err? && st.after == s && st.calls == 0
  {
  }

  /** The codec law the round trip relies on: decoding at offset 5 reads the bytes after the header. */
  ghost predicate ReadsFromOffset(codec: Codec)
  {
    forall t, m :: |m| >= HeaderSize ==> codec.decode(t, m, HeaderSize) == codec.decode(t, m[HeaderSize..], 0)
  }

  /** The codec law the round trip relies on: what `toBuffer` writes, `decode` reads back. */
  ghost predicate RoundTrips(codec: Codec)
  {
    forall t, v :: codec.toBuffer(t, v).Ok? ==> codec.decode(t, codec.toBuffer(t, v).value, 0) == Ok(v)
  }

  /**
   * Encoding by schema and then decoding the frame with the resulting cache gives the message
   * back without another registry call, provided the cache's id entry for the schema (if truthy)
   * points back at the schema.
   */
  lemma EncodeBySchemaThenDecode(s: State, key: Value -> string, push: SchemaPush.PushArgs -> Result<Value>,
                                 fetch: Value -> Result<Value>, args: SchemaPush.PushArgs,
                                 codec: Codec, json: JsonLib, validate: bool, schema: Value, message: Value)
    requires ReadsFromOffset(codec) && RoundTrips(codec)
    requires Truthy(schema)
    requires IdHit(s, key, schema) ==> SchemaOf(s, IdOf(s, key, schema).value) == Some(schema)
    requires BySchema(s, key, push, args, schema, Encode.EncodeSpec(codec, json, schema, message, validate)).result.Ok?
    ensures var st := BySchema(s, key, push, args, schema, Encode.EncodeSpec(codec, json, schema, message, validate));
            DecodeSpec(st.after, key, fetch, codec, st.result.value, DefaultOffset) == Step(Ok(message), st.after, 0)
  {
    var encoded := Encode.EncodeSpec(codec, json, schema, message, validate);
    var st := BySchema(s, key, push, args, schema, encoded);
    var idStep := ResolveId(s, key, push, args, schema);
    var id := idStep.result.value;
    BySchemaFrame(s, key, push, args, schema, encoded);
    var t := codec.forSchema(schema).value;
    assert encoded == codec.toBuffer(t, message);
    assert SchemaOf(st.after, id) == Some(schema);
    var frame := st.result.value;
    assert codec.decode(t, frame, HeaderSize) == codec.decode(t, encoded.value, 0);
  }

  /**
   * Encoding by id and then decoding the frame gives the message back; when the resolved schema is
   * truthy the decode is served from the cache.
   */
  lemma EncodeByIdThenDecode(s: State, key: Value -> string, fetch: Value -> Result<Value>,
                             codec: Codec, json: JsonLib, validate: bool, schemaId: Value, message: Value)
    requires ReadsFromOffset(codec) && RoundTrips(codec)
    requires ById(s, key, fetch, schemaId, sc => Encode.EncodeSpec(codec, json, sc, message, validate)).result.Ok?
    ensures var st := ById(s, key, fetch, schemaId, sc => Encode.EncodeSpec(codec, json, sc, message, validate));
            var dec := DecodeSpec(st.after, key, fetch, codec, st.result.value, DefaultOffset);
            && dec.result == Ok(message)
            && (Truthy(ResolveSchema(s, key, fetch, schemaId).result.value) ==> dec.calls == 0)
  {
    var encode := sc => Encode.EncodeSpec(codec, json, sc, message, validate);
    var st := ById(s, key, fetch, schemaId, encode);
    ByIdFrame(s, key, fetch, schemaId, encode);
    var rs := ResolveSchema(s, key, fetch, schemaId);
    var schema := rs.result.value;
    var t := codec.forSchema(schema).value;
    var payload := codec.toBuffer(t, message).value;
    HeaderRoundTrip(schemaId.n, payload);
    assert SchemaOf(st.after, schemaId) == Some(schema);
    var again := ResolveSchema(st.after, key, fetch, schemaId);
    assert again.result == Ok(schema);
    assert codec.decode(t, st.result.value, HeaderSize) == codec.decode(t, payload, 0);
  }

  /**
   * Why the round trip needs the cache's id entry to point back at the schema: after the same id
   * is stored for schema `a` and then for `b`, `a`'s key still names the id. Encoding with `a` then
   * hits the cache, and decoding the frame resolves the id to `b` and decodes with `b`'s type.
   */
  lemma StaleIdDecodesWithReplacedSchema(key: Value -> string, push: SchemaPush.PushArgs -> Result<Value>,
                                         fetch: Value -> Result<Value>, args: SchemaPush.PushArgs,
                                         codec: Codec, json: JsonLib, n: int, a: Value, b: Value, message: Value)
    requires IsUInt32(n) && n != 0
    requires key(a) != key(b) && Truthy(b)
    requires Encode.EncodeSpec(codec, json, a, message, false).Ok?
    ensures var s := Put(Put(Empty, key, Num(n), a), key, Num(n), b);
            var payload := Encode.EncodeSpec(codec, json, a, message, false).value;
            var st := BySchema(s, key, push, args, a, Encode.EncodeSpec(codec, json, a, message, false));
            && st == Step(Frame(Num(n), payload, 0), s, 0)
            && DecodeSpec(s, key, fetch, codec, st.result.value, DefaultOffset)
               == match codec.forSchema(b)
                  case Err(f) => Step(Err(f), s, 0)
                  case Ok(t) => Step(codec.decode(t, st.result.value, DefaultOffset), s, 0)
  {
    var s := Put(Put(Empty, key, Num(n), a), key, Num(n), b);
    OverwriteBreaksBijection(key, Num(n), a, b);
    assert IdHit(s, key, a);
    var payload := Encode.EncodeSpec(codec, json, a, message, false).value;
    HeaderRoundTrip(n, payload);
    assert SchemaHit(s, Num(n)) && SchemaOf(s, Num(n)) == Some(b);
  }
}
