# avro-registry client in Dafny

A model of the avro-registry JavaScript client. The client encodes messages with Avro into the
Confluent wire format and decodes them again. Schemas are resolved through an in-memory cache
backed by a Confluent Schema Registry.

The model covers these parts of the client:

- **Schema cache** (`Cache`). A class with two maps: id to schema, and `JSON.stringify(schema)`
  to id. Its state is also given as a value, `Cache.State`, and lemmas prove what a lookup returns
  after a `setSchema`. One lemma shows the bijection between the two maps holds for fresh entries.
  Another shows that overwriting an id breaks it.
- **Wire framing** (`Wire`).
  - A frame is one version byte (the magic byte), a 4-byte big-endian schema id, then the payload.
  - `GetStandard` builds a frame in an array, specified by `Frame`.
  - `ParseHeader` is the header check and id read that decoding performs.
  - Both directions of the id round trip are proved, and so are the header/payload round trips.
- **Registry calls** (`Http`, `SchemaPush`, `SrcSchemaFetch`, `LibSchemaFetch`).
  - Each call builds a request from the connection: verb, path, headers, body and auth.
  - The response handler becomes the list of `resolve`/`reject`/throw effects it performs.
  - A promise settles on the first `resolve` or `reject` (`Http.Settle`).
  - An exception thrown inside an event callback escapes rather than rejecting the promise
    (`Http.Escaped`).
- **Resolution** (`Resolution`).
  - The cache-then-registry pattern that every encode and decode path follows.
  - It is given as functions over `Cache.State` with the number of registry calls made, and as
    methods on the cache class proved equal to them.
  - Proved: the cache short-circuit, the failure paths, and the header invariant of every
    successful encode.
- **Encoding and decoding** (`Encode`, `Decode`). Covers `src/lib/encode.js` and
  `src/lib/decode.js`, including optional validation through the codec's error hook. Proved:
  decoding a frame that an encode by schema just produced gives the message back without another
  registry call. This needs a truthy schema, a codec that reads back what it writes, and a cache
  whose id for the schema's key (when truthy) maps back to that schema. A cache where one id was
  stored for two schemas breaks the last condition, and the decode then uses the other schema.
- **Validation errors** (`ValidationErrors`, `SchemaErrors`). The two error classes, their messages
  and `toJSON`.
- **The client classes** (`SrcSchemaRegistry`, `RootSchemaRegistry`).
  - `SrcSchemaRegistry` is the class in `src/schema-registry.js`.
  - `RootSchemaRegistry` is the earlier class in the top-level `schema-registry.js`.
  - Each is a Dafny class whose methods update the shared cache.
  - Each method is specified by the resolution functions.

Everything outside the client is a parameter of the model:

- the Avro codec (`Avro.Codec`: `forSchema`, the error-hook reports of `isValid`, `toBuffer`,
  `decode`);
- the JSON library (`Js.JsonLib`: `JSON.stringify`, the indented `JSON.stringify`, `JSON.parse`);
- the transport that sends a request and returns a status and body (`Request -> Exchange`);
- the registry as the orchestration sees it (`Resolution.Registry`: a fetch and a push that each
  answer with a value or a failure);
- `url.parse`, whose result is the constructor's input (`SrcSchemaRegistry.UrlSections`).

Remote calls are counted with a ghost out-parameter.

## Model

| member | source | states |
|---|---|---|
| Cache.SchemaCache.constructor | src/lib/schema-cache.js:2-5 | a new cache holds no entries in either map |
| Cache.SchemaCache.SetSchema | src/lib/schema-cache.js:7-12 | returns the id; the new state is the old one with id to schema and key(schema) to id overwritten, nothing removed |
| Cache.SchemaCache.GetSchemaById | src/lib/schema-cache.js:14-16 | present exactly when the id is a key of the id map, and then the stored schema |
| Cache.SchemaCache.GetIdBySchema | src/lib/schema-cache.js:18-21 | looks up by the schema's stringified key: present exactly when that key was set, and then the stored id |
| Cache.EmptyKnowsNothing | src/lib/schema-cache.js:2-5 | an empty cache answers no lookup |
| Cache.PutThenLookup | src/lib/schema-cache.js:7-21 | after setSchema(id, schema) the id gives the schema and any schema with the same key gives the id; other ids and other keys are unchanged |
| Cache.PutIdempotent | src/lib/schema-cache.js:7-12 | setting the same pair twice equals setting it once |
| Cache.PutFreshKeepsConsistent | src/lib/schema-cache.js:7-12 | adding a pair whose id and key are both new keeps the two maps inverse to each other |
| Cache.OverwriteBreaksBijection | src/lib/schema-cache.js:7-12 | re-setting an id with a different schema leaves the old key pointing at the id while the id points at the new schema, so the maps are no longer inverse |
| Wire.ReadBE32OfBE32 | src/lib/encode.js:59 | reading back the 4 big-endian bytes written for an unsigned 32-bit id gives the id |
| Wire.BE32OfReadBE32 | src/lib/decode.js:24 | writing the id read from any 4 bytes gives the same 4 bytes |
| Wire.GetStandard | src/lib/encode.js:52-64 | the array-built frame equals Frame: version byte, 4-byte id, payload copied at offset 5; out-of-range version or id is a RangeError |
| Wire.FrameLayout | src/lib/encode.js:52-64 | a frame exists exactly when the version fits a byte and the id an unsigned 32-bit integer; then length is payload + 5, byte 0 is the version, bytes 1-4 read back as the id, and the rest is the payload |
| Wire.FrameExample | src/lib/encode.js:52-64 | id 1 with the Avro encoding of the string "testing" (bytes 14, 116, 101, ...) frames to 0, 0, 0, 0, 1 followed by those bytes |
| Wire.ParseHeader | src/lib/decode.js:18-24 | success only for a message of at least 5 bytes starting with 0, giving an unsigned 32-bit id; a non-zero first byte gives the magic-byte error |
| Wire.HeaderRoundTrip | src/lib/decode.js:18-24 | parsing the header of a version-0 frame gives its id, and the bytes after the header are the payload |
| Wire.ParsedHeaderIsFrame | src/lib/decode.js:18-24 | every message whose header parses is the version-0 frame of that id and its remaining bytes |
| Avro.ToViolation | src/lib/encode.js:30-36 | a hook report becomes a record with the same value and expected type, its path joined with "." |
| Avro.CollectViolations | src/schema-registry.js:21-34 | one record per hook report, in report order |
| Js.Utf8Length | src/lib/schema-push.js:6 | the byte length of the body is between its character count and four times it |
| Http.RegistryErrorMessage | src/lib/schema-push.js:30 | building the registry error message fails (a TypeError) exactly when the parsed body is null or undefined |
| Http.NotFoundMessage | src/lib/schema-push.js:30 | the registry's 404 body gives "Schema registry error: 404 - Schema not found" |
| SchemaPush.BuildRequest | src/lib/schema-push.js:3-17 | POST to "{path}subjects/{topic}-{type}/versions" on the connection's host, port and auth, with the JSON content type, the body's byte length, and the schema stringified inside a JSON body |
| SchemaPush.PushSchema | src/lib/schema-push.js:1-43 | the request sent is the one BuildRequest describes |
| SchemaPush.OnEnd | src/lib/schema-push.js:27-33 | a body that is not JSON throws out of the callback; the promise fulfils exactly on status 200 with a readable body and rejects exactly on another status with a readable body, and a rejection is followed by a resolve that has no effect and nothing escapes |
| SchemaPush.SuccessResolvesId | src/lib/schema-push.js:27-33 | status 200 fulfils with the body's id and nothing escapes |
| SchemaPush.FailureRejects | src/lib/schema-push.js:27-33 | another status rejects with the registry's code and message; the later resolve has no effect; nothing escapes |
| SchemaPush.TransportErrorPassesThrough | src/lib/schema-push.js:36-38 | a request error rejects with that error |
| SchemaPush.SubjectNaming | src/lib/schema-push.js:11 | a key goes to "{topic}-key", a value to "{topic}-value", and the two subjects differ |
| SrcSchemaFetch.BuildRequest | src/lib/schema-fetch.js:6-12 | GET "{path}schemas/ids/{id}" on the connection's host, port and auth |
| SrcSchemaFetch.OnEnd | src/lib/schema-fetch.js:22-32 | as written, exactly one effect; an unparseable body throws; the promise rejects exactly on status 200 with a readable body, fulfils only on another status, and stays pending exactly when an exception escapes |
| SrcSchemaFetch.FetchSchema | src/lib/schema-fetch.js:1-39 | no request is sent exactly when the id is falsy, and then the call rejects with "SchemaId is undefined" |
| SrcSchemaFetch.FalsyIdsRejected | src/lib/schema-fetch.js:3-5 | id 0 and undefined are rejected without a request |
| SrcSchemaFetch.SuccessStatusRejects | src/lib/schema-fetch.js:22-32 | as written, status 200 rejects with the registry-error message |
| SrcSchemaFetch.OtherStatusResolves | src/lib/schema-fetch.js:24-27 | as written, a non-200 body with a schema string fulfils with the parsed schema |
| SrcSchemaFetch.ErrorBodyNeverSettles | src/lib/schema-fetch.js:24-27 | as written, a non-200 error body without a schema field never settles and the parse error escapes |
| SrcSchemaFetch.TransportErrorPassesThrough | src/lib/schema-fetch.js:35-37 | a request error rejects with that error |
| LibSchemaFetch.OnEnd | lib/schema-fetch.js:19-27 | as written, one or two effects; an unparseable body throws; fulfilment only on status 200; rejection exactly on another status with a readable body, and exactly then a second effect follows |
| LibSchemaFetch.OnEndCorrected | lib/schema-fetch.js:19-27 | corrected reference definition, not the code as written: exactly one effect, the first one the handler as written produces, so it settles the same way; fulfilment only on 200, rejection exactly on another status with a readable body, pending exactly when an exception escapes |
| LibSchemaFetch.FetchSchema | lib/schema-fetch.js:1-34 | every id, falsy ones included, is requested with the same GET |
| LibSchemaFetch.SuccessResolvesSchema | lib/schema-fetch.js:19-27 | status 200 fulfils with the doubly parsed schema, as the corrected handler does |
| LibSchemaFetch.FailureRejectsThenThrows | lib/schema-fetch.js:21-26 | as written, a non-200 error body rejects and then the parse of its missing schema throws out of the callback |
| LibSchemaFetch.CorrectedSettlesOnce | lib/schema-fetch.js:19-27 | with a return after the rejection, every parsed body leads to exactly one effect: a non-200 status rejects, 200 resolves the schema |
| LibSchemaFetch.TransportErrorPassesThrough | lib/schema-fetch.js:30-32 | a request error rejects with that error |
| ValidationErrors.New | src/lib/validation-error.js:7-12 | name "AvroSchemaValidationError", the list kept as is, message the fixed prefix followed by the indented JSON of the list |
| Js.ToJson | src/lib/validation-error.js:14-23 | the `error` object of toJSON carries the error's name, message and violation list unchanged (also src/lib/schema-errors.js:13-22) |
| ValidationErrors.ToJsonOfNew | src/lib/validation-error.js:14-23 | toJSON carries the same name, message and every violation |
| SchemaErrors.New | src/lib/schema-errors.js:7-11 | name "AvroSchemaValidationError", the constant message, the list kept as is |
| SchemaErrors.MessageIgnoresList | src/lib/schema-errors.js:7-22 | the message is the same for every list; toJSON carries the name, the constant message and the list |
| Resolution.SchemaById | src/lib/encode.js:79-83 | the cache-then-fetch method produces exactly the result, new cache and call count of ResolveSchema |
| Resolution.IdBySchema | src/lib/encode.js:117-121 | the cache-then-push method produces exactly the result, new cache and call count of ResolveId |
| Resolution.ResolveSchemaContract | src/schema-registry.js:98-105 | spells out the hit/miss case split of ResolveSchema: a truthy cached schema is returned with no call and no change; otherwise one fetch, whose failure is passed on with the cache unchanged and whose success is stored (the consequences for repeated use are SchemaShortCircuit and CachedZeroIdIsMiss) |
| Resolution.ResolveIdContract | src/schema-registry.js:117-121 | spells out the hit/miss case split of ResolveId: a truthy cached id is returned with no call and no change; otherwise one push, whose failure is passed on with the cache unchanged and whose success is stored (the consequences for repeated use are IdShortCircuit and CachedZeroIdIsMiss) |
| Resolution.SchemaShortCircuit | src/schema-registry.js:99-103 | after an id resolves to a truthy schema, resolving it again makes no call and returns the same schema |
| Resolution.IdShortCircuit | src/schema-registry.js:117-120 | after a schema resolves to a truthy id, resolving it again, with any push arguments (key or value subject), makes no call |
| Resolution.CachedZeroIdIsMiss | src/schema-registry.js:117-118 | a cached id 0 is falsy, so the schema is pushed again on every use |
| Resolution.ByIdFrame | src/schema-registry.js:132-137 | a successful encode by id is a version-0 frame whose header parses to the given id |
| Resolution.BySchemaFrame | src/schema-registry.js:115-124 | a successful encode by schema is a version-0 frame of the resolved id whose payload is the encoded message |
| Resolution.BySchemaEncodeFailureNoCall | src/schema-registry.js:116-119 | when encoding fails, no registry call is made and the cache is unchanged |
| Encode.ValidateBeforeEncode | src/lib/encode.js:27-41 | passes exactly when the hook reports nothing; otherwise fails with a ValidationError holding every report in order |
| Encode.EncodeMessage | src/lib/encode.js:13-20 | compiles the schema, validates when asked, then serialises: equal to EncodeSpec |
| Encode.ValidationOnlyRejects | src/lib/encode.js:13-20 | without validation the result is the codec's; with it, a reported message is rejected with all its reports in order, and a clean one encodes as without validation |
| Encode.ValidatedSuccessIsPlain | src/lib/encode.js:13-20 | a successful validated encoding equals the unvalidated one |
| Encode.ArgumentOrderAsCalled | src/lib/encode.js:119 | as called, an object schema is pushed to the subject "{topic}-[object Object]" with the type string as the schema |
| Encode.ArgumentOrderIntended | src/lib/schema-push.js:1-11 | in the declared order the subject is "{topic}-{type}" and the body carries the schema |
| Encode.EncodeMessageById | src/lib/encode.js:73-92 | result, new cache and call count are those of ById with EncodeSpec as the encoder |
| Encode.EncodeMessageBySchema | src/lib/encode.js:103-124 | result, new cache and call count are those of BySchema with the arguments as called |
| Encode.InvalidMessageMakesNoCall | src/lib/encode.js:111-119 | a message the hook reports on is rejected with a ValidationError before any registry call, and the cache is unchanged |
| Decode.DecodeMessage | src/lib/decode.js:12-33 | result, new cache and call count are those of DecodeSpec: header check, resolution of the read id, decoding at the offset |
| Decode.MagicByteRejected | src/lib/decode.js:18-22 | a non-zero first byte gives the magic-byte error with no call and no cache change |
| Decode.BadHeaderMakesNoCall | src/lib/decode.js:18-24 | a message too short or without the magic byte fails with no call and no cache change |
| Decode.EncodeBySchemaThenDecode | src/lib/decode.js:12-33 | decoding the frame an encode by schema produced returns the message with no registry call, given a codec that reads back what it writes, a truthy schema, and a cache whose truthy id for the schema's key maps back to that schema |
| Decode.StaleIdDecodesWithReplacedSchema | src/lib/decode.js:25-31 | when one id was stored for schema a and then for b, encoding with a hits the cache with no call, and decoding the frame resolves the id to b and decodes with b's type |
| Decode.EncodeByIdThenDecode | src/lib/decode.js:12-33 | decoding the frame an encode by id produced returns the message, with no call when the schema is truthy |
| SrcSchemaRegistry.ChooseProtocol | src/schema-registry.js:182 | https is chosen exactly when the parsed protocol equals "https" without a colon |
| SrcSchemaRegistry.ChooseProtocolIntended | src/schema-registry.js:182 | https is chosen exactly when the parsed protocol is "https:" |
| SrcSchemaRegistry.HttpsUrlUsesHttp | src/schema-registry.js:180-182 | as written, both "https:" and "http:" select the http module |
| SrcSchemaRegistry.IntendedProtocolChoice | src/schema-registry.js:182 | with the colon, "https:" selects https and "http:" or no protocol selects http |
| SrcSchemaRegistry.ConnectionOf | src/schema-registry.js:179-191 | host, port and path are taken from the parsed URL, and auth only when truthy |
| SrcSchemaRegistry.MessageEncodedValidation | src/schema-registry.js:62-75 | with a truthy option, a reported message is rejected with every report in order under the constant message; otherwise the codec decides |
| SrcSchemaRegistry.DefaultOptionsSkipValidation | src/schema-registry.js:179-188 | with the default options nothing is validated |
| SrcSchemaRegistry.SchemaRegistry.constructor | src/schema-registry.js:179-192 | the connection is ConnectionOf the parsed URL; the cache is new, empty and keyed by JSON.stringify |
| SrcSchemaRegistry.SchemaRegistry.GetStandardMessage | src/schema-registry.js:47-54 | the result is the frame of the id, payload and version |
| SrcSchemaRegistry.SchemaRegistry.GetMessageEncoded | src/schema-registry.js:62-75 | the result is MessageEncoded under the instance's option |
| SrcSchemaRegistry.SchemaRegistry.GetSchema | src/schema-registry.js:98-105 | result, new cache and call count are those of ResolveSchema |
| SrcSchemaRegistry.SchemaRegistry.GetMessageDecoded | src/schema-registry.js:83-92 | result, new cache and call count are those of DecodeSpec |
| SrcSchemaRegistry.SchemaRegistry.EncodeBySchema | src/schema-registry.js:115-124 | result, new cache and call count are those of BySchema, pushing in the declared argument order |
| SrcSchemaRegistry.SchemaRegistry.EncodeById | src/schema-registry.js:132-137 | result, new cache and call count are those of ById with MessageEncoded |
| SrcSchemaRegistry.SchemaRegistry.EncodeMessage | src/schema-registry.js:146-149 | EncodeBySchema with the subject type "value" |
| SrcSchemaRegistry.SchemaRegistry.EncodeKey | src/schema-registry.js:159-162 | EncodeBySchema with the subject type "key" |
| SrcSchemaRegistry.SchemaRegistry.DecodeMessage | src/schema-registry.js:169-172 | GetMessageDecoded at the default offset 5 |
| RootSchemaRegistry.PlainEncodedAgrees | schema-registry.js:37-41 | the earlier encoding equals the later class's with default options and encode.js's without validation |
| RootSchemaRegistry.EncodeByIdAgrees | schema-registry.js:55-65 | encoding by id in the earlier class gives the same frame, cache and call count as the later class with default options |
| RootSchemaRegistry.SchemaRegistry.constructor | schema-registry.js:14-26 | the connection is built from the parsed URL as in the later class; the cache is new and empty |
| RootSchemaRegistry.SchemaRegistry.GetStandardMessage | schema-registry.js:28-35 | the result is the frame of the id, payload and version |
| RootSchemaRegistry.SchemaRegistry.GetMessageEncoded | schema-registry.js:37-41 | compile and serialise with no validation |
| RootSchemaRegistry.SchemaRegistry.EncodeBySchema | schema-registry.js:43-53 | result, new cache and call count are those of BySchema, pushing in the declared order |
| RootSchemaRegistry.SchemaRegistry.EncodeById | schema-registry.js:55-65 | result, new cache and call count are those of ById with plain encoding |
| RootSchemaRegistry.SchemaRegistry.EncodeMessage | schema-registry.js:67-70 | EncodeBySchema with the subject type "value" |
| RootSchemaRegistry.SchemaRegistry.EncodeKey | schema-registry.js:72-75 | EncodeBySchema with the subject type "key" |

## Left out

- The network:
  - sending requests, chunked 'data' events and Node's http/https modules are replaced by a
    transport parameter that returns a status and the concatenated body;
  - `protocol` is kept only as the choice between the two modules.
- The registry as the encode and decode paths see it is an oracle that always answers:
  - a call whose promise never settles is not modelled;
  - for example, `SrcSchemaFetch.ErrorBodyNeverSettles` shows one, which leaves the awaiting
    encode or decode waiting forever;
  - nor is the link from the oracle's answers to the request handlers, which are modelled and
    proved separately.
- Concurrency: two overlapping encodes of the same uncached schema can both miss and both push.
  The model runs operations one after another.
- The Avro codec (avsc) is a parameter:
  - its options argument and the `{value, offset}` shape of `decode` are not modelled, and only
    the value is kept;
  - the round-trip lemmas assume the codec reads back what it writes, and reads from offset 5 as
    if the buffer started there.
- JSON.stringify and JSON.parse are uninterpreted functions. The cache key is therefore not proved
  to distinguish schemas, and key order matters exactly as much as the key function makes it.
- `url.parse` is not modelled: its result is the constructor's input.
- Numbers are integers: fractional ids, NaN and Infinity are not represented.
- Map keys are compared by value. JavaScript compares object keys by identity, which only matters
  if an id is not a primitive.
- Wire.GetStandard:
  - an id that is not a number is reported as out of range; Node first converts it with unary
    plus, so "7" is written as 7 and `undefined` as 0;
  - the RangeError texts are shortened from Node's.
- Js.ValidationError and Js.ToJson:
  - the stack trace (`stacktrace` in `toJSON`) is left out;
  - the Error/TypeError base class is not represented: the model keeps only the name
    "AvroSchemaValidationError", the message and the list, so `instanceof TypeError` has no
    counterpart.
- Decode.EncodeBySchemaThenDecode: the round trip is promised only for a truthy schema and a
  cache whose truthy id for the schema's key maps back to that schema. `setSchema` can break that
  (Cache.OverwriteBreaksBijection), and then the frame decodes with another schema
  (Decode.StaleIdDecodesWithReplacedSchema).
- Js.NumToString: JavaScript's exponent notation for numbers of magnitude 1e21 and above is not
  modelled; ids and error codes never reach it.
- The top-level script at the end of schema-registry.js (lines 78-109), which builds a client and
  sends two requests, is not part of the library and is not modelled.
- lib/schema-push.js, which the top-level class requires, is not part of this model; its push is
  the registry oracle's.
- The `options` argument of the encode and decode methods is only forwarded to the codec and is
  dropped.

## Findings

| source | as written | input that shows it | evidently intended | confidence | as-written member | corrected member |
|---|---|---|---|---|---|---|
| src/lib/schema-fetch.js:24 | `res.statusCode !== 200` guards the success branch | a 200 reply with a schema is rejected with "Schema registry error: undefined - undefined"; a 404 error body without `schema` never settles | 200 resolves the parsed schema, any other status rejects | high, not executed | SrcSchemaFetch.SuccessStatusRejects | LibSchemaFetch.CorrectedSettlesOnce |
| lib/schema-fetch.js:21-26 | no `return` after `reject`, so the double parse runs for error bodies too | a 404 body `{"error_code":40403,"message":"Schema not found"}`: after the rejection, `JSON.parse(undefined)` throws out of the 'end' callback | stop after rejecting | high, not executed | LibSchemaFetch.FailureRejectsThenThrows | LibSchemaFetch.CorrectedSettlesOnce |
| src/lib/encode.js:119 | `pushSchema(schemaRegistry, topic, schema, type)` against the declared order `(topic, type, schema)`, which both client classes follow (the push tests still call the older `(topic, schema, type)` order) | topic "orders", type "value", schema `{"type":"int"}` posts to "subjects/orders-[object Object]/versions" with the schema `"value"` | subject "orders-value" with the schema in the body | high, not executed | Encode.ArgumentOrderAsCalled | Encode.ArgumentOrderIntended |
| src/schema-registry.js:182 | `urlSections.protocol == "https"`, but `url.parse` reports "https:" | "https://registry:8081" is contacted with the http module | choose https for an https URL | high, not executed | SrcSchemaRegistry.HttpsUrlUsesHttp | SrcSchemaRegistry.IntendedProtocolChoice |
