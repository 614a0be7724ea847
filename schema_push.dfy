/** `pushSchema(schemaRegistry, topic, type, schema)`: register a schema under the subject `{topic}-{type}`. */
module SchemaPush {
  import opened Js
  import opened Http

  const ContentType: string := "application/vnd.schemaregistry.v1+json"

  /** The arguments in the positions pushSchema declares them: topic, type, schema. */
  datatype PushArgs = PushArgs(topic: Value, kind: Value, schema: Value)

  function SubjectPath(conn: Connection, args: PushArgs): string
  {
    ToStr(conn.path) + "subjects/" + ToStr(args.topic) + "-" + ToStr(args.kind) + "/versions"
  }

  /** `{"schema": JSON.stringify(schema)}`: the schema travels as a JSON string inside JSON. */
  function Body(json: JsonLib, schema: Value): string
  {
    json.stringify(Obj([("schema", Str(json.stringify(schema)))]))
  }

  /** The POST request: subject path, JSON content type, byte length of the body, auth passed through. */
  function BuildRequest(json: JsonLib, conn: Connection, args: PushArgs): (r: Request)
    ensures r.verb == "POST" && r.protocol == conn.protocol
    ensures r.host == conn.hostname && r.port == conn.port && r.auth == conn.auth
    ensures r.path == SubjectPath(conn, args)
    ensures r.body == Body(json, args.schema)
    ensures r.headers == [("Content-Type", Str(ContentType)), ("Content-Length", Num(Utf8Length(r.body)))]
  {
    var body := Body(json, args.schema);
    Request(conn.protocol, conn.hostname, conn.port, "POST", SubjectPath(conn, args),
            [("Content-Type", Str(ContentType)), ("Content-Length", Num(Utf8Length(body)))],
            conn.auth, body)
  }

  /** The 'end' handler: reject on a non-200 status, then (in every case) resolve `response.id`. */
  function OnEnd(json: JsonLib, status: int, data: string): (r: seq<Effect>)
    ensures json.parse(data).Err? ==> r == [Throw(json.parse(data).failure)]
    ensures Settle(r).Fulfilled? <==> status == 200 && json.parse(data).Ok? && Readable(json.parse(data).value)
    ensures Settle(r).Rejected? <==> status != 200 && json.parse(data).Ok? && Readable(json.parse(data).value)
    ensures Settle(r).Rejected? ==> |r| == 2 && r[1].Resolve? && Escaped(r) == None
  {
    match json.parse(data)
    case Err(f) => [Throw(f)]
    case Ok(response) =>
      var resolveId := match Prop(response, "id")
                       case Err(f) => [Throw(f)]
                       case Ok(id) => [Resolve(id)];
      if status != 200 then
        var rejection := RejectWithRegistryError(response);
        if rejection[0].Throw? then rejection else rejection + resolveId
      else resolveId
  }

  function PushSchema(json: JsonLib, conn: Connection, args: PushArgs, transport: Request -> Exchange): (c: Call)
    ensures c.request == Some(BuildRequest(json, conn, args))
  {
    var request := BuildRequest(json, conn, args);
    Call(Some(request),
         match transport(request)
         case Failed(e) => Rejected(TransportError(e))
         case Responded(status, data) => Settle(OnEnd(json, status, data)))
  }

  /** Status 200 with an object body resolves to its `id` field. */
  lemma SuccessResolvesId(json: JsonLib, data: string, fields: seq<(string, Value)>)
    requires json.parse(data) == Ok(Obj(fields))
    ensures Settle(OnEnd(json, 200, data)) == Fulfilled(LastField(fields, "id"))
    ensures Escaped(OnEnd(json, 200, data)) == None
  {
  }

  /**
   * Any other status with an object body rejects with the registry's code and message; the
   * `resolve` that follows has no effect, and nothing escapes.
   */
  lemma FailureRejects(json: JsonLib, status: int, data: string, fields: seq<(string, Value)>)
    requires status != 200 && json.parse(data) == Ok(Obj(fields))
    ensures Settle(OnEnd(json, status, data))
            == Rejected(Error(RegistryErrorPrefix + ToStr(LastField(fields, "error_code")) + " - "
                              + ToStr(LastField(fields, "message"))))
    ensures OnEnd(json, status, data)[1] == Resolve(LastField(fields, "id"))
    ensures Escaped(OnEnd(json, status, data)) == None
  {
    var e := OnEnd(json, status, data);
    assert e == [e[0], e[1]];
  }

  /** A transport error rejects with that error unchanged. */
  lemma TransportErrorPassesThrough(json: JsonLib, conn: Connection, args: PushArgs,
                                     transport: Request -> Exchange, cause: string)
    requires transport(BuildRequest(json, conn, args)) == Failed(cause)
    ensures PushSchema(json, conn, args, transport).settlement == Rejected(TransportError(cause))
  {
  }

  /** Subject naming: topic "orders" as a key goes to "orders-key", as a value to "orders-value". */
  lemma SubjectNaming(json: JsonLib, conn: Connection, topic: string, schema: Value)
    ensures BuildRequest(json, conn, PushArgs(Str(topic), Str("key"), schema)).path
            == ToStr(conn.path) + "subjects/" + topic + "-key/versions"
    ensures BuildRequest(json, conn, PushArgs(Str(topic), Str("value"), schema)).path
            == ToStr(conn.path) + "subjects/" + topic + "-value/versions"
    ensures BuildRequest(json, conn, PushArgs(Str(topic), Str("key"), schema)).path
            != BuildRequest(json, conn, PushArgs(Str(topic), Str("value"), schema)).path
  {
    var p := ToStr(conn.path) + "subjects/" + topic + "-";
    var k := BuildRequest(json, conn, PushArgs(Str(topic), Str("key"), schema)).path;
    var v := BuildRequest(json, conn, PushArgs(Str(topic), Str("value"), schema)).path;
    assert k == p + "key/versions";
    assert v == p + "value/versions";
    assert k[|p|] == 'k' && v[|p|] == 'v';
  }
}
