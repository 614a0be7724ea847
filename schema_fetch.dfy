/** `fetchSchema(schemaRegistry, schemaId)` of src/lib: a guarded GET whose status test is inverted. */
module SrcSchemaFetch {
  import opened Js
  import opened Http

  const MissingIdMessage: string := "SchemaId is undefined"

  /** The GET request for `{path}schemas/ids/{schemaId}`; host, port and auth pass through. */
  function BuildRequest(conn: Connection, schemaId: Value): (r: Request)
    ensures r.verb == "GET" && r.protocol == conn.protocol
    ensures r.host == conn.hostname && r.port == conn.port && r.auth == conn.auth
    ensures r.path == ToStr(conn.path) + "schemas/ids/" + ToStr(schemaId)
  {
    Request(conn.protocol, conn.hostname, conn.port, "GET",
            ToStr(conn.path) + "schemas/ids/" + ToStr(schemaId), [], conn.auth, "")
  }

  /** The 'end' handler as written: a status other than 200 takes the success branch. */
  function OnEnd(json: JsonLib, status: int, data: string): (r: seq<Effect>)
    ensures |r| == 1
    ensures json.parse(data).Err? ==> r == [Throw(json.parse(data).failure)]
    ensures Settle(r).Fulfilled? ==> status != 200
    ensures Settle(r).Rejected? <==> status == 200 && json.parse(data).Ok? && Readable(json.parse(data).value)
    ensures Settle(r) == Pending <==> Escaped(r).Some?
  {
    match json.parse(data)
    case Err(f) => [Throw(f)]
    case Ok(response) =>
      if status != 200 then ResolveParsedSchema(json, response)
      else RejectWithRegistryError(response)
  }

  /** A falsy id is rejected before any request is built. */
  function FetchSchema(json: JsonLib, conn: Connection, schemaId: Value, transport: Request -> Exchange): (c: Call)
    ensures c.request.None? <==> !Truthy(schemaId)
    ensures !Truthy(schemaId) ==> c.settlement == Rejected(Error(MissingIdMessage))
    ensures Truthy(schemaId) ==> c.request == Some(BuildRequest(conn, schemaId))
  {
    if !Truthy(schemaId) then Call(None, Rejected(Error(MissingIdMessage)))
    else
      var request := BuildRequest(conn, schemaId);
      Call(Some(request),
           match transport(request)
           case Failed(e) => Rejected(TransportError(e))
           case Responded(status, data) => Settle(OnEnd(json, status, data)))
  }

  /** Id 0 and `undefined` never reach the registry. */
  lemma FalsyIdsRejected(json: JsonLib, conn: Connection, transport: Request -> Exchange)
    ensures FetchSchema(json, conn, Num(0), transport) == Call(None, Rejected(Error(MissingIdMessage)))
    ensures FetchSchema(json, conn, Undefined, transport) == Call(None, Rejected(Error(MissingIdMessage)))
  {
  }

  /**
   * As written, a 200 response with an object body is rejected with the registry-error message,
   * where the registry's success contract (and the tests) expect the parsed schema.
   */
  lemma SuccessStatusRejects(json: JsonLib, data: string, fields: seq<(string, Value)>)
    requires json.parse(data) == Ok(Obj(fields))
    ensures Settle(OnEnd(json, 200, data))
            == Rejected(Error(RegistryErrorPrefix + ToStr(LastField(fields, "error_code")) + " - "
                              + ToStr(LastField(fields, "message"))))
  {
  }

  /** As written, a non-200 response carrying a schema string is resolved with the parsed schema. */
  lemma OtherStatusResolves(json: JsonLib, status: int, data: string, fields: seq<(string, Value)>, schema: Value)
    requires status != 200 && json.parse(data) == Ok(Obj(fields))
    requires json.parse(ToStr(LastField(fields, "schema"))) == Ok(schema)
    ensures Settle(OnEnd(json, status, data)) == Fulfilled(schema)
  {
  }

  /**
   * As written, the registry's 404 error body has no `schema` field; parsing the text "undefined"
   * throws inside the callback, so the promise never settles and the exception escapes.
   */
  lemma ErrorBodyNeverSettles(json: JsonLib, data: string, fields: seq<(string, Value)>, f: Failure)
    requires json.parse(data) == Ok(Obj(fields)) && LastField(fields, "schema") == Undefined
    requires json.parse("undefined") == Err(f)
    ensures Settle(OnEnd(json, 404, data)) == Pending
    ensures Escaped(OnEnd(json, 404, data)) == Some(f)
  {
  }

  /** A transport error rejects with that error unchanged. */
  lemma TransportErrorPassesThrough(json: JsonLib, conn: Connection, schemaId: Value,
                                     transport: Request -> Exchange, cause: string)
    requires Truthy(schemaId) && transport(BuildRequest(conn, schemaId)) == Failed(cause)
    ensures FetchSchema(json, conn, schemaId, transport).settlement == Rejected(TransportError(cause))
  {
  }
}
