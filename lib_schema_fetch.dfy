/** `fetchSchema(schemaRegistry, schemaId)` of lib: an unguarded GET where 200 is success. */
module LibSchemaFetch {
  import opened Js
  import opened Http
  import SrcSchemaFetch

  /** The 'end' handler as written: a non-200 status rejects, then the double parse still runs. */
  function OnEnd(json: JsonLib, status: int, data: string): (r: seq<Effect>)
    ensures 1 <= |r| <= 2
    ensures json.parse(data).Err? ==> r == [Throw(json.parse(data).failure)]
    ensures Settle(r).Fulfilled? ==> status == 200
    ensures Settle(r).Rejected? <==> status != 200 && json.parse(data).Ok? && Readable(json.parse(data).value)
    ensures |r| == 2 <==> Settle(r).Rejected?
  {
    match json.parse(data)
    case Err(f) => [Throw(f)]
    case Ok(response) =>
      if status != 200 then
        var rejection := RejectWithRegistryError(response);
        if rejection[0].Throw? then rejection else rejection + ResolveParsedSchema(json, response)
      else ResolveParsedSchema(json, response)
  }

  /**
   * The handler with the success test and an early exit after the rejection: exactly one effect,
   * the first one the handler as written produces.
   */
  function OnEndCorrected(json: JsonLib, status: int, data: string): (r: seq<Effect>)
    ensures |r| == 1 && r == OnEnd(json, status, data)[..1]
    ensures Settle(r) == Settle(OnEnd(json, status, data))
    ensures Settle(r).Fulfilled? ==> status == 200
    ensures Settle(r).Rejected? <==> status != 200 && json.parse(data).Ok? && Readable(json.parse(data).value)
    ensures Settle(r) == Pending <==> Escaped(r).Some?
  {
    match json.parse(data)
    case Err(f) => [Throw(f)]
    case Ok(response) =>
      if status != 200 then RejectWithRegistryError(response)
      else ResolveParsedSchema(json, response)
  }

  /** Every id, 0 included, is requested: there is no argument guard. */
  function FetchSchema(json: JsonLib, conn: Connection, schemaId: Value, transport: Request -> Exchange): (c: Call)
    ensures c.request == Some(SrcSchemaFetch.BuildRequest(conn, schemaId))
  {
    var request := SrcSchemaFetch.BuildRequest(conn, schemaId);
    Call(Some(request),
         match transport(request)
         case Failed(e) => Rejected(TransportError(e))
         case Responded(status, data) => Settle(OnEnd(json, status, data)))
  }

  /** Status 200 resolves to `JSON.parse(JSON.parse(body).schema)`, as it does in the corrected handler. */
  lemma SuccessResolvesSchema(json: JsonLib, data: string, fields: seq<(string, Value)>, schema: Value)
    requires json.parse(data) == Ok(Obj(fields))
    requires json.parse(ToStr(LastField(fields, "schema"))) == Ok(schema)
    ensures Settle(OnEnd(json, 200, data)) == Fulfilled(schema)
    ensures OnEnd(json, 200, data) == OnEndCorrected(json, 200, data) == [Resolve(schema)]
  {
  }

  /**
   * As written, a non-200 error body rejects with the registry's code and message, and then the
   * double parse of its missing `schema` field throws out of the callback.
   */
  lemma FailureRejectsThenThrows(json: JsonLib, status: int, data: string, fields: seq<(string, Value)>, f: Failure)
    requires status != 200 && json.parse(data) == Ok(Obj(fields)) && LastField(fields, "schema") == Undefined
    requires json.parse("undefined") == Err(f)
    ensures Settle(OnEnd(json, status, data))
            == Rejected(Error(RegistryErrorPrefix + ToStr(LastField(fields, "error_code")) + " - "
                              + ToStr(LastField(fields, "message"))))
    ensures Escaped(OnEnd(json, status, data)) == Some(f)
  {
    var e := OnEnd(json, status, data);
    assert e == [e[0], Throw(f)];
  }

  /**
   * The corrected handler settles every parsed object body and lets nothing escape: a non-200
   * status rejects with the registry message, 200 resolves the parsed schema or throws only when
   * the nested schema text itself is not JSON.
   */
  lemma CorrectedSettlesOnce(json: JsonLib, status: int, data: string, fields: seq<(string, Value)>)
    requires json.parse(data) == Ok(Obj(fields))
    ensures status != 200 ==>
              OnEndCorrected(json, status, data)
              == [Reject(Error(RegistryErrorPrefix + ToStr(LastField(fields, "error_code")) + " - "
                               + ToStr(LastField(fields, "message"))))]
    ensures status == 200 && json.parse(ToStr(LastField(fields, "schema"))).Ok? ==>
              OnEndCorrected(json, status, data)
              == [Resolve(json.parse(ToStr(LastField(fields, "schema"))).value)]
    ensures |OnEndCorrected(json, status, data)| == 1
  {
  }

  /** A transport error rejects with that error unchanged. */
  lemma TransportErrorPassesThrough(json: JsonLib, conn: Connection, schemaId: Value,
                                     transport: Request -> Exchange, cause: string)
    requires transport(SrcSchemaFetch.BuildRequest(conn, schemaId)) == Failed(cause)
    ensures FetchSchema(json, conn, schemaId, transport).settlement == Rejected(TransportError(cause))
  {
  }
}
