/**
 * The registry connection, the request a registry call describes, and the promise a call returns.
 * Sending the request is outside the model: a transport function maps it to what came back.
 */
module Http {
  import opened Js

  datatype Protocol = HttpModule | HttpsModule

  /** The `schemaRegistry` connection fields: protocol module, host, port, base path and optional auth. */
  datatype Connection = Connection(protocol: Protocol, hostname: Value, port: Value, path: Value, auth: Value)

  /** The request options handed to `protocol.request` / `protocol.get`, with the body written. */
  datatype Request = Request(
    protocol: Protocol,
    host: Value,
    port: Value,
    verb: string,
    path: string,
    headers: seq<(string, Value)>,
    auth: Value,
    body: string)

  /** What the transport produced: an 'error' event, or a status and the concatenated 'data' chunks. */
  datatype Exchange = Failed(cause: string) | Responded(status: int, data: string)

  /** A call of `resolve`, of `reject`, or an exception thrown out of an event handler. */
  datatype Effect = Resolve(value: Value) | Reject(failure: Failure) | Throw(failure: Failure)

  datatype Settlement = Pending | Fulfilled(value: Value) | Rejected(failure: Failure)

  /** A registry call: the request sent (if any) and how its promise settled. */
  datatype Call = Call(request: Option<Request>, settlement: Settlement)

  /**
   * A promise settles once: the first `resolve` or `reject` decides, later ones do nothing. A throw
   * ends the handler; thrown from an event callback it escapes instead of rejecting.
   */
  function Settle(effects: seq<Effect>): Settlement
  {
    if |effects| == 0 then Pending
    else match effects[0]
      case Resolve(v) => Fulfilled(v)
      case Reject(f) => Rejected(f)
      case Throw(_) => Pending
  }

  /** The exception that escapes a handler, if it throws. */
  function Escaped(effects: seq<Effect>): (r: Option<Failure>)
    ensures r.Some? <==> exists i :: 0 <= i < |effects| && effects[i].Throw?
  {
    if |effects| == 0 then None
    else if effects[|effects| - 1].Throw? then Some(effects[|effects| - 1].failure)
    else Escaped(effects[..|effects| - 1])
  }

  /** A parsed body whose properties can be read: anything but `undefined` and `null`. */
  predicate Readable(response: Value)
  {
    !(response.Undefined? || response.Null?)
  }

  const RegistryErrorPrefix: string := "Schema registry error: "

  /** "Schema registry error: {error_code} - {message}" built from a parsed response body. */
  function RegistryErrorMessage(response: Value): (r: Result<string>)
    ensures r.Err? <==> response.Undefined? || response.Null?
  {
    if response.Undefined? || response.Null? then Err(Prop(response, "error_code").failure)
    else Ok(RegistryErrorPrefix + ToStr(Prop(response, "error_code").value) + " - "
            + ToStr(Prop(response, "message").value))
  }

  /** The rejection for a registry error body, or the TypeError that reading it throws. */
  function RejectWithRegistryError(response: Value): seq<Effect>
  {
    match RegistryErrorMessage(response)
    case Err(f) => [Throw(f)]
    case Ok(m) => [Reject(Error(m))]
  }

  /** `JSON.parse(JSON.parse(data).schema)` resolved: the schema travels as JSON text inside JSON. */
  function ResolveParsedSchema(json: JsonLib, response: Value): seq<Effect>
  {
    match Prop(response, "schema")
    case Err(f) => [Throw(f)]
    case Ok(schemaStr) =>
      match json.parse(ToStr(schemaStr))
      case Err(f) => [Throw(f)]
      case Ok(schema) => [Resolve(schema)]
  }

  /** The decimal text of the registry's not-found code. */
  lemma Code404Text()
    ensures ToStr(Num(404)) == "404"
  {
    assert NatToString(4) == "4";
    assert NatToString(40) == NatToString(4) + ['0'];
    assert NatToString(404) == NatToString(40) + ['4'];
  }

  /** The error message the registry's 404 body produces. */
  lemma NotFoundMessage()
    ensures RegistryErrorMessage(Obj([("error_code", Num(404)), ("message", Str("Schema not found"))]))
            == Ok("Schema registry error: 404 - Schema not found")
  {
    var fields := [("error_code", Num(404)), ("message", Str("Schema not found"))];
    assert LastField(fields, "message") == Str("Schema not found");
    assert fields[..1] == [("error_code", Num(404))];
    assert LastField(fields, "error_code") == LastField(fields[..1], "error_code") == Num(404);
    Code404Text();
    assert RegistryErrorPrefix + "404" + " - " + "Schema not found" == "Schema registry error: 404 - Schema not found";
  }
}
