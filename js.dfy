/** JavaScript values, errors and the JSON library, as far as the schema-registry client uses them. */
module Js {

  /** An octet of a Node Buffer. */
  newtype byte = b: int | 0 <= b < 0x100

  datatype Option<+T> = None | Some(value: T)

  /** A JavaScript value: JSON data plus `undefined`. Numbers are integers in this model. */
  datatype Value =
    | Undefined
    | Null
    | Bool(b: bool)
    | Num(n: int)
    | Str(s: string)
    | Arr(items: seq<Value>)
    | Obj(fields: seq<(string, Value)>)

  /** JavaScript truthiness, the test behind `if (!x)`. */
  predicate Truthy(v: Value)
  {
    match v
    case Undefined => false
    case Null => false
    case Bool(b) => b
    case Num(n) => n != 0
    case Str(s) => s != ""
    case Arr(_) => true
    case Obj(_) => true
  }

  /** Decimal digits of a natural number, most significant first. */
  function NatToString(n: nat): (s: string)
    ensures |s| >= 1
    ensures forall i :: 0 <= i < |s| ==> '0' <= s[i] <= '9'
  {
    if n < 10 then [(48 + n) as char] else NatToString(n / 10) + [(48 + n % 10) as char]
  }

  function NumToString(n: int): string
  {
    if n < 0 then "-" + NatToString(-n) else NatToString(n)
  }

  /** `parts.join(sep)`. */
  function Join(parts: seq<string>, sep: string): (r: string)
    ensures |parts| == 1 ==> r == parts[0]
  {
    if |parts| == 0 then ""
    else if |parts| == 1 then parts[0]
    else parts[0] + sep + Join(parts[1..], sep)
  }

  /** The string conversion a template literal `${v}` applies. */
  function ToStr(v: Value): string
  {
    match v
    case Undefined => "undefined"
    case Null => "null"
    case Bool(b) => if b then "true" else "false"
    case Num(n) => NumToString(n)
    case Str(s) => s
    case Arr(items) =>
      // Array.prototype.toString: elements joined by ",", null and undefined shown as ""
      Join(seq(|items|, i requires 0 <= i < |items| =>
             if items[i].Undefined? || items[i].Null? then "" else ToStr(items[i])), ",")
    case Obj(_) => "[object Object]"
  }

  /** The value of the last field named `name` (JSON.parse keeps the last duplicate). */
  function LastField(fields: seq<(string, Value)>, name: string): (r: Value)
    ensures r == Undefined || exists i :: 0 <= i < |fields| && fields[i] == (name, r)
  {
    if |fields| == 0 then Undefined
    else if fields[|fields| - 1].0 == name then fields[|fields| - 1].1
    else LastField(fields[..|fields| - 1], name)
  }

  /** Property read `v.name`: a TypeError on null and undefined, `undefined` when absent. */
  function Prop(v: Value, name: string): (r: Result<Value>)
    ensures r.Err? <==> v.Undefined? || v.Null?
  {
    match v
    case Undefined => Err(TypeError("Cannot read properties of undefined (reading '" + name + "')"))
    case Null => Err(TypeError("Cannot read properties of null (reading '" + name + "')"))
    case Obj(fields) => Ok(LastField(fields, name))
    case _ => Ok(Undefined)
  }

  /** Byte length of a string's UTF-8 encoding (Buffer.byteLength). */
  function Utf8Length(s: string): (n: nat)
    ensures |s| <= n <= 4 * |s|
  {
    if |s| == 0 then 0
    else
      var c := s[0] as int;
      (if c < 0x80 then 1 else if c < 0x800 then 2 else if c < 0x1_0000 then 3 else 4)
      + Utf8Length(s[1..])
  }

  /** One entry reported by the codec's validation hook: `{path, value, expectedType}`. */
  datatype Violation = Violation(path: string, value: Value, expectedType: string)

  /** The fields both ValidationError classes set; both are TypeError subclasses. */
  datatype ValidationError = ValidationError(name: string, message: string, validationErrors: seq<Violation>)

  /** What `toJSON()` of either ValidationError class returns under `error` (the stack trace is left out). */
  datatype ErrorJson = ErrorJson(name: string, message: string, errors: seq<Violation>)

  function ToJson(e: ValidationError): (j: ErrorJson)
    ensures j.name == e.name && j.message == e.message && j.errors == e.validationErrors
  {
    ErrorJson(e.name, e.message, e.validationErrors)
  }

  /** The failures the client can raise or pass through. */
  datatype Failure =
    | Error(message: string)
    | TypeError(message: string)
    | RangeError(message: string)
    | SyntaxError(message: string)
    | TransportError(cause: string)
    | CodecError(message: string)
    | Validation(error: ValidationError)

  datatype Result<+T> = Ok(value: T) | Err(failure: Failure)
  {
    predicate IsFailure() { Err? }
    function PropagateFailure<U>(): Result<U> requires Err? { Err(failure) }
    function Extract(): T requires Ok? { value }
  }

  datatype Outcome = Pass | Fail(failure: Failure)

  /** The JSON library, outside the model: JSON.stringify, JSON.stringify(_, null, 2) and JSON.parse. */
  datatype JsonLib = JsonLib(
    stringify: Value -> string,
    stringifyIndented: Value -> string,
    parse: string -> Result<Value>)
}
