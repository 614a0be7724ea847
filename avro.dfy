/** The Avro codec library as the client sees it, and the collection of its validation reports. */
module Avro {
  import opened Js

  /** A type compiled by `avro.Type.forSchema`; the model keeps the schema it came from. */
  datatype AvroType = AvroType(schema: Value)

  /** One call of the `errorHook` given to `isValid`: field path, offending value, `type.toString()`. */
  datatype HookCall = HookCall(path: seq<string>, value: Value, expectedType: string)

  /**
   * The codec, outside the model. `forSchema` may reject a schema; `errorHookCalls` lists the hook
   * calls `isValid` makes, in order; `toBuffer` serialises (and may throw); `decode` reads a value
   * from a buffer starting at an offset.
   */
  datatype Codec = Codec(
    forSchema: Value -> Result<AvroType>,
    errorHookCalls: (AvroType, Value) -> seq<HookCall>,
    toBuffer: (AvroType, Value) -> Result<seq<byte>>,
    decode: (AvroType, seq<byte>, int) -> Result<Value>)

  /** The record pushed for one hook call: the path joined with ".". */
  function ToViolation(c: HookCall): (v: Violation)
    ensures v.value == c.value && v.expectedType == c.expectedType
    ensures |c.path| == 1 ==> v.path == c.path[0]
  {
    Violation(Join(c.path, "."), c.value, c.expectedType)
  }

  /** The value of a violation list as JSON data (an array of `{path, value, expectedType}`). */
  function ViolationsValue(list: seq<Violation>): (v: Value)
    ensures v.Arr? && |v.items| == |list|
  {
    Arr(seq(|list|, i requires 0 <= i < |list| =>
      Obj([("path", Str(list[i].path)), ("value", list[i].value), ("expectedType", Str(list[i].expectedType))])))
  }

  /** The array the hook fills: one entry per hook call, in call order. */
  method CollectViolations(calls: seq<HookCall>) returns (errors: seq<Violation>)
    ensures |errors| == |calls|
    ensures forall i :: 0 <= i < |calls| ==> errors[i] == ToViolation(calls[i])
  {
    errors := [];
    var i := 0;
    while i < |calls|
      invariant 0 <= i <= |calls|
      invariant |errors| == i
      invariant forall k :: 0 <= k < i ==> errors[k] == ToViolation(calls[k])
    {
      errors := errors + [ToViolation(calls[i])];
      i := i + 1;
    }
  }

  /** What CollectViolations computes, as a function for use in specifications. */
  function Violations(calls: seq<HookCall>): (errors: seq<Violation>)
    ensures |errors| == |calls|
    ensures forall i :: 0 <= i < |calls| ==> errors[i] == ToViolation(calls[i])
  {
    seq(|calls|, i requires 0 <= i < |calls| => ToViolation(calls[i]))
  }
}
