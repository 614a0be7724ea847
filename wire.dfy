/**
 * The Confluent wire format: a magic byte (0), the schema id as a 4-byte big-endian unsigned
 * integer, then the codec's payload.
 */
module Wire {
  import opened Js

  const HeaderSize: nat := 5
  const UInt32Limit: int := 0x1_0000_0000
  const MagicByteMessage: string := "Message needs the magic byte to be compliant with Confluent."
  /** Node's out-of-range error; its exact wording is not modelled. */
  const OutOfRange: Failure := RangeError("The value is out of range")
  /** Node's read-past-the-end error; its exact wording is not modelled. */
  const OutOfBounds: Failure := RangeError("Attempt to access memory outside buffer bounds")

  predicate IsUInt32(n: int) { 0 <= n < UInt32Limit }

  /** The four bytes `writeUInt32BE` stores, most significant first. */
  function BE32(n: int): (b: seq<byte>)
    requires IsUInt32(n)
    ensures |b| == 4
  {
    [(n / 0x100 / 0x100 / 0x100) as byte, (n / 0x100 / 0x100 % 0x100) as byte,
     (n / 0x100 % 0x100) as byte, (n % 0x100) as byte]
  }

  /** The number `readUInt32BE` reads from four bytes. */
  function ReadBE32(b: seq<byte>): (n: int)
    requires |b| == 4
    ensures IsUInt32(n)
  {
    ((b[0] as int * 0x100 + b[1] as int) * 0x100 + b[2] as int) * 0x100 + b[3] as int
  }

  lemma ReadBE32OfBE32(n: int)
    requires IsUInt32(n)
    ensures ReadBE32(BE32(n)) == n
  {
    var a := n / 0x100;
    var c := a / 0x100;
    var d := c / 0x100;
    assert n == a * 0x100 + n % 0x100;
    assert a == c * 0x100 + a % 0x100;
    assert c == d * 0x100 + c % 0x100;
  }

  lemma DivModByte(q: int, r: int)
    requires 0 <= r < 0x100
    ensures (q * 0x100 + r) / 0x100 == q && (q * 0x100 + r) % 0x100 == r
  {
  }

  lemma BE32OfReadBE32(b: seq<byte>)
    requires |b| == 4
    ensures BE32(ReadBE32(b)) == b
  {
    var n := ReadBE32(b);
    var b0, b1, b2, b3 := b[0] as int, b[1] as int, b[2] as int, b[3] as int;
    var c := b0 * 0x100 + b1;
    var a := c * 0x100 + b2;
    assert n == a * 0x100 + b3;
    DivModByte(a, b3);
    DivModByte(c, b2);
    DivModByte(b0, b1);
    assert n / 0x100 / 0x100 / 0x100 == b0;
    assert n / 0x100 / 0x100 % 0x100 == b1;
    assert n / 0x100 % 0x100 == b2;
    assert n % 0x100 == b3;
    var r := BE32(n);
    assert r[0] == b[0] && r[1] == b[1] && r[2] == b[2] && r[3] == b[3];
  }

  /**
   * The frame the framing functions build: `writeUInt8(version)` rejects a version outside a byte,
   * `writeUInt32BE(id, 1)` rejects an id that is not an unsigned 32-bit integer.
   */
  function Frame(schemaId: Value, payload: seq<byte>, version: int): Result<seq<byte>>
  {
    if !(0 <= version < 0x100) then Err(OutOfRange)
    else if !(schemaId.Num? && IsUInt32(schemaId.n)) then Err(OutOfRange)
    else Ok([version as byte] + BE32(schemaId.n) + payload)
  }

  /** Builds the frame in a buffer of `|payload| + 5` bytes, writing at offsets 0, 1 and 5. */
  method GetStandard(schemaId: Value, payload: seq<byte>, version: int) returns (r: Result<seq<byte>>)
    ensures r == Frame(schemaId, payload, version)
  {
    var message := new byte[|payload| + HeaderSize];
    if !(0 <= version < 0x100) {
      return Err(OutOfRange);
    }
    message[0] := version as byte;
    if !(schemaId.Num? && IsUInt32(schemaId.n)) {
      return Err(OutOfRange);
    }
    var id := BE32(schemaId.n);
    message[1], message[2], message[3], message[4] := id[0], id[1], id[2], id[3];
    var i := 0;
    while i < |payload|
      invariant 0 <= i <= |payload|
      invariant message[..HeaderSize] == [version as byte] + id
      invariant forall k :: 0 <= k < i ==> message[HeaderSize + k] == payload[k]
    {
      message[HeaderSize + i] := payload[i];
      i := i + 1;
    }
    assert message[..] == message[..HeaderSize] + payload;
    r := Ok(message[..]);
  }

  /** Every successful frame: length `|payload| + 5`, byte 0 the version, bytes 1..4 the id, then the payload. */
  lemma FrameLayout(schemaId: Value, payload: seq<byte>, version: int)
    ensures Frame(schemaId, payload, version).Ok? <==>
              0 <= version < 0x100 && schemaId.Num? && IsUInt32(schemaId.n)
    ensures Frame(schemaId, payload, version).Ok? ==>
              var f := Frame(schemaId, payload, version).value;
              && |f| == |payload| + HeaderSize
              && f[0] as int == version
              && ReadBE32(f[1..HeaderSize]) == schemaId.n
              && f[HeaderSize..] == payload
  {
    if Frame(schemaId, payload, version).Ok? {
      var f := Frame(schemaId, payload, version).value;
      assert f[1..HeaderSize] == BE32(schemaId.n);
      ReadBE32OfBE32(schemaId.n);
    }
  }

  /** The frame of the Avro string "testing" under id 1. */
  lemma FrameExample()
    ensures Frame(Num(1), [14, 116, 101, 115, 116, 105, 110, 103], 0)
            == Ok([0, 0, 0, 0, 1, 14, 116, 101, 115, 116, 105, 110, 103])
  {
    var b := BE32(1);
    assert b[0] == 0 && b[1] == 0 && b[2] == 0 && b[3] == 1;
    assert b == [0, 0, 0, 1];
    var p: seq<byte> := [14, 116, 101, 115, 116, 105, 110, 103];
    assert [0 as byte] + b + p == [0, 0, 0, 0, 1, 14, 116, 101, 115, 116, 105, 110, 103];
  }

  /**
   * The header check of a decoder: reading byte 0 of an empty buffer fails, a non-zero magic byte
   * is rejected before the id is read, and the id read at offset 1 needs five bytes.
   */
  function ParseHeader(message: seq<byte>): (r: Result<int>)
    ensures r.Ok? ==> |message| >= HeaderSize && message[0] == 0 && IsUInt32(r.value)
    ensures |message| >= 1 && message[0] != 0 ==> r == Err(Error(MagicByteMessage))
  {
    if |message| < 1 then Err(OutOfBounds)
    else if message[0] != 0 then Err(Error(MagicByteMessage))
    else if |message| < HeaderSize then Err(OutOfBounds)
    else Ok(ReadBE32(message[1..HeaderSize]))
  }

  /** A frame built with version 0 passes the magic check and yields the id it was built with. */
  lemma HeaderRoundTrip(id: int, payload: seq<byte>)
    requires IsUInt32(id)
    ensures Frame(Num(id), payload, 0).Ok?
    ensures ParseHeader(Frame(Num(id), payload, 0).value) == Ok(id)
    ensures Frame(Num(id), payload, 0).value[HeaderSize..] == payload
  {
    var f := Frame(Num(id), payload, 0).value;
    assert f[1..HeaderSize] == BE32(id);
    ReadBE32OfBE32(id);
  }

  /** Conversely, every message the header check accepts is a version-0 frame of the id it reads. */
  lemma ParsedHeaderIsFrame(message: seq<byte>)
    requires ParseHeader(message).Ok?
    ensures Frame(Num(ParseHeader(message).value), message[HeaderSize..], 0) == Ok(message)
  {
    var n := ParseHeader(message).value;
    BE32OfReadBE32(message[1..HeaderSize]);
    assert message == [0 as byte] + message[1..HeaderSize] + message[HeaderSize..];
  }
}
