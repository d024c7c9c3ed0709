/** The binary frame layout shared with the server: a 1-byte kind, a 2-byte
    big-endian body length, then the body (src/renderer/socket.ts:54-63 reads
    it, src/renderer/socket.ts:96-115 writes it). */
module Codec {
  import opened Common
  import opened JsValue

  /** Bytes before the body: kind and length. */
  const HeaderSize: nat := 3

  /** The largest length the 16-bit length field can hold. */
  const MaxBodyLength: nat := 65535

  /** `buf.readUInt8(off)`: throws a RangeError past the end. */
  function ReadUInt8(buf: seq<Byte>, off: nat): (r: Result<Byte, Fault>)
    ensures r.Ok? <==> off < |buf|
    ensures r.Err? ==> r.error == RangeError
  {
    if off < |buf| then Ok(buf[off]) else Err(RangeError)
  }

  /** `buf.readUInt16BE(off)`: the most significant byte comes first. */
  function ReadUInt16BE(buf: seq<Byte>, off: nat): (r: Result<nat, Fault>)
    ensures r.Ok? <==> off + 2 <= |buf|
    ensures r.Ok? ==> r.value <= MaxBodyLength
    ensures r.Err? ==> r.error == RangeError
  {
    if off + 2 <= |buf| then Ok(buf[off] as int * 256 + buf[off + 1] as int) else Err(RangeError)
  }

  /** The two bytes `buf.writeUInt16BE(n, off)` stores. */
  function Be16(n: nat): (r: seq<Byte>)
    requires n <= MaxBodyLength
    ensures |r| == 2
    ensures ReadUInt16BE(r, 0) == Ok(n)
  {
    [(n / 256) as Byte, (n % 256) as Byte]
  }

  /** The bytes `send` puts on the wire for a kind and an already serialised
      body. The buffer library throws for a kind outside one byte and the
      length field cannot hold more than 65535; both are preconditions here. */
  function EncodeFrame(kind: int, body: seq<Byte>): (frame: seq<Byte>)
    requires 0 <= kind < 256
    requires |body| <= MaxBodyLength
    ensures |frame| == HeaderSize + |body|
    ensures ReadUInt8(frame, 0) == Ok(kind)
    ensures ReadUInt16BE(frame, 1) == Ok(|body|)
    ensures frame[HeaderSize..] == body
  {
    [kind as Byte] + Be16(|body|) + body
  }

  /** The serialised body of a payload: `JSON.stringify(data)` when `data` is
      truthy, nothing otherwise (src/renderer/socket.ts:96-106). */
  function SerializedBody(json: Json, data: Value): (body: seq<Byte>)
    ensures !Truthy(data) ==> body == []
  {
    if Truthy(data) then json.stringify(data) else []
  }

  /** The serialised payload fits in the 16-bit length field. */
  predicate BodyFits(json: Json, data: Value) {
    |SerializedBody(json, data)| <= MaxBodyLength
  }

  /** The whole frame `send(kind, data)` transmits on an open transport. */
  function EncodeMessage(json: Json, kind: int, data: Value): (frame: seq<Byte>)
    requires 0 <= kind < 256
    requires BodyFits(json, data)
    ensures !Truthy(data) ==> |frame| == HeaderSize && ReadUInt16BE(frame, 1) == Ok(0)
  {
    EncodeFrame(kind, SerializedBody(json, data))
  }

  /** The buffer steps of `send`: allocate a zero-filled buffer of 3 + body
      length, write the kind, the big-endian length, then the body text byte
      by byte. The result is the frame layout above. */
  method WriteFrame(kind: int, body: seq<Byte>) returns (buf: seq<Byte>)
    requires 0 <= kind < 256
    requires |body| <= MaxBodyLength
    ensures |buf| == HeaderSize + |body|
    ensures buf[0] == kind
    ensures buf[1] as int * 256 + buf[2] as int == |body|
    ensures buf[HeaderSize..] == body
    ensures buf == EncodeFrame(kind, body)
  {
    var dataLen := HeaderSize + |body|;
    buf := seq(dataLen, _ => 0);
    buf := buf[0 := kind];
    var len := |body|;
    buf := buf[1 := len / 256][2 := len % 256];
    var i := 0;
    while i < |body|
      invariant 0 <= i <= |body|
      invariant |buf| == dataLen
      invariant buf[0] == kind && buf[1] == len / 256 && buf[2] == len % 256
      invariant buf[HeaderSize..HeaderSize + i] == body[..i]
    {
      buf := buf[HeaderSize + i := body[i]];
      i := i + 1;
    }
    assert buf[HeaderSize..] == buf[HeaderSize..HeaderSize + |body|];
  }

  /** What `onMessage` extracts from a binary message before dispatching. */
  datatype Frame = Frame(kind: Byte, length: nat, payload: Value)

  /** The decoding half of `onMessage` (src/renderer/socket.ts:54-63). The
      kind and length reads throw on a buffer shorter than the header. The
      payload stays `null` for a zero length; otherwise the WHOLE tail after
      the header is parsed, whatever the length field says. */
  function DecodeFrame(json: Json, buf: seq<Byte>): (r: Result<Frame, Fault>)
    ensures r == Err(RangeError) <==> |buf| < HeaderSize
    ensures r.Ok? ==> ReadUInt8(buf, 0) == Ok(r.value.kind)
    ensures r.Ok? ==> ReadUInt16BE(buf, 1) == Ok(r.value.length)
    ensures r.Ok? && r.value.length == 0 ==> r.value.payload == Null
    ensures r.Ok? && r.value.length > 0 ==> json.parse(buf[HeaderSize..]) == Some(r.value.payload)
    ensures r == Err(SyntaxError) <==>
              |buf| >= HeaderSize && buf[1] as int * 256 + buf[2] as int > 0 && json.parse(buf[HeaderSize..]).None?
    ensures r.Ok? || r.error == RangeError || r.error == SyntaxError
  {
    match ReadUInt8(buf, 0)
    case Err(e) => Err(e)
    case Ok(kind) =>
      match ReadUInt16BE(buf, 1)
      case Err(e) => Err(e)
      case Ok(len) =>
        if len > 0 then
          match json.parse(buf[HeaderSize..])
          case None => Err(SyntaxError)
          case Some(v) => Ok(Frame(kind, len, v))
        else
          Ok(Frame(kind, len, Null))
  }

  /** Decoding what `send` encodes gives back the kind, the body length and
      the payload; the payload is `null` exactly when the length is 0. */
  lemma MessageRoundTrip(json: Json, kind: int, data: Value)
    requires 0 <= kind < 256
    requires BodyFits(json, data)
    requires Truthy(data) ==> RoundTrips(json, data)
    ensures DecodeFrame(json, EncodeMessage(json, kind, data))
            == Ok(Frame(kind, |SerializedBody(json, data)|, if Truthy(data) then data else Null))
    ensures var f := DecodeFrame(json, EncodeMessage(json, kind, data)).value;
            f.payload == Null <==> f.length == 0
  {
  }

  /** The decoder does not look at the length field beyond testing it for
      zero: two frames with the same kind and tail and any non-zero lengths
      decode to the same payload, so a length that disagrees with the body is
      not detected. */
  lemma DecodeIgnoresDeclaredLength(json: Json, kind: Byte, hi: Byte, lo: Byte,
                                    hi': Byte, lo': Byte, tail: seq<Byte>)
    requires hi as int * 256 + lo as int > 0 && hi' as int * 256 + lo' as int > 0
    ensures var r := DecodeFrame(json, [kind, hi, lo] + tail);
            var r' := DecodeFrame(json, [kind, hi', lo'] + tail);
            r.Ok? == r'.Ok? && (r.Ok? ==> r.value.payload == r'.value.payload && r.value.kind == r'.value.kind)
  {
  }

  /** A header with a zero length decodes without consulting the codec, even
      when body bytes follow it. */
  lemma ZeroLengthSkipsParse(json: Json, kind: Byte, tail: seq<Byte>)
    ensures DecodeFrame(json, [kind, 0, 0] + tail) == Ok(Frame(kind, 0, Null))
  {
  }

  /** A non-zero length field with no body bytes after the header makes the
      parse of the empty tail throw: `01 00 05` publishes nothing. */
  lemma EmptyTailWithLengthThrows(json: Json, kind: Byte, hi: Byte, lo: Byte)
    requires RejectsEmpty(json)
    requires hi as int * 256 + lo as int > 0
    ensures DecodeFrame(json, [kind, hi, lo]) == Err(SyntaxError)
  {
    assert [kind, hi, lo][HeaderSize..] == [];
  }
}
