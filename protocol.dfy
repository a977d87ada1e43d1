/** The wire protocol shared by client and server (client/src/lib.rs): the
    message shapes, the handshake constants, and the framing of every
    message as an 8-byte little-endian length followed by the payload. */
module Protocol {
  import opened Base
  import opened Bytes

  /** Sent by the server at the start of a connection and echoed back by
      the client: the 16 ASCII bytes of `ARMABENCH-VER010`. */
  const HEADER_ID: seq<byte> := AsciiBytes("ARMABENCH-VER010")

  /** The header is the string `ARMABENCH-VER010` as Rust stores it:
      sixteen bytes, its UTF-8 encoding. */
  lemma HeaderIdText()
    ensures |HEADER_ID| == 16
    ensures HEADER_ID == Utf8("ARMABENCH-VER010")
  {
    Utf8Ascii("ARMABENCH-VER010");
  }

  const DEFAULT_PORT: u16 := 7562

  /** A 64-bit float, carried as its bit pattern; the model does no
      arithmetic on timings. */
  datatype F64 = F64(bits: bv64)

  /** A value of the scripting language (`arma_rs::Value`), carried unchanged. */
  datatype Value =
    | Null
    | Number(number: F64)
    | Array(items: seq<Value>)
    | Boolean(flag: bool)
    | Text(text: string)
    | Unknown(text: string)

  datatype ServerConfig = ServerConfig(binary: string, branch: string, branchPassword: string)

  /** `ServerConfig::default()`. */
  function DefaultConfig(): ServerConfig
  {
    ServerConfig("arma3server_x64", "public", "")
  }

  datatype CompareRequest = CompareRequest(id: u16, sqfc: bool, content: seq<byte>)

  datatype Request =
    | Execute(content: string)
    | Compare(items: seq<CompareRequest>)

  datatype ExecuteResult = ExecuteResult(time: F64, iter: u32, ret: Value)

  datatype CompareResult = CompareResult(id: u16, time: F64, iter: u32, ret: Value)

  datatype Response =
    | Error(message: string)
    | Execute(executed: Result<ExecuteResult, string>)
    | Compare(compared: Result<seq<CompareResult>, string>)

  /** A payload codec (MessagePack for the wire, JSON for result files),
      supplied from outside the model. */
  datatype Codec<!T> = Codec(encode: T -> Result<seq<byte>, string>, decode: seq<byte> -> Result<T, string>)

  /** The assumption made of a payload codec: decoding what it encoded gives
      the message back. */
  ghost predicate RoundTrips<T(!new)>(c: Codec<T>)
  {
    forall m :: c.encode(m).Ok? ==> c.decode(c.encode(m).value) == Ok(m)
  }

  /** The codecs both ends use, and the largest `usize` of the reading side. */
  datatype Wire = Wire(usizeMax: nat, config: Codec<ServerConfig>, request: Codec<Request>, response: Codec<Response>)

  /** Why reading a message failed: the stream ended inside the length or
      the payload, the length does not fit in `usize`, or the payload codec
      rejected the bytes. The Rust code turns each into its `to_string()`. */
  datatype ReadError = UnexpectedEof | LengthOverflow | Malformed(reason: string)

  /** A connection as seen from one end: the bytes the peer sends (read
      from the front), and the bytes written to it, of which a prefix has
      been flushed. */
  class Stream {
    const incoming: seq<byte>
    var pos: nat
    var sent: seq<byte>
    var flushed: nat

    ghost predicate Valid()
      reads this
    {
      pos <= |incoming| && flushed <= |sent|
    }

    /** The bytes not read yet. */
    function Remaining(): seq<byte>
      reads this
      requires Valid()
    {
      incoming[pos..]
    }

    constructor (incoming: seq<byte>)
      ensures Valid()
      ensures this.incoming == incoming && pos == 0 && sent == [] && flushed == 0
    {
      this.incoming := incoming;
      pos, sent, flushed := 0, [], 0;
    }

    /** `read_exact`: fill `buf` from the stream, or fail at end of stream,
        having consumed what was left. */
    method ReadExact(buf: array<byte>) returns (ok: bool)
      requires Valid()
      modifies this`pos, buf
      ensures Valid()
      ensures ok == (buf.Length <= |old(Remaining())|)
      ensures ok ==> buf[..] == old(Remaining())[..buf.Length] && pos == old(pos) + buf.Length
      ensures !ok ==> pos == |incoming|
    {
      if buf.Length <= |incoming| - pos {
        forall i | 0 <= i < buf.Length {
          buf[i] := incoming[pos + i];
        }
        pos := pos + buf.Length;
        ok := true;
      } else {
        pos := |incoming|;
        ok := false;
      }
    }

    /** `write_all`: append bytes to the connection. */
    method WriteAll(bytes: seq<byte>)
      requires Valid()
      modifies this`sent
      ensures Valid()
      ensures sent == old(sent) + bytes
    {
      sent := sent + bytes;
    }

    /** `flush`: everything written so far is handed to the peer. */
    method Flush()
      requires Valid()
      modifies this`flushed
      ensures Valid()
      ensures flushed == |sent|
    {
      flushed := |sent|;
    }
  }

  /** The bytes `write` emits for a payload: its length as a little-endian
      `u64`, then the payload. */
  function Frame(payload: seq<byte>): (f: seq<byte>)
    ensures |f| == 8 + |payload|
    ensures f[8..] == payload
  {
    U64Le(|payload|) + payload
  }

  /** Encoding a message and framing it; fails when the codec fails. */
  function EncodeFrame<T>(c: Codec<T>, m: T): Result<seq<byte>, string>
  {
    match c.encode(m)
    case Ok(p) => Ok(Frame(p))
    case Err(e) => Err(e)
  }

  /** What reading one message from a stream holding `s` gives, and how
      many bytes it consumes. */
  datatype Decoded<T> = Decoded(result: Result<T, ReadError>, consumed: nat)

  /** `from_reader` on a stream whose unread bytes are `s`. */
  function ReadFrame<T>(c: Codec<T>, usizeMax: nat, s: seq<byte>): (d: Decoded<T>)
    ensures d.consumed <= |s|
    ensures d.result.Ok? ==> d.consumed >= 8
  {
    if |s| < 8 then Decoded(Err(UnexpectedEof), |s|)
    else
      var len := FromLe(s[..8]);
      if len > usizeMax then Decoded(Err(LengthOverflow), 8)
      else if |s| - 8 < len then Decoded(Err(UnexpectedEof), |s|)
      else match c.decode(s[8..8 + len])
        case Ok(m) => Decoded(Ok(m), 8 + len)
        case Err(e) => Decoded(Err(Malformed(e)), 8 + len)
  }

  /** The length header `write` emits decodes to the payload's length. */
  lemma FrameLength(payload: seq<byte>)
    requires |payload| < TWO_64
    ensures FromLe(Frame(payload)[..8]) == |payload|
  {
    assert Frame(payload)[..8] == U64Le(|payload|);
    U64LeRoundTrip(|payload|);
  }

  /** A successful read consumes exactly the 8 length bytes and the payload
      they announce, and the message is the payload's decoding. */
  lemma ReadFrameConsumes<T>(c: Codec<T>, usizeMax: nat, s: seq<byte>)
    requires ReadFrame(c, usizeMax, s).result.Ok?
    ensures var d := ReadFrame(c, usizeMax, s);
      d.consumed == 8 + FromLe(s[..8]) && c.decode(s[8..d.consumed]) == Ok(d.result.value)
  {
  }

  /** A stream that ends inside the length or inside the payload yields an
      error, never a message. */
  lemma ReadFrameShort<T>(c: Codec<T>, usizeMax: nat, s: seq<byte>)
    requires |s| < 8 || (FromLe(s[..8]) <= usizeMax && |s| < 8 + FromLe(s[..8]))
    ensures ReadFrame(c, usizeMax, s) == Decoded(Err(UnexpectedEof), |s|)
  {
  }

  /** A length that does not fit in the reader's `usize` yields an error
      after consuming the 8 length bytes. */
  lemma ReadFrameOverflow<T>(c: Codec<T>, usizeMax: nat, s: seq<byte>)
    requires |s| >= 8 && FromLe(s[..8]) > usizeMax
    ensures ReadFrame(c, usizeMax, s) == Decoded(Err(LengthOverflow), 8)
  {
  }

  /** Framing round trip: reading back what `write` emitted gives the
      message, consumes exactly its frame and leaves what follows. */
  lemma {:induction false} FrameRoundTrip<T(!new)>(c: Codec<T>, usizeMax: nat, m: T, rest: seq<byte>)
    requires RoundTrips(c) && c.encode(m).Ok?
    requires |c.encode(m).value| < TWO_64 && |c.encode(m).value| <= usizeMax
    ensures var f := EncodeFrame(c, m).value;
      ReadFrame(c, usizeMax, f + rest) == Decoded(Ok(m), |f|)
  {
    var p := c.encode(m).value;
    var s := Frame(p) + rest;
    assert s[..8] == Frame(p)[..8];
    FrameLength(p);
    assert s[8..8 + |p|] == p;
  }

  /** Conversely, every message the reader accepts was framed as `write`
      frames it: the consumed bytes are the frame of the payload read. */
  lemma {:induction false} ReadFrameIsFrame<T>(c: Codec<T>, usizeMax: nat, s: seq<byte>)
    requires ReadFrame(c, usizeMax, s).result.Ok?
    requires ReadFrame(c, usizeMax, s).consumed - 8 < TWO_64
    ensures var n := ReadFrame(c, usizeMax, s).consumed;
      s[..n] == Frame(s[8..n])
  {
    var n := ReadFrame(c, usizeMax, s).consumed;
    var len := FromLe(s[..8]);
    assert n == 8 + len;
    ToFromLe(s[..8]);
    assert len % TWO_64 == len;
    assert U64Le(len) == s[..8];
    assert s[..n] == s[..8] + s[8..n];
  }

  /** `from_reader`: read the 8-byte length into a fixed buffer, check that
      it fits in `usize`, read that many payload bytes, decode them. */
  method FromReader<T>(c: Codec<T>, usizeMax: nat, reader: Stream) returns (r: Result<T, ReadError>)
    requires reader.Valid()
    modifies reader`pos
    ensures reader.Valid()
    ensures var d := ReadFrame(c, usizeMax, old(reader.Remaining()));
      r == d.result && reader.pos == old(reader.pos) + d.consumed
  {
    ghost var s := reader.Remaining();
    var lenBuf := new byte[8];
    var ok := reader.ReadExact(lenBuf);
    if !ok {
      return Err(UnexpectedEof);
    }
    assert reader.Remaining() == s[8..];
    var len := FromLe(lenBuf[..]);
    if len > usizeMax {
      return Err(LengthOverflow);
    }
    var payload := new byte[len];
    ok := reader.ReadExact(payload);
    if !ok {
      return Err(UnexpectedEof);
    }
    assert payload[..] == s[8..][..len] == s[8..8 + len];
    match c.decode(payload[..]) {
      case Ok(m) => r := Ok(m);
      case Err(e) => r := Err(Malformed(e));
    }
  }

  /** `from_async_reader`: the same steps on an asynchronous stream, so
      the same bytes are consumed and the same message results. */
  method FromAsyncReader<T>(c: Codec<T>, usizeMax: nat, reader: Stream) returns (r: Result<T, ReadError>)
    requires reader.Valid()
    modifies reader`pos
    ensures reader.Valid()
    ensures var d := ReadFrame(c, usizeMax, old(reader.Remaining()));
      r == d.result && reader.pos == old(reader.pos) + d.consumed
  {
    r := FromReader(c, usizeMax, reader);
  }

  /** `write`: encode the payload (a codec failure writes nothing), copy
      its length into a fixed 8-byte buffer, write the buffer, then the
      payload. */
  method Write<T>(c: Codec<T>, m: T, writer: Stream) returns (r: Result<(), string>)
    requires writer.Valid()
    modifies writer`sent
    ensures writer.Valid()
    ensures c.encode(m).Err? ==> r == Err(c.encode(m).error) && writer.sent == old(writer.sent)
    ensures c.encode(m).Ok? ==> r == Ok(()) && writer.sent == old(writer.sent) + Frame(c.encode(m).value)
  {
    var encoded := c.encode(m);
    if encoded.Err? {
      return Err(encoded.error);
    }
    var payload := encoded.value;
    var lenBuf := new byte[8];
    var le := U64Le(|payload|);
    forall i | 0 <= i < 8 {
      lenBuf[i] := le[i];
    }
    writer.WriteAll(lenBuf[..]);
    writer.WriteAll(payload);
    r := Ok(());
  }

  /** `write_async`: the same bytes as `write`, then a flush. */
  method WriteAsync<T>(c: Codec<T>, m: T, writer: Stream) returns (r: Result<(), string>)
    requires writer.Valid()
    modifies writer`sent, writer`flushed
    ensures writer.Valid()
    ensures c.encode(m).Err? ==> r == Err(c.encode(m).error) && writer.sent == old(writer.sent) && writer.flushed == old(writer.flushed)
    ensures c.encode(m).Ok? ==> r == Ok(()) && writer.sent == old(writer.sent) + Frame(c.encode(m).value) && writer.flushed == |writer.sent|
  {
    r := Write(c, m, writer);
    if r.Ok? {
      writer.Flush();
    }
  }
}
