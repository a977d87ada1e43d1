/** The blocking client (client/src/client.rs): the handshake that opens a
    connection, and the request/response exchange of `execute` and
    `compare`. The stream the client holds behind its mutex is a `Stream`;
    the TCP connect itself is a parameter (null when it failed). */
module ClientSide {
  import opened Base
  import opened Bytes
  import opened Decimal
  import opened Protocol

  const INVALID_HEADER := "Invalid header ID"
  const INVALID_ACK := "Invalid ACK"
  const INVALID_RESPONSE := "Invalid response"

  /** The bytes the client sends during the handshake, how many it reads,
      and how `connect_with_port` ends. */
  datatype HandshakeTrace = HandshakeTrace(sent: seq<byte>, consumed: nat, outcome: Run<Result<(), string>>)

  /** The client side of the handshake against a server that sends
      `incoming`, where `configFrame` is the framed session configuration
      (or the codec's failure): send the header, read and check 16 bytes,
      send the configuration, read and check the one-byte acknowledgement. */
  function Handshake(incoming: seq<byte>, configFrame: Result<seq<byte>, string>): (t: HandshakeTrace)
    ensures t.consumed <= |incoming|
  {
    if |incoming| < 16 then HandshakeTrace(HEADER_ID, |incoming|, Panic("Failed to read header ID"))
    else if incoming[..16] != HEADER_ID then HandshakeTrace(HEADER_ID, 16, Done(Err(INVALID_HEADER)))
    else match configFrame
      case Err(_) => HandshakeTrace(HEADER_ID, 16, Panic("Failed to send server config"))
      case Ok(f) =>
        if |incoming| < 17 then HandshakeTrace(HEADER_ID + f, |incoming|, Panic("Failed to read ACK"))
        else if incoming[16] != 1 then HandshakeTrace(HEADER_ID + f, 17, Done(Err(INVALID_ACK)))
        else HandshakeTrace(HEADER_ID + f, 17, Done(Ok(())))
  }

  /** The client writes the header before it reads anything, and sends
      anything more (the configuration) only once the 16 bytes it read
      equal the header. */
  lemma HandshakeOrder(incoming: seq<byte>, configFrame: Result<seq<byte>, string>)
    ensures var t := Handshake(incoming, configFrame);
      |t.sent| >= 16 && t.sent[..16] == HEADER_ID &&
      (|t.sent| > 16 ==> |incoming| >= 16 && incoming[..16] == HEADER_ID)
  {
  }

  /** A wrong header ends the handshake with `Invalid header ID`, having
      sent nothing but the header. */
  lemma HandshakeBadHeader(incoming: seq<byte>, configFrame: Result<seq<byte>, string>)
    requires |incoming| >= 16 && incoming[..16] != HEADER_ID
    ensures Handshake(incoming, configFrame) == HandshakeTrace(HEADER_ID, 16, Done(Err(INVALID_HEADER)))
  {
  }

  /** An acknowledgement byte other than 1 ends the handshake with
      `Invalid ACK`. */
  lemma HandshakeBadAck(incoming: seq<byte>, f: seq<byte>)
    requires |incoming| >= 17 && incoming[..16] == HEADER_ID && incoming[16] != 1
    ensures Handshake(incoming, Ok(f)).outcome == Done(Err(INVALID_ACK))
  {
  }

  /** The bytes one call of `execute` or `compare` sends and reads, and
      the response it reads (or the panic that ends it). */
  datatype ExchangeTrace = ExchangeTrace(sent: seq<byte>, consumed: nat, response: Run<Response>)

  /** Write one request, then read one response; `writeFailure` is the
      message the call panics with when the request cannot be encoded. */
  function Exchange(w: Wire, request: Request, writeFailure: string, incoming: seq<byte>): (t: ExchangeTrace)
    ensures t.consumed <= |incoming|
  {
    match EncodeFrame(w.request, request)
    case Err(_) => ExchangeTrace([], 0, Panic(writeFailure))
    case Ok(f) =>
      var d := ReadFrame(w.response, w.usizeMax, incoming);
      match d.result
      case Err(_) => ExchangeTrace(f, d.consumed, Panic("Failed to read response"))
      case Ok(response) => ExchangeTrace(f, d.consumed, Done(response))
  }

  /** One call writes exactly the frame of its request, then reads exactly
      one response frame. */
  lemma ExchangeOneEach(w: Wire, request: Request, writeFailure: string, incoming: seq<byte>)
    requires EncodeFrame(w.request, request).Ok?
    requires Exchange(w, request, writeFailure, incoming).response.Done?
    ensures var t := Exchange(w, request, writeFailure, incoming);
      t.sent == EncodeFrame(w.request, request).value &&
      t.consumed == 8 + FromLe(incoming[..8]) &&
      ReadFrame(w.response, w.usizeMax, incoming[..t.consumed]).result == Ok(t.response.value)
  {
    var d := ReadFrame(w.response, w.usizeMax, incoming);
    ReadFrameConsumes(w.response, w.usizeMax, incoming);
    assert incoming[..d.consumed][..8] == incoming[..8];
    assert incoming[..d.consumed][8..d.consumed] == incoming[8..d.consumed];
  }

  /** What `execute` makes of the response it read. */
  function ExecuteOutcome(resp: Response): Result<ExecuteResult, string>
  {
    match resp
    case Execute(Ok(res)) => Ok(res)
    case Execute(Err(err)) => Err(err)
    case Error(err) => Err(err)
    case Compare(_) => Err(INVALID_RESPONSE)
  }

  /** What `compare` makes of the response it read. */
  function CompareOutcome(resp: Response): Result<seq<CompareResult>, string>
  {
    match resp
    case Compare(Ok(res)) => Ok(res)
    case Compare(Err(err)) => Err(err)
    case Error(err) => Err(err)
    case Execute(_) => Err(INVALID_RESPONSE)
  }

  class Client {
    const stream: Stream

    constructor (stream: Stream)
      ensures this.stream == stream
    {
      this.stream := stream;
    }

    /** `execute`: send `Request::Execute(content)`, read the response, map it. */
    method Execute(w: Wire, content: string) returns (r: Run<Result<ExecuteResult, string>>)
      requires stream.Valid()
      modifies stream`sent, stream`pos
      ensures stream.Valid()
      ensures var t := Exchange(w, Request.Execute(content), "Failed to send request", old(stream.Remaining()));
        stream.sent == old(stream.sent) + t.sent && stream.pos == old(stream.pos) + t.consumed &&
        r == match t.response
             case Panic(msg) => Panic(msg)
             case Done(resp) => Done(ExecuteOutcome(resp))
    {
      var written := Write(w.request, Request.Execute(content), stream);
      if written.Err? {
        return Panic("Failed to send request");
      }
      var read := FromReader(w.response, w.usizeMax, stream);
      if read.Err? {
        return Panic("Failed to read response");
      }
      r := Done(ExecuteOutcome(read.value));
    }

    /** `compare`: send `Request::Compare(items)`, read the response, map it. */
    method Compare(w: Wire, items: seq<CompareRequest>) returns (r: Run<Result<seq<CompareResult>, string>>)
      requires stream.Valid()
      modifies stream`sent, stream`pos
      ensures stream.Valid()
      ensures var t := Exchange(w, Request.Compare(items), "Failed to write request", old(stream.Remaining()));
        stream.sent == old(stream.sent) + t.sent && stream.pos == old(stream.pos) + t.consumed &&
        r == match t.response
             case Panic(msg) => Panic(msg)
             case Done(resp) => Done(CompareOutcome(resp))
    {
      var written := Write(w.request, Request.Compare(items), stream);
      if written.Err? {
        return Panic("Failed to write request");
      }
      var read := FromReader(w.response, w.usizeMax, stream);
      if read.Err? {
        return Panic("Failed to read response");
      }
      r := Done(CompareOutcome(read.value));
    }
  }

  /** `connect_with_port`: dial `host:port`, then run the handshake on the
      connection; a client is returned only when both checks pass. */
  method ConnectWithPort(host: string, port: u16, config: ServerConfig, w: Wire, stream: Stream?)
    returns (address: string, r: Run<Result<Client, string>>)
    requires stream != null ==> stream.Valid()
    modifies stream
    ensures address == host + ":" + ToDecimal(port)
    ensures stream == null ==> r == Panic("Failed to connect")
    ensures stream != null ==> stream.Valid()
    ensures stream != null ==>
      var t := Handshake(old(stream.Remaining()), EncodeFrame(w.config, config));
      && stream.sent == old(stream.sent) + t.sent
      && stream.pos == old(stream.pos) + t.consumed
      && (t.outcome.Panic? ==> r == Panic(t.outcome.message))
      && (t.outcome.Done? && t.outcome.value.Err? ==> r == Done(Err(t.outcome.value.error)))
      && (t.outcome == Done(Ok(())) ==> r.Done? && r.value.Ok? && r.value.value.stream == stream)
  {
    address := host + ":" + ToDecimal(port);
    if stream == null {
      return address, Panic("Failed to connect");
    }
    var outcome := OpenSession(config, w, stream);
    match outcome {
      case Panic(msg) => r := Panic(msg);
      case Done(Err(e)) => r := Done(Err(e));
      case Done(Ok(_)) =>
        var client := new Client(stream);
        r := Done(Ok(client));
    }
  }

  /** The handshake steps of `connect_with_port` on an open connection:
      write the header, read 16 bytes and compare them with it, write the
      configuration, read the acknowledgement byte and check it is 1. */
  method OpenSession(config: ServerConfig, w: Wire, stream: Stream) returns (outcome: Run<Result<(), string>>)
    requires stream.Valid()
    modifies stream
    ensures stream.Valid()
    ensures var t := Handshake(old(stream.Remaining()), EncodeFrame(w.config, config));
      && stream.sent == old(stream.sent) + t.sent
      && stream.pos == old(stream.pos) + t.consumed
      && outcome == t.outcome
  {
    ghost var incoming := stream.Remaining();
    stream.WriteAll(HEADER_ID);
    var header := new byte[16];
    var ok := stream.ReadExact(header);
    if !ok {
      return Panic("Failed to read header ID");
    }
    if header[..] != HEADER_ID {
      return Done(Err(INVALID_HEADER));
    }
    var written := Write(w.config, config, stream);
    if written.Err? {
      return Panic("Failed to send server config");
    }
    var ack := new byte[1];
    ok := stream.ReadExact(ack);
    if !ok {
      return Panic("Failed to read ACK");
    }
    assert ack[0] == incoming[16];
    if ack[0] != 1 {
      return Done(Err(INVALID_ACK));
    }
    outcome := Done(Ok(()));
  }

  /** `connect`: `connect_with_port` on the default port 7562. */
  method Connect(host: string, config: ServerConfig, w: Wire, stream: Stream?)
    returns (address: string, r: Run<Result<Client, string>>)
    requires stream != null ==> stream.Valid()
    modifies stream
    ensures address == host + ":7562"
    ensures stream == null ==> r == Panic("Failed to connect")
    ensures stream != null ==> stream.Valid()
    ensures stream != null ==>
      var t := Handshake(old(stream.Remaining()), EncodeFrame(w.config, config));
      && stream.sent == old(stream.sent) + t.sent
      && stream.pos == old(stream.pos) + t.consumed
      && (t.outcome.Panic? ==> r == Panic(t.outcome.message))
      && (t.outcome.Done? && t.outcome.value.Err? ==> r == Done(Err(t.outcome.value.error)))
      && (t.outcome == Done(Ok(())) ==> r.Done? && r.value.Ok? && r.value.value.stream == stream)
  {
    address, r := ConnectWithPort(host, DEFAULT_PORT, config, w, stream);
  }
}
