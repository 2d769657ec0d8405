/** One logical channel to a remote address: liveness check, request
    numbering, the memoised handshake, and the framed exchange. The byte
    stream is abstracted to a `Peer`: what comes back when a request is
    written on a protocol id, and how those bytes parse. */
module Connections {
  import opened Outcomes
  import opened Errors
  import opened Addressing
  import opened Envelope

  /** Key under which every request carries the sending connection's id. */
  const CONNECTION_ID_KEY: string := "_connectionId"
  /** The only transport status `validate` accepts. */
  const OPEN: string := "open"

  newtype uint8 = x: int | 0 <= x < 256

  /** The remote end as seen through one stream: the bytes it answers with
      (None when the stream cannot be opened or written), and the JSON
      parser's verdict on bytes (None when they are not a JSON object). */
  datatype Peer = Peer(
    reply: (string, Request) -> Option<seq<uint8>>,
    parse: seq<uint8> -> Option<JsonObject>)

  datatype Connection = Connection(
    id: string,
    address: Address,
    status: string,
    handshake: Option<Result<Response, Error>>,
    requestCounter: nat)

  /** A fresh connection: numbering starts at 0 and no handshake is stored. */
  function NewConnection(id: string, address: Address, status: string): (c: Connection)
    ensures c.id == id && c.address == address && c.status == status
    ensures c.requestCounter == 0 && c.handshake == None
  {
    Connection(id, address, status, None, 0)
  }

  /** Passes exactly when the transport reports the connection open. */
  function Validate(c: Connection): (r: Outcome<Error>)
    ensures r.Pass? <==> c.status == OPEN
    ensures r.Fail? ==> r.error == ConnectionInvalid
  {
    if c.status != OPEN then Fail(ConnectionInvalid) else Pass
  }

  datatype Created = Created(conn: Connection, request: Request)

  /** Numbers a request with the current counter and bumps it by one; the
      params are the caller's, with `_connectionId` added unless the caller
      already supplied one (the caller's keys are spread last). */
  function CreateRequest(c: Connection, methodName: string, params: JsonObject): (r: Created)
    ensures r.request.id == c.requestCounter
    ensures r.conn == c.(requestCounter := c.requestCounter + 1)
    ensures r.request.methodName == methodName
    ensures r.request.params.Keys == params.Keys + {CONNECTION_ID_KEY}
    ensures forall k :: k in params ==> r.request.params[k] == params[k]
    ensures CONNECTION_ID_KEY !in params ==> r.request.params[CONNECTION_ID_KEY] == JString(c.id)
  {
    var stamped := map[CONNECTION_ID_KEY := JString(c.id)] + params;
    Created(c.(requestCounter := c.requestCounter + 1), Request(c.requestCounter, methodName, stamped))
  }

  /** Reading a stream that ended without a byte fails; otherwise the
      bytes are whatever the JSON parser makes of them. */
  function Read(data: seq<uint8>, parse: seq<uint8> -> Option<JsonObject>): (r: Result<JsonObject, Error>)
    ensures |data| == 0 ==> r == Failure(NoDataReceived)
    ensures |data| > 0 && parse(data).Some? ==> r == Success(parse(data).value)
    ensures |data| > 0 && parse(data).None? ==> r == Failure(MalformedResponse)
  {
    if |data| == 0 then Failure(NoDataReceived)
    else match parse(data)
      case Some(obj) => Success(obj)
      case None => Failure(MalformedResponse)
  }

  /** The protocol id a stream was opened on, and what came back. */
  datatype Exchange = Exchange(protocol: string, reply: Result<Response, Error>)

  /** Opens a stream on the target's protocol id, writes the request and
      wraps the parsed reply as a response. */
  function Transmit(c: Connection, request: Request, peer: Peer): (x: Exchange)
    ensures x.protocol == Protocol(c.address)
    ensures peer.reply(x.protocol, request).None? ==> x.reply == Failure(StreamFailed)
    ensures peer.reply(x.protocol, request) == Some([]) ==> x.reply == Failure(NoDataReceived)
    ensures peer.reply(x.protocol, request).Some? && |peer.reply(x.protocol, request).value| > 0 &&
            peer.parse(peer.reply(x.protocol, request).value).None? ==>
      x.reply == Failure(MalformedResponse)
    ensures peer.reply(x.protocol, request).Some? && |peer.reply(x.protocol, request).value| > 0 &&
            peer.parse(peer.reply(x.protocol, request).value).Some? ==>
      x.reply == Success(NewResponse(peer.parse(peer.reply(x.protocol, request).value).value))
    ensures x.reply.Success? ==>
      x.reply.value.jsonrpc == JSONRPC_VERSION &&
      peer.reply(x.protocol, request).Some? &&
      peer.parse(peer.reply(x.protocol, request).value) == Some(x.reply.value.result)
  {
    var protocol := Protocol(c.address);
    match peer.reply(protocol, request)
    case None => Exchange(protocol, Failure(StreamFailed))
    case Some(bytes) =>
      match Read(bytes, peer.parse)
      case Failure(e) => Exchange(protocol, Failure(e))
      case Success(obj) => Exchange(protocol, Success(NewResponse(obj)))
  }

  /** Outcome of `start`: the connection afterwards, the handshake outcome
      handed back, and the request written, if one was. */
  datatype Handshake = Handshake(conn: Connection, reply: Result<Response, Error>, sent: Option<Request>)

  /** The handshake runs at most once: the first call numbers a HANDSHAKE
      request carrying the target address and stores its outcome, success
      or failure; every later call returns that stored outcome and sends
      nothing. */
  function Start(c: Connection, peer: Peer): (h: Handshake)
    ensures c.handshake.Some? ==> h == Handshake(c, c.handshake.value, None)
    ensures c.handshake.None? ==>
      && h.sent.Some?
      && h.sent.value.methodName == HANDSHAKE
      && h.sent.value.id == c.requestCounter
      && "address" in h.sent.value.params
      && h.sent.value.params["address"] == JString(c.address.value)
      && h.conn == c.(requestCounter := c.requestCounter + 1, handshake := Some(h.reply))
      && h.reply == Transmit(h.conn, h.sent.value, peer).reply
  {
    match c.handshake
    case Some(stored) => Handshake(c, stored, None)
    case None =>
      var created := CreateRequest(c, HANDSHAKE, map["address" := JString(c.address.value)]);
      var outcome := Transmit(created.conn, created.request, peer).reply;
      Handshake(created.conn.(handshake := Some(outcome)), outcome, Some(created.request))
  }

  datatype Sent = Sent(conn: Connection, request: Request, reply: Result<Response, Error>)

  /** `send` frames the data as a ROUTE request and transmits it; it never
      touches the handshake. */
  function Send(c: Connection, data: JsonObject, peer: Peer): (s: Sent)
    ensures s.request.methodName == ROUTE
    ensures s.request.id == c.requestCounter
    ensures s.conn == c.(requestCounter := c.requestCounter + 1)
    ensures forall k :: k in data ==> k in s.request.params && s.request.params[k] == data[k]
    ensures s.reply == Transmit(s.conn, s.request, peer).reply
  {
    var created := CreateRequest(c, ROUTE, data);
    Sent(created.conn, created.request, Transmit(created.conn, created.request, peer).reply)
  }

  /** A failed read is not fatal: the connection is still valid afterwards
      and its next request is numbered after the failed one. */
  lemma EmptyReplyLeavesConnectionUsable(c: Connection, data: JsonObject, peer: Peer)
    requires Validate(c).Pass?
    requires peer.reply(Protocol(c.address), Send(c, data, peer).request) == Some([])
    ensures Send(c, data, peer).reply == Failure(NoDataReceived)
    ensures Validate(Send(c, data, peer).conn).Pass?
    ensures Send(Send(c, data, peer).conn, data, peer).request.id == c.requestCounter + 1
  {
  }

  /** `send` against the stream it writes: the promise resolves exactly
      when the peer answers with bytes that parse, and then with those
      parsed bytes as the response; a failed stream and an empty answer
      each reject with their own error. */
  lemma SendResolvesIffReplyParses(c: Connection, data: JsonObject, peer: Peer)
    ensures var bytes := peer.reply(Protocol(c.address), CreateRequest(c, ROUTE, data).request);
      && (Send(c, data, peer).reply.Success? <==>
            bytes.Some? && |bytes.value| > 0 && peer.parse(bytes.value).Some?)
      && (Send(c, data, peer).reply.Success? ==>
            Send(c, data, peer).reply.value == NewResponse(peer.parse(bytes.value).value))
      && (bytes.None? ==> Send(c, data, peer).reply == Failure(StreamFailed))
      && (bytes == Some([]) ==> Send(c, data, peer).reply == Failure(NoDataReceived))
  {
  }

  // A sequence of calls on one connection, to state facts about all of them.

  datatype Op = StartOp | SendOp(data: JsonObject)

  datatype Trace = Trace(conn: Connection, sent: seq<Request>)

  function Step(c: Connection, op: Op, peer: Peer): Trace {
    match op
    case StartOp =>
      var h := Start(c, peer);
      Trace(h.conn, if h.sent.Some? then [h.sent.value] else [])
    case SendOp(data) =>
      var s := Send(c, data, peer);
      Trace(s.conn, [s.request])
  }

  /** The connection after `ops` in order, with every request written. */
  function Run(c: Connection, ops: seq<Op>, peer: Peer): Trace
    decreases |ops|
  {
    if ops == [] then Trace(c, [])
    else
      var first := Step(c, ops[0], peer);
      var rest := Run(first.conn, ops[1..], peer);
      Trace(rest.conn, first.sent + rest.sent)
  }

  function CountHandshakes(sent: seq<Request>): nat {
    if sent == [] then 0
    else (if sent[0].methodName == HANDSHAKE then 1 else 0) + CountHandshakes(sent[1..])
  }

  lemma CountHandshakesAppend(a: seq<Request>, b: seq<Request>)
    ensures CountHandshakes(a + b) == CountHandshakes(a) + CountHandshakes(b)
  {
    if a == [] {
      assert a + b == b;
    } else {
      assert (a + b)[1..] == a[1..] + b;
      CountHandshakesAppend(a[1..], b);
    }
  }

  /** Request ids on one connection are consecutive from the counter's
      value, so from 0 on a fresh connection: unique and strictly rising. */
  lemma {:induction false} RunNumbersRequests(c: Connection, ops: seq<Op>, peer: Peer)
    ensures Run(c, ops, peer).conn.requestCounter == c.requestCounter + |Run(c, ops, peer).sent|
    ensures forall i :: 0 <= i < |Run(c, ops, peer).sent| ==>
      Run(c, ops, peer).sent[i].id == c.requestCounter + i
    ensures Run(c, ops, peer).conn.id == c.id && Run(c, ops, peer).conn.address == c.address
    decreases |ops|
  {
    if ops != [] {
      var first := Step(c, ops[0], peer);
      RunNumbersRequests(first.conn, ops[1..], peer);
    }
  }

  /** Whatever mix of `start` and `send` calls, at most one handshake
      request is ever written, none if one was already stored, and once
      stored the handshake outcome never changes. */
  lemma {:induction false} RunHandshakesAtMostOnce(c: Connection, ops: seq<Op>, peer: Peer)
    ensures CountHandshakes(Run(c, ops, peer).sent) <= 1
    ensures c.handshake.Some? ==> CountHandshakes(Run(c, ops, peer).sent) == 0
    ensures c.handshake.Some? ==> Run(c, ops, peer).conn.handshake == c.handshake
    ensures StartOp in ops ==> Run(c, ops, peer).conn.handshake.Some?
    decreases |ops|
  {
    if ops != [] {
      var first := Step(c, ops[0], peer);
      var rest := Run(first.conn, ops[1..], peer);
      RunHandshakesAtMostOnce(first.conn, ops[1..], peer);
      CountHandshakesAppend(first.sent, rest.sent);
      assert CountHandshakes(first.sent) == (if ops[0].StartOp? && c.handshake.None? then 1 else 0) by {
        if first.sent != [] {
          assert first.sent[1..] == [];
        }
      }
      if ops[0].StartOp? {
        assert first.conn.handshake.Some?;
      } else {
        assert StartOp in ops ==> StartOp in ops[1..];
      }
    }
  }
}
