/** The server side of the polling transport (AsyncPollingConnectionServlet):
    a registry of logical connections answering HTTP requests. A request
    without an id registers a connection; a request naming one carries the
    client's acknowledgement, the number of its first message and the
    messages, and is answered with the counters and the pending queue, or
    parked as a long poll when there is nothing to say.

    Requests are opaque handles; how each is answered (status and body),
    which requests turn into long polls, which sessions are invalidated
    and what the servlet reports to its handler are appended, in order, to
    `log`. Clock and random ids are parameters. A connection record is
    reached only through the registry, so its in-place updates are
    modelled as replacing its map entry. */
module PollingServlets {
  import opened Common
  import opened Wire
  import opened Sequencing
  import opened ConnectionIds

  /** An HTTP request, standing for its response as well. */
  type Handle = nat

  const HttpOk: int := 200
  const HttpNoContent: int := 204
  const HttpInvalidMethod: int := 405
  const HttpGone: int := 410

  /** A request: its handle, method, the "cid" parameter, its body and
      whether the container still has a session for it. */
  datatype Request = Request(handle: Handle, verb: HttpMethod, cid: Option<string>, body: string,
                             hasSession: bool)

  /** A logical connection. `session` says whether one was attached when
      it was created; `asyncContext` is the long poll held for it. */
  datatype Connection = Connection(connId: string, receivedCounter: int, lastUsedTimestamp: int,
                                   closing: bool, session: bool, queue: seq<string>, sentCounter: int,
                                   asyncContext: Option<Handle>)

  datatype ServletAction =
    | Respond(request: Handle, status: int, body: string)  // the response completes with status and body
    | LongPoll(request: Handle, timeout: int)              // startAsync with this timeout
    | Aborted(request: Handle, fault: Fault)               // service threw
    | Invalidated(connId: string)                          // the connection's session is invalidated
    | Connected(connId: string)                            // onConnected
    | Disconnected(connId: string)                         // onDisconnected
    | Delivered(connId: string, message: string)           // onMessage

  datatype Registry = Registry(connections: map<string, Connection>, log: seq<ServletAction>)

  /** The servlet parameters. */
  datatype Settings = Settings(createSession: bool, disposeSessionOnConnectionClose: bool,
                               longPollingTimeout: int, connectionTimeout: int,
                               maxMessageSize: int, maxQueueLength: int)

  /** Every record is registered under its own id. */
  predicate WellKeyed(c: map<string, Connection>)
  {
    forall id :: id in c ==> c[id].connId == id
  }

  // ---------------------------------------------------------------------
  // Servlet parameters

  /** "true".equalsIgnoreCase(value), folding ASCII letters. */
  predicate IsTrue(value: Option<string>)
  {
    value.Some? && |value.value| == 4 &&
    forall i :: 0 <= i < 4 ==> ToLower(value.value[i]) == "true"[i]
  }

  function ToLower(c: char): char
  {
    if 'A' <= c <= 'Z' then (c as int + 32) as char else c
  }

  /** Integer.parseInt(value), keeping `current` when it throws. */
  function IntParam(value: Option<string>, current: int): (n: int)
    ensures value.None? ==> n == current
    ensures forall k :: IntMin <= k <= IntMax && value == Some(IntToString(k)) ==> n == k
  {
    if value.Some? && ParseInt(value.value).Some? then
      assert forall k :: IntMin <= k <= IntMax && value == Some(IntToString(k)) ==> ParseInt(value.value) == Some(k) by {
        forall k | IntMin <= k <= IntMax && value == Some(IntToString(k))
          ensures ParseInt(value.value) == Some(k)
        {
          ParseIntegerRoundTrip(k, IntMin, IntMax);
        }
      }
      ParseInt(value.value).value
    else
      assert forall k :: IntMin <= k <= IntMax && value == Some(IntToString(k)) ==> false by {
        forall k | IntMin <= k <= IntMax && value == Some(IntToString(k))
          ensures false
        {
          ParseIntegerRoundTrip(k, IntMin, IntMax);
        }
      }
      current
  }

  // ---------------------------------------------------------------------
  // Texts

  /** The answer to a new connection: id, long-polling timeout and
      connection timeout, each ended by '\n'. */
  function HandshakeText(id: string, longPollingTimeout: int, connectionTimeout: int): string
  {
    Join([id, IntToString(longPollingTimeout), IntToString(connectionTimeout)])
  }

  /** The counters and the whole queue of a record. */
  function QueueText(conn: Connection): string
  {
    BodyText(CounterBody(conn.receivedCounter, conn.sentCounter, conn.queue))
  }

  /** Total length of the messages of a body, as the read loop sums it. */
  function TotalLength(msgs: seq<string>): nat
  {
    if msgs == [] then 0 else |msgs[0]| + TotalLength(msgs[1..])
  }

  /** Whether the read loop gives up: some prefix of the messages is
      longer than maxMessageSize in total. */
  predicate TooLarge(msgs: seq<string>, maxMessageSize: int)
  {
    msgs != [] && TotalLength(msgs) > maxMessageSize
  }

  // ---------------------------------------------------------------------
  // The steps, as functions of the registry

  /** A request without an id asks for a new one from the draws. */
  predicate CanServe(c: map<string, Connection>, req: Request, uuids: seq<string>)
  {
    req.cid.None? ==> HasFresh(uuids, c)
  }

  /** One message action per accepted message, in order. */
  function Deliveries(id: string, msgs: seq<string>): (acts: seq<ServletAction>)
    ensures |acts| == |msgs|
    ensures forall i :: 0 <= i < |msgs| ==> acts[i] == Delivered(id, msgs[i])
  {
    if msgs == [] then [] else [Delivered(id, msgs[0])] + Deliveries(id, msgs[1..])
  }

  /** A long poll held for the record, answered with `status`. */
  function ReleasePoll(conn: Connection, status: int): seq<ServletAction>
  {
    if conn.asyncContext.Some? then [Respond(conn.asyncContext.value, status, "")] else []
  }

  /** closeConnection(conn, req, resp): removed; a held poll and the
      current response `resp`, if any, answer 410; the session is
      invalidated when so configured. The handler is not told. */
  function CloseConn(r: Registry, cfg: Settings, conn: Connection, resp: Option<Handle>): Registry
  {
    Registry(r.connections - {conn.connId},
             r.log + ReleasePoll(conn, HttpGone)
                   + (if resp.Some? then [Respond(resp.value, HttpGone, "")] else [])
                   + (if cfg.disposeSessionOnConnectionClose && conn.session then [Invalidated(conn.connId)] else []))
  }

  /** closeConnection for the current request, then onDisconnected. */
  function Closed(r: Registry, cfg: Settings, conn: Connection, request: Handle): Registry
  {
    var r1 := CloseConn(r, cfg, conn, Some(request));
    r1.(log := r1.log + [Disconnected(conn.connId)])
  }

  /** A new connection under a fresh id, answered with the id and both
      timeouts, then reported to the handler. */
  function Create(r: Registry, cfg: Settings, req: Request, now: int, uuids: seq<string>): Registry
    requires HasFresh(uuids, r.connections)
  {
    var id := FirstFresh(uuids, r.connections);
    Registry(r.connections[id := Connection(id, 0, now, false, cfg.createSession, [], 0, None)],
             r.log + [Respond(req.handle, HttpOk, HandshakeText(id, cfg.longPollingTimeout, cfg.connectionTimeout)),
                      Connected(id)])
  }

  /** service(req), keeping the long poll it starts so that post and
      terminate can answer it. */
  function Serve(r: Registry, cfg: Settings, req: Request, now: int, uuids: seq<string>): Registry
    requires CanServe(r.connections, req, uuids)
  {
    ServeWith(r, cfg, req, now, uuids, true)
  }

  /** service(req) as written: the long poll it starts is stored in the
      record and at once cleared, so it is never held. */
  function ServeAsWritten(r: Registry, cfg: Settings, req: Request, now: int, uuids: seq<string>): Registry
    requires CanServe(r.connections, req, uuids)
  {
    ServeWith(r, cfg, req, now, uuids, false)
  }

  /** service: `hold` says whether a long poll started is kept in the
      record. */
  function ServeWith(r: Registry, cfg: Settings, req: Request, now: int, uuids: seq<string>, hold: bool): Registry
    requires CanServe(r.connections, req, uuids)
  {
    if req.cid.None? then Create(r, cfg, req, now, uuids)
    else if req.cid.value !in r.connections then r.(log := r.log + [Respond(req.handle, HttpGone, "")])
    else Poll(r, cfg, r.connections[req.cid.value], req, now, hold)
  }

  /** A request for the registered record `conn`: a poll held for it is
      answered 204; an expired session and DELETE end the connection;
      methods other than POST and PUT are refused with 405; POST and PUT
      record the time and exchange counters and messages. */
  function Poll(r: Registry, cfg: Settings, conn: Connection, req: Request, now: int, hold: bool): Registry
  {
    var c1 := conn.(asyncContext := None);
    Dispatch(Registry(r.connections[conn.connId := c1], r.log + ReleasePoll(conn, HttpNoContent)),
             cfg, c1, req, now, hold)
  }

  /** After a held poll is released: session check and method. */
  function Dispatch(r: Registry, cfg: Settings, conn: Connection, req: Request, now: int, hold: bool): Registry
  {
    if cfg.createSession && !req.hasSession then Closed(r, cfg, conn, req.handle)
    else if req.verb == DELETE then Closed(r, cfg, conn, req.handle)
    else if req.verb != POST && req.verb != PUT then
      r.(log := r.log + [Respond(req.handle, HttpInvalidMethod, "")])
    else
      var c1 := conn.(lastUsedTimestamp := now);
      Exchange(r.(connections := r.connections[conn.connId := c1]), cfg, c1, req, hold)
  }

  /** The body: the client's acknowledgement and the number of its first
      message (a missing or malformed one throws), then the messages. Too
      long a body ends the connection; otherwise the messages numbered
      below receivedCounter are skipped and the others counted. */
  function Exchange(r: Registry, cfg: Settings, conn: Connection, req: Request, hold: bool): Registry
  {
    var lines := ReaderLines(req.body);
    if |lines| < 2 || ParseLong(lines[0]).None? || ParseLong(lines[1]).None? then
      r.(log := r.log + [Aborted(req.handle, NumberFormat)])
    else Receive(r, cfg, conn, req, ParseLong(lines[0]).value, ParseLong(lines[1]).value, lines[2..], hold)
  }

  /** The messages `lines` of a body whose counters are `ack` and `first`. */
  function Receive(r: Registry, cfg: Settings, conn: Connection, req: Request, ack: int, first: int,
                   lines: seq<string>, hold: bool): Registry
  {
    if TooLarge(lines, cfg.maxMessageSize) then Closed(r, cfg, conn, req.handle)
    else
      var c1 := Counted(conn, first, lines);
      Acknowledge(r.(connections := r.connections[conn.connId := c1]), cfg, c1, req, ack,
                  Accepted(conn.receivedCounter, first, lines), hold)
  }

  /** The client acknowledged every message numbered below `ack`. Below
      sentCounter that is a protocol mismatch that ends the connection;
      past the queue the trimming empties the queue and throws. Otherwise
      the acknowledged head leaves the queue. */
  function Acknowledge(r: Registry, cfg: Settings, conn: Connection, req: Request, ack: int,
                       msgs: seq<string>, hold: bool): Registry
  {
    if ack < conn.sentCounter then Closed(r, cfg, conn, req.handle)
    else if ack > conn.sentCounter + |conn.queue| then
      var c1 := conn.(queue := [], sentCounter := conn.sentCounter + |conn.queue|);
      Registry(r.connections[conn.connId := c1], r.log + [Aborted(req.handle, IndexOutOfBounds)])
    else
      var c1 := Acked(conn, ack);
      Reply(r.(connections := r.connections[conn.connId := c1]), cfg, c1, req, msgs, hold)
  }

  /** The answer: 200 with the counters and the queue when messages are
      pending; otherwise a closing connection ends with 410, POST gets 200
      with the counters and PUT becomes a long poll. The accepted messages
      then reach the handler, unless the connection ended. */
  function Reply(r: Registry, cfg: Settings, conn: Connection, req: Request, msgs: seq<string>, hold: bool): Registry
  {
    if conn.queue != [] then
      r.(log := r.log + [Respond(req.handle, HttpOk, QueueText(conn))] + Deliveries(conn.connId, msgs))
    else if conn.closing then Closed(r, cfg, conn, req.handle)
    else if req.verb == POST then
      r.(log := r.log + [Respond(req.handle, HttpOk, QueueText(conn))] + Deliveries(conn.connId, msgs))
    else
      var c1 := conn.(asyncContext := if hold then Some(req.handle) else None);
      Registry(r.connections[conn.connId := c1],
               r.log + [LongPoll(req.handle, cfg.longPollingTimeout)] + Deliveries(conn.connId, msgs))
  }

  /** post(id, msg): ignored for an unknown or closing connection; a full
      queue ends the connection without telling the handler; otherwise
      the message is queued, and a held poll is answered with the counters
      and the queue. */
  function PostStep(r: Registry, cfg: Settings, id: string, msg: string): Registry
  {
    if id !in r.connections then r
    else
      var conn := r.connections[id];
      if conn.closing then r
      else if |conn.queue| >= cfg.maxQueueLength then CloseConn(r, cfg, conn, None)
      else
        var c1 := conn.(queue := conn.queue + [msg]);
        if c1.asyncContext.Some? then
          Registry(r.connections[id := c1.(asyncContext := None)],
                   r.log + [Respond(c1.asyncContext.value, HttpOk, QueueText(c1))])
        else Registry(r.connections[id := c1], r.log)
  }

  /** terminate(id): the connection is marked closing and a held poll is
      answered 204. */
  function TerminateStep(r: Registry, id: string): Registry
  {
    if id !in r.connections then r
    else
      var conn := r.connections[id];
      Registry(r.connections[id := conn.(closing := true, asyncContext := None)],
               r.log + ReleasePoll(conn, HttpNoContent))
  }

  /** The poll `request` of record `id` timed out (onTimeout): it is
      answered 204 and forgotten if it is the one held. */
  function TimeoutStep(r: Registry, id: string, request: Handle): Registry
  {
    var r1 := r.(log := r.log + [Respond(request, HttpNoContent, "")]);
    if id in r.connections && r.connections[id].asyncContext == Some(request) then
      r1.(connections := r.connections[id := r.connections[id].(asyncContext := None)])
    else r1
  }

  /** The poll `request` of record `id` completed or failed (onComplete,
      onError): it is forgotten if it is the one held. */
  function EndedStep(r: Registry, id: string, request: Handle): Registry
  {
    if id in r.connections && r.connections[id].asyncContext == Some(request) then
      r.(connections := r.connections[id := r.connections[id].(asyncContext := None)])
    else r
  }

  /** Idle time in milliseconds. */
  function Idle(conn: Connection, now: int): int
  {
    now - conn.lastUsedTimestamp
  }

  /** The sweep's visit of one record: idle past connectionTimeout ends
      the connection, without telling the handler. */
  function SweepOne(r: Registry, cfg: Settings, id: string, now: int): Registry
  {
    if id in r.connections && Idle(r.connections[id], now) > cfg.connectionTimeout then
      CloseConn(r, cfg, r.connections[id], None)
    else r
  }

  /** The sweep visits the records in the order `order`. */
  function SweepAll(r: Registry, cfg: Settings, order: seq<string>, now: int): Registry
    decreases |order|
  {
    if order == [] then r else SweepAll(SweepOne(r, cfg, order[0], now), cfg, order[1..], now)
  }


  // ---------------------------------------------------------------------
  // Properties of service

  /** A request without an id registers a record under an id that was not
      registered, with both counters at 0, an empty queue, no poll held,
      and a session when sessions are created; no other record changes;
      the id and both timeouts are the answer, then onConnected. */
  lemma NewRequestRegisters(r: Registry, cfg: Settings, req: Request, now: int, uuids: seq<string>)
    requires req.cid.None? && HasFresh(uuids, r.connections)
    ensures var r' := Serve(r, cfg, req, now, uuids);
      var id := FirstFresh(uuids, r.connections);
      && id !in r.connections && id in r'.connections
      && r'.connections[id] == Connection(id, 0, now, false, cfg.createSession, [], 0, None)
      && r'.connections - {id} == r.connections
      && r'.log == r.log + [Respond(req.handle, HttpOk,
                                    HandshakeText(id, cfg.longPollingTimeout, cfg.connectionTimeout)),
                            Connected(id)]
  {
    var id := FirstFresh(uuids, r.connections);
    assert Serve(r, cfg, req, now, uuids).connections - {id} == r.connections;
  }

  /** The client reads the handshake as the id and both timeouts. */
  lemma HandshakeRoundTrip(id: string, longPollingTimeout: int, connectionTimeout: int)
    requires WireSafe(id)
    requires IntMin <= longPollingTimeout <= IntMax && IntMin <= connectionTimeout <= IntMax
    ensures var ls := Lines(HandshakeText(id, longPollingTimeout, connectionTimeout));
      |ls| == 3 && ls[0] == id &&
      ParseInt(ls[1]) == Some(longPollingTimeout) && ParseInt(ls[2]) == Some(connectionTimeout)
  {
    var ls := [id, IntToString(longPollingTimeout), IntToString(connectionTimeout)];
    assert WireSafe(ls[0]) && WireSafe(ls[1]) && WireSafe(ls[2]);
    JoinRoundTrip(ls);
    assert Lines(HandshakeText(id, longPollingTimeout, connectionTimeout)) == ls;
    ParseIntegerRoundTrip(longPollingTimeout, IntMin, IntMax);
    ParseIntegerRoundTrip(connectionTimeout, IntMin, IntMax);
  }

  /** An unknown id is answered 410 and changes no record. */
  lemma UnknownIdIsGone(r: Registry, cfg: Settings, req: Request, now: int, uuids: seq<string>)
    requires req.cid.Some? && req.cid.value !in r.connections
    ensures var r' := Serve(r, cfg, req, now, uuids);
      r'.connections == r.connections && r'.log == r.log + [Respond(req.handle, HttpGone, "")]
  {
  }

  /** What closeConnection adds for the current request `request` of a
      record holding no poll: 410 and the session invalidation. */
  function GoneLog(cfg: Settings, conn: Connection, request: Handle): seq<ServletAction>
  {
    [Respond(request, HttpGone, "")]
      + (if cfg.disposeSessionOnConnectionClose && conn.session then [Invalidated(conn.connId)] else [])
  }

  /** DELETE, or any request whose session expired when sessions are
      created, ends the connection: a held poll is answered 204, the
      record leaves the registry, the request is answered 410 and the
      handler hears of it. */
  lemma DeleteEndsConnection(r: Registry, cfg: Settings, req: Request, now: int, uuids: seq<string>, id: string)
    requires WellKeyed(r.connections) && req.cid == Some(id) && id in r.connections
    requires req.verb == DELETE || (cfg.createSession && !req.hasSession)
    ensures var r' := Serve(r, cfg, req, now, uuids);
      var c := r.connections[id];
      && r'.connections == r.connections - {id}
      && r'.log == r.log + ReleasePoll(c, HttpNoContent) + GoneLog(cfg, c, req.handle) + [Disconnected(id)]
  {
    var c := r.connections[id];
    assert r.connections[id := c.(asyncContext := None)] - {id} == r.connections - {id};
  }

  /** A method other than POST, PUT and DELETE is refused with 405; only
      a held poll is released. */
  lemma OtherMethodIsRefused(r: Registry, cfg: Settings, req: Request, now: int, uuids: seq<string>, id: string)
    requires WellKeyed(r.connections) && req.cid == Some(id) && id in r.connections
    requires !(cfg.createSession && !req.hasSession) && req.verb !in {POST, PUT, DELETE}
    ensures var r' := Serve(r, cfg, req, now, uuids);
      var c := r.connections[id];
      && r'.connections == r.connections[id := c.(asyncContext := None)]
      && r'.log == r.log + ReleasePoll(c, HttpNoContent) + [Respond(req.handle, HttpInvalidMethod, "")]
  {
  }

  /** A POST or PUT for the registered id `id` that reaches the body. */
  predicate Exchanging(r: Registry, cfg: Settings, req: Request, id: string)
  {
    && req.cid == Some(id) && id in r.connections
    && !(cfg.createSession && !req.hasSession) && (req.verb == POST || req.verb == PUT)
  }

  /** The record once its held poll is released and the time recorded. */
  function Stamped(c: Connection, now: int): Connection
  {
    c.(asyncContext := None, lastUsedTimestamp := now)
  }

  /** The body starts with two readable counters. */
  predicate BodyParses(body: string)
  {
    var ls := ReaderLines(body);
    |ls| >= 2 && ParseLong(ls[0]).Some? && ParseLong(ls[1]).Some?
  }

  function AckOf(body: string): int
    requires BodyParses(body)
  {
    ParseLong(ReaderLines(body)[0]).value
  }

  function FirstOf(body: string): int
    requires BodyParses(body)
  {
    ParseLong(ReaderLines(body)[1]).value
  }

  function MsgsOf(body: string): seq<string>
    requires BodyParses(body)
  {
    ReaderLines(body)[2..]
  }

  /** The servlet reads back the counters and messages of a body the
      client wrote. */
  lemma RequestBodyRoundTrip(b: CounterBody)
    requires LongMin <= b.received <= LongMax && LongMin <= b.sent <= LongMax
    requires forall i :: 0 <= i < |b.msgs| ==> WireSafe(b.msgs[i])
    ensures var body := BodyText(b);
      BodyParses(body) && AckOf(body) == b.received && FirstOf(body) == b.sent && MsgsOf(body) == b.msgs
  {
    var head := [IntToString(b.received), IntToString(b.sent)];
    var ls := head + b.msgs;
    forall i | 0 <= i < |ls|
      ensures WireSafe(ls[i])
    {
      if i >= |head| {
        assert ls[i] == b.msgs[i - |head|];
      }
    }
    ReaderLinesJoin(ls);
    ParseIntegerRoundTrip(b.received, LongMin, LongMax);
    ParseIntegerRoundTrip(b.sent, LongMin, LongMax);
    assert ls[0] == IntToString(b.received) && ls[1] == IntToString(b.sent) && ls[2..] == b.msgs;
  }

  /** The client reads an answer as both counters and the queue. */
  lemma ResponseBodyRoundTrip(conn: Connection)
    requires LongMin <= conn.receivedCounter <= LongMax && LongMin <= conn.sentCounter <= LongMax
    requires forall i :: 0 <= i < |conn.queue| ==> WireSafe(conn.queue[i])
    ensures var ls := Lines(QueueText(conn));
      |ls| == 2 + |conn.queue| &&
      ParseLong(ls[0]) == Some(conn.receivedCounter) && ParseLong(ls[1]) == Some(conn.sentCounter) &&
      ls[2..] == conn.queue
  {
    var head := [IntToString(conn.receivedCounter), IntToString(conn.sentCounter)];
    var ls := head + conn.queue;
    forall i | 0 <= i < |ls|
      ensures WireSafe(ls[i])
    {
      if i >= |head| {
        assert ls[i] == conn.queue[i - |head|];
      }
    }
    JoinRoundTrip(ls);
    ParseIntegerRoundTrip(conn.receivedCounter, LongMin, LongMax);
    ParseIntegerRoundTrip(conn.sentCounter, LongMin, LongMax);
    assert ls[0] == IntToString(conn.receivedCounter) && ls[1] == IntToString(conn.sentCounter);
    assert ls[2..] == conn.queue;
  }

  /** A body without two readable counters makes service throw, after the
      held poll is released and the time recorded; nothing is received. */
  lemma MalformedBodyAborts(r: Registry, cfg: Settings, req: Request, now: int, uuids: seq<string>, id: string)
    requires WellKeyed(r.connections) && Exchanging(r, cfg, req, id) && !BodyParses(req.body)
    ensures var r' := Serve(r, cfg, req, now, uuids);
      var c := r.connections[id];
      && r'.connections == r.connections[id := Stamped(c, now)]
      && r'.log == r.log + ReleasePoll(c, HttpNoContent) + [Aborted(req.handle, NumberFormat)]
  {
  }

  /** A POST or PUT with readable counters reaches the messages with the
      held poll released and the time recorded. */
  lemma ServeReachesReceive(r: Registry, cfg: Settings, req: Request, now: int, uuids: seq<string>, hold: bool,
                            id: string)
    requires WellKeyed(r.connections) && Exchanging(r, cfg, req, id) && BodyParses(req.body)
    ensures var c := r.connections[id];
      ServeWith(r, cfg, req, now, uuids, hold)
        == Receive(Registry(r.connections[id := Stamped(c, now)], r.log + ReleasePoll(c, HttpNoContent)),
                   cfg, Stamped(c, now), req, AckOf(req.body), FirstOf(req.body), MsgsOf(req.body), hold)
  {
    var c := r.connections[id];
    var c1 := c.(asyncContext := None);
    var r1 := Registry(r.connections[id := c1], r.log + ReleasePoll(c, HttpNoContent));
    assert c.connId == id;
    assert ServeWith(r, cfg, req, now, uuids, hold) == Dispatch(r1, cfg, c1, req, now, hold);
    assert r1.connections[id := Stamped(c, now)] == r.connections[id := Stamped(c, now)];
  }

  /** Too long a body ends the connection with 410; nothing reaches the
      handler but the disconnection. */
  lemma TooLargeEndsConnection(r: Registry, cfg: Settings, req: Request, now: int, uuids: seq<string>, id: string)
    requires WellKeyed(r.connections) && Exchanging(r, cfg, req, id) && BodyParses(req.body)
    requires TooLarge(MsgsOf(req.body), cfg.maxMessageSize)
    ensures var r' := Serve(r, cfg, req, now, uuids);
      var c := r.connections[id];
      && r'.connections == r.connections - {id}
      && r'.log == r.log + ReleasePoll(c, HttpNoContent) + GoneLog(cfg, c, req.handle) + [Disconnected(id)]
  {
    var c := r.connections[id];
    ServeReachesReceive(r, cfg, req, now, uuids, true, id);
    assert r.connections[id := Stamped(c, now)] - {id} == r.connections - {id};
  }

  /** The record of `id` once the messages of a body are counted and the
      acknowledgement `ack` trimmed the queue. */
  function Exchanged(c: Connection, now: int, body: string): Connection
    requires BodyParses(body) && c.sentCounter <= AckOf(body) <= c.sentCounter + |c.queue|
  {
    Advanced(Stamped(c, now), AckOf(body), FirstOf(body), MsgsOf(body))
  }

  /** The record once the messages `lines`, the first numbered `first`,
      are counted: receivedCounter moves past those accepted. */
  function Counted(conn: Connection, first: int, lines: seq<string>): Connection
  {
    conn.(receivedCounter := conn.receivedCounter + |Accepted(conn.receivedCounter, first, lines)|)
  }

  /** The record once the acknowledgement `ack` trimmed its queue. */
  function Acked(conn: Connection, ack: int): Connection
    requires conn.sentCounter <= ack <= conn.sentCounter + |conn.queue|
  {
    conn.(queue := Trim(conn.queue, ack - conn.sentCounter), sentCounter := ack)
  }

  /** The record once the messages are counted and the acknowledgement
      `ack` trimmed the queue. */
  function Advanced(conn: Connection, ack: int, first: int, lines: seq<string>): Connection
    requires conn.sentCounter <= ack <= conn.sentCounter + |conn.queue|
  {
    Acked(Counted(conn, first, lines), ack)
  }

  /** The record once the messages are counted and the trimming ran past
      the end of the queue: the queue is empty and sentCounter has counted
      every message it held. */
  function Overrun(conn: Connection, first: int, lines: seq<string>): Connection
  {
    Counted(conn, first, lines).(queue := [], sentCounter := conn.sentCounter + |conn.queue|)
  }

  /** The record once answered: when long polls are held, a request
      other than POST that finds nothing to send is parked in it. */
  function Parked(c: Connection, req: Request, hold: bool): Connection
  {
    if hold && c.queue == [] && req.verb != POST then c.(asyncContext := Some(req.handle)) else c
  }

  /** A body that is not too large counts its accepted messages and goes
      on to the acknowledgement. */
  lemma ReceiveAccepts(r: Registry, cfg: Settings, conn: Connection, req: Request, ack: int, first: int,
                       lines: seq<string>, hold: bool)
    requires !TooLarge(lines, cfg.maxMessageSize)
    ensures var c1 := Counted(conn, first, lines);
      Receive(r, cfg, conn, req, ack, first, lines, hold)
        == Acknowledge(r.(connections := r.connections[conn.connId := c1]), cfg, c1, req, ack,
                       Accepted(conn.receivedCounter, first, lines), hold)
  {}

  /** Acknowledging for a record that holds no poll, with the
      acknowledgement within the queue and something left to say: the
      record keeps the rest of the queue and, parked or not, the poll. */
  lemma AcknowledgeKeeps(r: Registry, cfg: Settings, conn: Connection, req: Request, ack: int,
                         msgs: seq<string>, hold: bool)
    requires conn.asyncContext.None?
    requires conn.sentCounter <= ack <= conn.sentCounter + |conn.queue|
    requires ack < conn.sentCounter + |conn.queue| || !conn.closing
    ensures Acknowledge(r, cfg, conn, req, ack, msgs, hold).connections
      == r.connections[conn.connId := Parked(Acked(conn, ack), req, hold)]
  {
    var c' := Acked(conn, ack);
    assert c'.(asyncContext := None) == c';
  }

  /** ... and answers with the queue, the counters for POST or a long
      poll, then hands the messages to the handler. */
  lemma AcknowledgeAnswers(r: Registry, cfg: Settings, conn: Connection, req: Request, ack: int,
                           msgs: seq<string>, hold: bool)
    requires conn.asyncContext.None?
    requires conn.sentCounter <= ack <= conn.sentCounter + |conn.queue|
    requires ack < conn.sentCounter + |conn.queue| || !conn.closing
    ensures var c' := Acked(conn, ack);
      Acknowledge(r, cfg, conn, req, ack, msgs, hold).log
        == r.log + [if c'.queue != [] || req.verb == POST then Respond(req.handle, HttpOk, QueueText(c'))
                    else LongPoll(req.handle, cfg.longPollingTimeout)]
                 + Deliveries(conn.connId, msgs)
  {
  }

  /** Receiving for a record that holds no poll, with the acknowledgement
      within the queue and something left to say: the record keeps its
      new counters and the rest of the queue. */
  lemma ReceiveKeeps(r: Registry, cfg: Settings, conn: Connection, req: Request, ack: int, first: int,
                     lines: seq<string>, hold: bool)
    requires conn.asyncContext.None? && !TooLarge(lines, cfg.maxMessageSize)
    requires conn.sentCounter <= ack <= conn.sentCounter + |conn.queue|
    requires ack < conn.sentCounter + |conn.queue| || !conn.closing
    ensures Receive(r, cfg, conn, req, ack, first, lines, hold).connections
              == r.connections[conn.connId := Parked(Advanced(conn, ack, first, lines), req, hold)]
  {
    var msgs := Accepted(conn.receivedCounter, first, lines);
    var c1 := Counted(conn, first, lines);
    var r1 := r.(connections := r.connections[conn.connId := c1]);
    ReceiveAccepts(r, cfg, conn, req, ack, first, lines, hold);
    AcknowledgeKeeps(r1, cfg, c1, req, ack, msgs, hold);
    var c' := Parked(Advanced(conn, ack, first, lines), req, hold);
    assert r1.connections[conn.connId := c'] == r.connections[conn.connId := c'];
  }

  /** ... and the answer is the queue, or the counters for POST, or a
      long poll for PUT; then the accepted messages reach the handler. */
  lemma ReceiveAnswers(r: Registry, cfg: Settings, conn: Connection, req: Request, ack: int, first: int,
                       lines: seq<string>, hold: bool)
    requires conn.asyncContext.None? && !TooLarge(lines, cfg.maxMessageSize)
    requires conn.sentCounter <= ack <= conn.sentCounter + |conn.queue|
    requires ack < conn.sentCounter + |conn.queue| || !conn.closing
    ensures var msgs := Accepted(conn.receivedCounter, first, lines);
      var c' := Advanced(conn, ack, first, lines);
      Receive(r, cfg, conn, req, ack, first, lines, hold).log
        == r.log + [if c'.queue != [] || req.verb == POST then Respond(req.handle, HttpOk, QueueText(c'))
                    else LongPoll(req.handle, cfg.longPollingTimeout)]
                 + Deliveries(conn.connId, msgs)
  {
    var msgs := Accepted(conn.receivedCounter, first, lines);
    var c1 := Counted(conn, first, lines);
    var r1 := r.(connections := r.connections[conn.connId := c1]);
    ReceiveAccepts(r, cfg, conn, req, ack, first, lines, hold);
    AcknowledgeAnswers(r1, cfg, c1, req, ack, msgs, hold);
  }

  /** Receiving with an acknowledgement past the queue: the trimming
      empties the queue and throws; nothing reaches the handler. */
  lemma ReceiveOverruns(r: Registry, cfg: Settings, conn: Connection, req: Request, ack: int, first: int,
                        lines: seq<string>, hold: bool)
    requires !TooLarge(lines, cfg.maxMessageSize) && ack > conn.sentCounter + |conn.queue|
    ensures var rr := Receive(r, cfg, conn, req, ack, first, lines, hold);
      && rr.connections == r.connections[conn.connId := Overrun(conn, first, lines)]
      && rr.log == r.log + [Aborted(req.handle, IndexOutOfBounds)]
  {
    var c1 := Counted(conn, first, lines);
    ReceiveAccepts(r, cfg, conn, req, ack, first, lines, hold);
    assert c1.connId == conn.connId;
    assert r.connections[conn.connId := c1][conn.connId := Overrun(conn, first, lines)]
        == r.connections[conn.connId := Overrun(conn, first, lines)];
  }

  /** Receiving when the record ends: the registry loses it. */
  lemma ReceiveEnds(r: Registry, cfg: Settings, conn: Connection, req: Request, ack: int, first: int,
                    lines: seq<string>, hold: bool)
    requires conn.asyncContext.None? && !TooLarge(lines, cfg.maxMessageSize)
    requires ack < conn.sentCounter || (conn.closing && ack == conn.sentCounter + |conn.queue|)
    ensures var rr := Receive(r, cfg, conn, req, ack, first, lines, hold);
      && rr.connections == r.connections - {conn.connId}
      && rr.log == r.log + GoneLog(cfg, conn, req.handle) + [Disconnected(conn.connId)]
  {
    var c1 := Counted(conn, first, lines);
    assert r.connections[conn.connId := c1] - {conn.connId} == r.connections - {conn.connId};
    if ack >= conn.sentCounter {
      var c2 := Acked(c1, ack);
      assert r.connections[conn.connId := c1][conn.connId := c2] - {conn.connId} == r.connections - {conn.connId};
    }
  }

  /** A POST or PUT whose body parses, is not too large and acknowledges
      within the queue, on a record that is not closing or still has
      messages to send: the record takes the new time, the counted
      messages and the trimmed queue, whose head the acknowledgement
      removed, and sentCounter becomes the acknowledgement. */
  lemma ExchangeKeeps(r: Registry, cfg: Settings, req: Request, now: int, uuids: seq<string>, id: string)
    requires WellKeyed(r.connections) && Exchanging(r, cfg, req, id) && BodyParses(req.body)
    requires !TooLarge(MsgsOf(req.body), cfg.maxMessageSize)
    requires var c := r.connections[id];
      c.sentCounter <= AckOf(req.body) <= c.sentCounter + |c.queue|
    requires var c := r.connections[id]; AckOf(req.body) < c.sentCounter + |c.queue| || !c.closing
    ensures Serve(r, cfg, req, now, uuids).connections
              == r.connections[id := Parked(Exchanged(r.connections[id], now, req.body), req, true)]
  {
    var c := r.connections[id];
    var c' := Parked(Exchanged(c, now, req.body), req, true);
    ServeReachesReceive(r, cfg, req, now, uuids, true, id);
    ReceiveKeeps(Registry(r.connections[id := Stamped(c, now)], r.log + ReleasePoll(c, HttpNoContent)), cfg,
                 Stamped(c, now), req, AckOf(req.body), FirstOf(req.body), MsgsOf(req.body), true);
    assert Stamped(c, now).connId == id;
    assert r.connections[id := Stamped(c, now)][id := c'] == r.connections[id := c'];
  }

  /** ... and the answer is 200 with both counters and the remaining queue
      when messages are pending or the request is a POST, else a long
      poll; then the accepted messages reach the handler in
      order. */
  lemma ExchangeAnswers(r: Registry, cfg: Settings, req: Request, now: int, uuids: seq<string>, id: string)
    requires WellKeyed(r.connections) && Exchanging(r, cfg, req, id) && BodyParses(req.body)
    requires !TooLarge(MsgsOf(req.body), cfg.maxMessageSize)
    requires var c := r.connections[id];
      c.sentCounter <= AckOf(req.body) <= c.sentCounter + |c.queue|
    requires var c := r.connections[id]; AckOf(req.body) < c.sentCounter + |c.queue| || !c.closing
    ensures var c := r.connections[id];
      var c' := Exchanged(c, now, req.body);
      var msgs := Accepted(c.receivedCounter, FirstOf(req.body), MsgsOf(req.body));
      Serve(r, cfg, req, now, uuids).log
        == r.log + ReleasePoll(c, HttpNoContent)
                 + [if c'.queue != [] || req.verb == POST then Respond(req.handle, HttpOk, QueueText(c'))
                    else LongPoll(req.handle, cfg.longPollingTimeout)]
                 + Deliveries(id, msgs)
  {
    var c := r.connections[id];
    var s := Stamped(c, now);
    var ack, first, lines := AckOf(req.body), FirstOf(req.body), MsgsOf(req.body);
    var r1 := Registry(r.connections[id := s], r.log + ReleasePoll(c, HttpNoContent));
    var rr := Receive(r1, cfg, s, req, ack, first, lines, true);
    assert Serve(r, cfg, req, now, uuids) == rr by {
      ServeReachesReceive(r, cfg, req, now, uuids, true, id);
    }
    ReceiveAnswers(r1, cfg, s, req, ack, first, lines, true);
    assert s.connId == id && s.receivedCounter == c.receivedCounter;
  }

  /** A closing connection whose queue the acknowledgement empties ends:
      410, the handler hears of it, and the messages of the body are not
      delivered. */
  lemma ClosingDrainedEnds(r: Registry, cfg: Settings, req: Request, now: int, uuids: seq<string>, id: string)
    requires WellKeyed(r.connections) && Exchanging(r, cfg, req, id) && BodyParses(req.body)
    requires !TooLarge(MsgsOf(req.body), cfg.maxMessageSize)
    requires var c := r.connections[id];
      c.closing && AckOf(req.body) == c.sentCounter + |c.queue|
    ensures var r' := Serve(r, cfg, req, now, uuids);
      var c := r.connections[id];
      && r'.connections == r.connections - {id}
      && r'.log == r.log + ReleasePoll(c, HttpNoContent) + GoneLog(cfg, c, req.handle) + [Disconnected(id)]
  {
    var c := r.connections[id];
    var r1 := Registry(r.connections[id := Stamped(c, now)], r.log + ReleasePoll(c, HttpNoContent));
    var rr := Receive(r1, cfg, Stamped(c, now), req, AckOf(req.body), FirstOf(req.body), MsgsOf(req.body), true);
    assert Serve(r, cfg, req, now, uuids) == rr by {
      ServeReachesReceive(r, cfg, req, now, uuids, true, id);
    }
    assert c.connId == id;
    ReceiveEnds(r1, cfg, Stamped(c, now), req, AckOf(req.body), FirstOf(req.body), MsgsOf(req.body), true);
    assert r1.connections - {id} == r.connections - {id};
  }

  /** An acknowledgement below sentCounter is a protocol mismatch: the
      connection ends with 410 and nothing is delivered. */
  lemma StaleAckEndsConnection(r: Registry, cfg: Settings, req: Request, now: int, uuids: seq<string>, id: string)
    requires WellKeyed(r.connections) && Exchanging(r, cfg, req, id) && BodyParses(req.body)
    requires !TooLarge(MsgsOf(req.body), cfg.maxMessageSize)
    requires AckOf(req.body) < r.connections[id].sentCounter
    ensures var r' := Serve(r, cfg, req, now, uuids);
      var c := r.connections[id];
      && r'.connections == r.connections - {id}
      && r'.log == r.log + ReleasePoll(c, HttpNoContent) + GoneLog(cfg, c, req.handle) + [Disconnected(id)]
  {
    var c := r.connections[id];
    var r1 := Registry(r.connections[id := Stamped(c, now)], r.log + ReleasePoll(c, HttpNoContent));
    var rr := Receive(r1, cfg, Stamped(c, now), req, AckOf(req.body), FirstOf(req.body), MsgsOf(req.body), true);
    assert Serve(r, cfg, req, now, uuids) == rr by {
      ServeReachesReceive(r, cfg, req, now, uuids, true, id);
    }
    assert c.connId == id;
    ReceiveEnds(r1, cfg, Stamped(c, now), req, AckOf(req.body), FirstOf(req.body), MsgsOf(req.body), true);
    assert r1.connections - {id} == r.connections - {id};
  }

  /** An acknowledgement past the queue makes service throw with the
      queue emptied and sentCounter advanced past it; the messages are
      counted but not delivered. */
  lemma AckPastQueueAborts(r: Registry, cfg: Settings, req: Request, now: int, uuids: seq<string>, id: string)
    requires WellKeyed(r.connections) && Exchanging(r, cfg, req, id) && BodyParses(req.body)
    requires !TooLarge(MsgsOf(req.body), cfg.maxMessageSize)
    requires var c := r.connections[id]; AckOf(req.body) > c.sentCounter + |c.queue|
    ensures var r' := Serve(r, cfg, req, now, uuids);
      var c := r.connections[id];
      && r'.connections == r.connections[id := Overrun(Stamped(c, now), FirstOf(req.body), MsgsOf(req.body))]
      && r'.log == r.log + ReleasePoll(c, HttpNoContent) + [Aborted(req.handle, IndexOutOfBounds)]
  {
    var c := r.connections[id];
    var c' := Overrun(Stamped(c, now), FirstOf(req.body), MsgsOf(req.body));
    ServeReachesReceive(r, cfg, req, now, uuids, true, id);
    ReceiveOverruns(Registry(r.connections[id := Stamped(c, now)], r.log + ReleasePoll(c, HttpNoContent)), cfg,
                    Stamped(c, now), req, AckOf(req.body), FirstOf(req.body), MsgsOf(req.body), true);
    assert Stamped(c, now).connId == id;
    assert r.connections[id := Stamped(c, now)][id := c'] == r.connections[id := c'];
  }


  // ---------------------------------------------------------------------
  // Properties of post, terminate and the listener

  /** post for an unknown or closing connection changes nothing. */
  lemma PostIgnored(r: Registry, cfg: Settings, id: string, msg: string)
    requires id !in r.connections || r.connections[id].closing
    ensures PostStep(r, cfg, id, msg) == r
  {}

  /** post with room in the queue: the message is numbered next after the
      queue, the other records stay as they were, and a held poll is
      released and answered with the counters and the new queue. */
  lemma PostQueues(r: Registry, cfg: Settings, id: string, msg: string)
    requires id in r.connections && !r.connections[id].closing
    requires |r.connections[id].queue| < cfg.maxQueueLength
    ensures var r' := PostStep(r, cfg, id, msg);
      var c := r.connections[id];
      var c' := c.(queue := c.queue + [msg], asyncContext := None);
      && r'.connections == r.connections[id := c']
      && Numbered(c.sentCounter, c'.queue) == Numbered(c.sentCounter, c.queue)[c.sentCounter + |c.queue| := msg]
      && r'.log == r.log + (if c.asyncContext.Some? then [Respond(c.asyncContext.value, HttpOk, QueueText(c'))]
                            else [])
  {
    var c := r.connections[id];
    AppendNumbers(c.sentCounter, c.queue, msg);
    if c.asyncContext.None? {
      assert c.(queue := c.queue + [msg]) == c.(queue := c.queue + [msg], asyncContext := None);
    }
  }

  /** post to a full queue ends the connection: a held poll is answered
      410 and the session invalidated when so configured, but the handler
      is not told. */
  lemma PostOverflowCloses(r: Registry, cfg: Settings, id: string, msg: string)
    requires WellKeyed(r.connections)
    requires id in r.connections && !r.connections[id].closing
    requires |r.connections[id].queue| >= cfg.maxQueueLength
    ensures var r' := PostStep(r, cfg, id, msg);
      var c := r.connections[id];
      && r'.connections == r.connections - {id}
      && r'.log == r.log + ReleasePoll(c, HttpGone)
                         + (if cfg.disposeSessionOnConnectionClose && c.session then [Invalidated(id)] else [])
      && forall i :: |r.log| <= i < |r'.log| ==> !r'.log[i].Disconnected?
  {
    assert r.connections[id].connId == id;
  }

  /** terminate marks the connection closing and answers a held poll 204;
      a later post is then ignored. */
  lemma TerminateThenPostIsIgnored(r: Registry, cfg: Settings, id: string, msg: string)
    requires id in r.connections
    ensures var r' := TerminateStep(r, id);
      var c := r.connections[id];
      && r'.connections == r.connections[id := c.(closing := true, asyncContext := None)]
      && r'.log == r.log + ReleasePoll(c, HttpNoContent)
      && PostStep(r', cfg, id, msg) == r'
  {}

  /** A timed-out poll is answered 204 once; the record forgets it if it
      is the one held and is otherwise unchanged, as are the others. */
  lemma TimeoutForgetsPoll(r: Registry, id: string, request: Handle)
    ensures var r' := TimeoutStep(r, id, request);
      && r'.log == r.log + [Respond(request, HttpNoContent, "")]
      && r'.connections.Keys == r.connections.Keys
      && (forall k :: k in r.connections && k != id ==> r'.connections[k] == r.connections[k])
      && (id in r.connections ==>
            && r'.connections[id].asyncContext != Some(request)
            && r'.connections[id].(asyncContext := r.connections[id].asyncContext) == r.connections[id])
  {}

  /** A completed or failed poll is forgotten by its record if it is the
      one held; nothing is answered. */
  lemma EndedForgetsPoll(r: Registry, id: string, request: Handle)
    ensures var r' := EndedStep(r, id, request);
      && r'.log == r.log
      && r'.connections.Keys == r.connections.Keys
      && (forall k :: k in r.connections && k != id ==> r'.connections[k] == r.connections[k])
      && (id in r.connections ==>
            && r'.connections[id].asyncContext != Some(request)
            && r'.connections[id].(asyncContext := r.connections[id].asyncContext) == r.connections[id])
  {}

  // ---------------------------------------------------------------------
  // Properties of the sweep

  /** Whether the sweep at `now` ends the record. */
  predicate Expired(cfg: Settings, conn: Connection, now: int)
  {
    Idle(conn, now) > cfg.connectionTimeout
  }

  /** What the sweep may add to the log: a 410 for a held poll and a
      session invalidation. */
  predicate Quiet(a: ServletAction)
  {
    (a.Respond? && a.status == HttpGone && a.body == "") || a.Invalidated?
  }

  lemma SweepOneKeyed(r: Registry, cfg: Settings, id: string, now: int)
    requires WellKeyed(r.connections)
    ensures var r' := SweepOne(r, cfg, id, now);
      && WellKeyed(r'.connections)
      && r'.connections == map k | k in r.connections && (k != id || !Expired(cfg, r.connections[k], now))
                                 :: r.connections[k]
  {
    if id in r.connections && Expired(cfg, r.connections[id], now) {
      assert r.connections[id].connId == id;
    }
  }

  /** The sweep ends exactly the listed records idle longer than
      connectionTimeout and leaves the others as they were. */
  lemma {:induction false} SweepKeepsLive(r: Registry, cfg: Settings, order: seq<string>, now: int)
    requires WellKeyed(r.connections) && Distinct(order)
    ensures var r' := SweepAll(r, cfg, order, now);
      && WellKeyed(r'.connections)
      && r'.connections == map k | k in r.connections && (k !in order || !Expired(cfg, r.connections[k], now))
                                 :: r.connections[k]
    decreases |order|
  {
    if order != [] {
      var r1 := SweepOne(r, cfg, order[0], now);
      SweepOneKeyed(r, cfg, order[0], now);
      SweepKeepsLive(r1, cfg, order[1..], now);
      var r' := SweepAll(r, cfg, order, now);
      assert r' == SweepAll(r1, cfg, order[1..], now);
      forall k
        ensures k in r'.connections <==> k in r.connections && (k !in order || !Expired(cfg, r.connections[k], now))
      {
        if k in order && k != order[0] {
          var j :| 0 <= j < |order| && order[j] == k;
          assert order[1..][j - 1] == k;
        }
      }
    }
  }

  /** The sweep only appends to the log, and only 410 answers and
      session invalidations: the handler never hears of the connections
      it ends. */
  lemma {:induction false} SweepIsSilent(r: Registry, cfg: Settings, order: seq<string>, now: int)
    ensures var r' := SweepAll(r, cfg, order, now);
      && |r'.log| >= |r.log| && r'.log[..|r.log|] == r.log
      && forall i :: |r.log| <= i < |r'.log| ==> Quiet(r'.log[i])
    decreases |order|
  {
    if order != [] {
      var r1 := SweepOne(r, cfg, order[0], now);
      SweepIsSilent(r1, cfg, order[1..], now);
      var r' := SweepAll(r, cfg, order, now);
      assert r' == SweepAll(r1, cfg, order[1..], now);
      assert |r1.log| >= |r.log| && r1.log[..|r.log|] == r.log;
      assert forall i :: |r.log| <= i < |r1.log| ==> Quiet(r1.log[i]);
      forall i | |r.log| <= i < |r'.log|
        ensures Quiet(r'.log[i])
      {
        if i < |r1.log| {
          assert r'.log[i] == r'.log[..|r1.log|][i];
        }
      }
      assert r'.log[..|r.log|] == r'.log[..|r1.log|][..|r.log|];
    }
  }

  // ---------------------------------------------------------------------
  // The long poll that post cannot answer

  /** As written, a PUT that finds nothing to send starts a long poll but
      leaves the record holding none, so a post that follows queues its
      message without answering: the poll waits for its timeout. */
  lemma LongPollIsDropped(r: Registry, cfg: Settings, req: Request, now: int, uuids: seq<string>, id: string,
                          msg: string)
    requires WellKeyed(r.connections) && Exchanging(r, cfg, req, id) && BodyParses(req.body)
    requires !TooLarge(MsgsOf(req.body), cfg.maxMessageSize) && req.verb == PUT && cfg.maxQueueLength > 0
    requires var c := r.connections[id];
      !c.closing && c.sentCounter <= AckOf(req.body) == c.sentCounter + |c.queue|
    ensures var r1 := ServeAsWritten(r, cfg, req, now, uuids);
      && LongPoll(req.handle, cfg.longPollingTimeout) in r1.log
      && id in r1.connections && r1.connections[id].asyncContext.None?
      && PostStep(r1, cfg, id, msg).log == r1.log
  {
    var c := r.connections[id];
    var s := Stamped(c, now);
    var r0 := Registry(r.connections[id := s], r.log + ReleasePoll(c, HttpNoContent));
    ServeReachesReceive(r, cfg, req, now, uuids, false, id);
    ReceiveKeeps(r0, cfg, s, req, AckOf(req.body), FirstOf(req.body), MsgsOf(req.body), false);
    ReceiveAnswers(r0, cfg, s, req, AckOf(req.body), FirstOf(req.body), MsgsOf(req.body), false);
    var r1 := ServeAsWritten(r, cfg, req, now, uuids);
    var c1 := Advanced(s, AckOf(req.body), FirstOf(req.body), MsgsOf(req.body));
    assert r1.connections[id] == c1 by { assert s.connId == id; }
    assert c1.queue == [];
    assert r1.log[|r0.log|] == LongPoll(req.handle, cfg.longPollingTimeout);
  }

  /** With the poll held, the post that follows answers it at once with
      200, the counters and the queue holding the new message. */
  lemma PostAnswersHeldPoll(r: Registry, cfg: Settings, req: Request, now: int, uuids: seq<string>, id: string,
                            msg: string)
    requires WellKeyed(r.connections) && Exchanging(r, cfg, req, id) && BodyParses(req.body)
    requires !TooLarge(MsgsOf(req.body), cfg.maxMessageSize) && req.verb == PUT && cfg.maxQueueLength > 0
    requires var c := r.connections[id];
      !c.closing && c.sentCounter <= AckOf(req.body) == c.sentCounter + |c.queue|
    ensures var r1 := Serve(r, cfg, req, now, uuids);
      var c1 := r1.connections[id];
      && c1.asyncContext == Some(req.handle)
      && PostStep(r1, cfg, id, msg).log
           == r1.log + [Respond(req.handle, HttpOk, QueueText(c1.(queue := [msg], asyncContext := None)))]
  {
    var c := r.connections[id];
    ExchangeKeeps(r, cfg, req, now, uuids, id);
    var r1 := Serve(r, cfg, req, now, uuids);
    var c1 := Exchanged(c, now, req.body);
    assert c1.queue == [];
    var held := c1.(asyncContext := Some(req.handle));
    assert r1.connections[id] == held;
    PostQueues(r1, cfg, id, msg);
    assert held.queue + [msg] == [msg];
    assert held.(queue := held.queue + [msg], asyncContext := None) == held.(queue := [msg], asyncContext := None);
  }

  // ---------------------------------------------------------------------
  // The loops of service

  /** The total length of two runs of messages is the sum of theirs. */
  lemma {:induction false} TotalLengthAppend(a: seq<string>, b: seq<string>)
    ensures TotalLength(a + b) == TotalLength(a) + TotalLength(b)
    decreases |a|
  {
    if a == [] {
      assert a + b == b;
    } else {
      assert (a + b)[1..] == a[1..] + b;
      TotalLengthAppend(a[1..], b);
    }
  }

  /** The running size grows by the length of the message read. */
  lemma TotalLengthStep(msgs: seq<string>, i: nat)
    requires i < |msgs|
    ensures TotalLength(msgs[..i + 1]) == TotalLength(msgs[..i]) + |msgs[i]|
  {
    assert msgs[..i + 1] == msgs[..i] + [msgs[i]];
    TotalLengthAppend(msgs[..i], [msgs[i]]);
  }

  /** A prefix of the messages is no longer than all of them. */
  lemma TotalLengthPrefix(msgs: seq<string>, k: nat)
    requires k <= |msgs|
    ensures TotalLength(msgs[..k]) <= TotalLength(msgs)
  {
    assert msgs == msgs[..k] + msgs[k..];
    TotalLengthAppend(msgs[..k], msgs[k..]);
  }

  /** The read loop: each message's length is added to the running size
      and the loop gives up once it passes maxMessageSize; a message
      numbered below the counter is skipped, any other is kept and
      counted. */
  method ReadMessages(received: int, first: int, msgs: seq<string>, maxMessageSize: int)
    returns (accepted: seq<string>, counter: int, tooLarge: bool)
    ensures tooLarge == TooLarge(msgs, maxMessageSize)
    ensures !tooLarge ==> accepted == Accepted(received, first, msgs) && counter == received + |accepted|
  {
    accepted := [];
    counter := received;
    tooLarge := false;
    var msgSize := 0;
    var readMsgNumber := first;
    var i := 0;
    ghost var rest := msgs;
    while i < |msgs|
      invariant 0 <= i <= |msgs|
      invariant msgSize == TotalLength(msgs[..i])
      invariant i > 0 ==> msgSize <= maxMessageSize
      invariant msgs[..i] + rest == msgs
      invariant ConsumingLoop(received, first, msgs) == accepted + ConsumingLoop(counter, readMsgNumber, rest)
      invariant counter == received + |accepted|
    {
      var msg := msgs[i];
      TakeHead(msgs, i, rest);
      ConsumingStep(counter, readMsgNumber, rest);
      rest := rest[1..];
      TotalLengthStep(msgs, i);
      msgSize := msgSize + |msg|;
      i := i + 1;
      if msgSize > maxMessageSize {
        TotalLengthPrefix(msgs, i);
        tooLarge := true;
        return;
      }
      if readMsgNumber < counter {
        readMsgNumber := readMsgNumber + 1;
        continue;
      }
      ShiftOne(accepted, msg, ConsumingLoop(counter + 1, readMsgNumber + 1, rest));
      accepted := accepted + [msg];
      counter := counter + 1;
      readMsgNumber := readMsgNumber + 1;
    }
    assert msgs[..i] == msgs;
    ConsumingLoopAccepts(received, first, msgs);
  }

  /** The trim loop: queue.remove(0) and sentCounter++ until sentCounter
      reaches `ack`; remove(0) on an empty queue throws, the queue then
      being empty. */
  method TrimQueue(conn: Connection, ack: int) returns (c: Connection, r: Outcome)
    requires conn.sentCounter <= ack
    ensures ack <= conn.sentCounter + |conn.queue| ==>
      r == Done && c == Acked(conn, ack)
    ensures ack > conn.sentCounter + |conn.queue| ==>
      r == Threw(IndexOutOfBounds) && c == conn.(queue := [], sentCounter := conn.sentCounter + |conn.queue|)
  {
    c := conn;
    while c.sentCounter < ack
      invariant conn.sentCounter <= c.sentCounter <= ack
      invariant c.sentCounter - conn.sentCounter <= |conn.queue|
      invariant c == conn.(queue := Trim(conn.queue, c.sentCounter - conn.sentCounter), sentCounter := c.sentCounter)
      decreases ack - c.sentCounter
    {
      if c.queue == [] {
        return c, Threw(IndexOutOfBounds);
      }
      TrimStep(conn.queue, c.sentCounter - conn.sentCounter);
      c := c.(queue := c.queue[1..], sentCounter := c.sentCounter + 1);
    }
    return c, Done;
  }

  /** The message actions of one more message follow those before it. */
  lemma {:induction false} DeliveriesAppend(id: string, msgs: seq<string>, m: string)
    ensures Deliveries(id, msgs + [m]) == Deliveries(id, msgs) + [Delivered(id, m)]
    decreases |msgs|
  {
    if msgs == [] {
      assert msgs + [m] == [m];
    } else {
      assert (msgs + [m])[1..] == msgs[1..] + [m];
      DeliveriesAppend(id, msgs[1..], m);
    }
  }

  // ---------------------------------------------------------------------
  // The servlet

  class PollingServlet {
    var createSession: bool
    var disposeSessionOnConnectionClose: bool
    var longPollingTimeout: int
    var connectionTimeout: int
    var maxMessageSize: int
    var maxQueueLength: int
    /** Registered connections by id. */
    var connections: map<string, Connection>
    /** Every answer, long poll, invalidation and report so far, oldest
        first. */
    var log: seq<ServletAction>

    function Reg(): Registry
      reads this
    {
      Registry(connections, log)
    }

    function Cfg(): Settings
      reads this
    {
      Settings(createSession, disposeSessionOnConnectionClose, longPollingTimeout, connectionTimeout,
               maxMessageSize, maxQueueLength)
    }

    ghost predicate Valid()
      reads this
    {
      WellKeyed(connections)
    }

    constructor ()
      ensures Valid()
      ensures Cfg() == Settings(false, false, 20000, 120000, 256000, 300)
      ensures connections == map[] && log == []
    {
      createSession := false;
      disposeSessionOnConnectionClose := false;
      longPollingTimeout := 20000;
      connectionTimeout := 120000;
      maxMessageSize := 256000;
      maxQueueLength := 300;
      connections := map[];
      log := [];
    }

    /** init(config): each parameter is the init parameter of that name,
        None when absent. A flag is set by "true" in any case; a number
        that does not parse leaves the field as it was. */
    method Init(createSessionParam: Option<string>, disposeParam: Option<string>,
                maxMessageSizeParam: Option<string>, longPollingTimeoutParam: Option<string>,
                connectionTimeoutParam: Option<string>, maxQueueLengthParam: Option<string>)
      modifies this`createSession, this`disposeSessionOnConnectionClose, this`maxMessageSize,
               this`longPollingTimeout, this`connectionTimeout, this`maxQueueLength
      ensures Cfg() == Settings(IsTrue(createSessionParam), IsTrue(disposeParam),
                                IntParam(longPollingTimeoutParam, old(longPollingTimeout)),
                                IntParam(connectionTimeoutParam, old(connectionTimeout)),
                                IntParam(maxMessageSizeParam, old(maxMessageSize)),
                                IntParam(maxQueueLengthParam, old(maxQueueLength)))
    {
      createSession := IsTrue(createSessionParam);
      disposeSessionOnConnectionClose := IsTrue(disposeParam);
      maxMessageSize := IntParam(maxMessageSizeParam, maxMessageSize);
      longPollingTimeout := IntParam(longPollingTimeoutParam, longPollingTimeout);
      connectionTimeout := IntParam(connectionTimeoutParam, connectionTimeout);
      maxQueueLength := IntParam(maxQueueLengthParam, maxQueueLength);
    }

    /** Draws random ids (`uuids`, in order) until one is not registered. */
    method CreateConnectionId(uuids: seq<string>) returns (id: string)
      requires HasFresh(uuids, connections)
      ensures id == FirstFresh(uuids, connections)
    {
      ghost var k := FreshIndex(uuids, connections, 0);
      var i := 0;
      id := uuids[0];
      while id in connections
        invariant 0 <= i <= k && id == uuids[i]
        decreases k - i
      {
        i := i + 1;
        id := uuids[i];
      }
    }

    /** service(req): `now` is the clock in milliseconds and `uuids` the
        random ids createConnectionId would draw. */
    method Service(req: Request, now: int, uuids: seq<string>)
      requires Valid() && CanServe(connections, req, uuids)
      modifies this`connections, this`log
      ensures Valid()
      ensures Reg() == Serve(old(Reg()), Cfg(), req, now, uuids)
    {
      if req.cid.None? {
        var connId := CreateConnectionId(uuids);
        connections := connections[connId := Connection(connId, 0, now, false, createSession, [], 0, None)];
        log := log + [Respond(req.handle, HttpOk, HandshakeText(connId, longPollingTimeout, connectionTimeout))];
        log := log + [Connected(connId)];
        return;
      }
      var connId := req.cid.value;
      if connId !in connections {
        log := log + [Respond(req.handle, HttpGone, "")];
        return;
      }
      ServePoll(connections[connId], req, now);
    }

    method ServePoll(conn: Connection, req: Request, now: int)
      requires Valid() && conn.connId in connections && connections[conn.connId] == conn
      modifies this`connections, this`log
      ensures Valid()
      ensures Reg() == Poll(old(Reg()), Cfg(), conn, req, now, true)
    {
      var c := conn;
      if c.asyncContext.Some? {
        log := log + [Respond(c.asyncContext.value, HttpNoContent, "")];
        c := c.(asyncContext := None);
      }
      assert c == conn.(asyncContext := None);
      assert log == old(log) + ReleasePoll(conn, HttpNoContent);
      connections := connections[c.connId := c];
      DispatchRequest(c, req, now);
    }

    method DispatchRequest(conn: Connection, req: Request, now: int)
      requires Valid() && conn.connId in connections && connections[conn.connId] == conn
      modifies this`connections, this`log
      ensures Valid()
      ensures Reg() == Dispatch(old(Reg()), Cfg(), conn, req, now, true)
    {
      if createSession && !req.hasSession {
        Disconnect(conn, req.handle);
        return;
      }
      if req.verb == DELETE {
        Disconnect(conn, req.handle);
        return;
      } else if req.verb != POST && req.verb != PUT {
        log := log + [Respond(req.handle, HttpInvalidMethod, "")];
        return;
      }
      var c := conn.(lastUsedTimestamp := now);
      connections := connections[c.connId := c];
      ExchangeBody(c, req);
    }

    method CloseConnection(conn: Connection, resp: Option<Handle>)
      requires Valid()
      modifies this`connections, this`log
      ensures Valid()
      ensures Reg() == CloseConn(old(Reg()), Cfg(), conn, resp)
    {
      connections := connections - {conn.connId};
      if conn.asyncContext.Some? {
        log := log + [Respond(conn.asyncContext.value, HttpGone, "")];
      }
      if resp.Some? {
        log := log + [Respond(resp.value, HttpGone, "")];
      }
      if disposeSessionOnConnectionClose && conn.session {
        log := log + [Invalidated(conn.connId)];
      }
    }

    /** closeConnection for the current request, then onDisconnected. */
    method Disconnect(conn: Connection, request: Handle)
      requires Valid()
      modifies this`connections, this`log
      ensures Valid()
      ensures Reg() == Closed(old(Reg()), Cfg(), conn, request)
    {
      CloseConnection(conn, Some(request));
      log := log + [Disconnected(conn.connId)];
    }

    method ExchangeBody(conn: Connection, req: Request)
      requires Valid() && conn.connId in connections && connections[conn.connId] == conn
      modifies this`connections, this`log
      ensures Valid()
      ensures Reg() == Exchange(old(Reg()), Cfg(), conn, req, true)
    {
      var lines := ReaderLines(req.body);
      if |lines| < 2 {
        log := log + [Aborted(req.handle, NumberFormat)];
        return;
      }
      var ack := ParseLong(lines[0]);
      var first := ParseLong(lines[1]);
      if ack.None? || first.None? {
        log := log + [Aborted(req.handle, NumberFormat)];
        return;
      }
      ReceiveMessages(conn, req, ack.value, first.value, lines[2..]);
    }

    method ReceiveMessages(conn: Connection, req: Request, ack: int, first: int, lines: seq<string>)
      requires Valid() && conn.connId in connections && connections[conn.connId] == conn
      modifies this`connections, this`log
      ensures Valid()
      ensures Reg() == Receive(old(Reg()), Cfg(), conn, req, ack, first, lines, true)
    {
      var msgs, counter, tooLarge := ReadMessages(conn.receivedCounter, first, lines, maxMessageSize);
      if tooLarge {
        Disconnect(conn, req.handle);
        return;
      }
      var c1 := conn.(receivedCounter := counter);
      assert c1 == Counted(conn, first, lines);
      connections := connections[conn.connId := c1];
      ghost var r1 := Reg();
      assert Receive(old(Reg()), Cfg(), conn, req, ack, first, lines, true)
          == Acknowledge(r1, Cfg(), c1, req, ack, msgs, true);
      ApplyAck(c1, req, ack, msgs);
    }

    method ApplyAck(conn: Connection, req: Request, ack: int, msgs: seq<string>)
      requires Valid() && conn.connId in connections && connections[conn.connId] == conn
      modifies this`connections, this`log
      ensures Valid()
      ensures Reg() == Acknowledge(old(Reg()), Cfg(), conn, req, ack, msgs, true)
    {
      if ack < conn.sentCounter {
        Disconnect(conn, req.handle);
        return;
      }
      var c1, r := TrimQueue(conn, ack);
      connections := connections[conn.connId := c1];
      if r.Threw? {
        log := log + [Aborted(req.handle, IndexOutOfBounds)];
        return;
      }
      Answer(c1, req, msgs);
    }

    method Answer(conn: Connection, req: Request, msgs: seq<string>)
      requires Valid() && conn.connId in connections && connections[conn.connId] == conn
      modifies this`connections, this`log
      ensures Valid()
      ensures Reg() == Reply(old(Reg()), Cfg(), conn, req, msgs, true)
    {
      if conn.queue != [] {
        log := log + [Respond(req.handle, HttpOk, QueueText(conn))];
      } else if conn.closing {
        Disconnect(conn, req.handle);
        return;
      } else if req.verb == POST {
        log := log + [Respond(req.handle, HttpOk, QueueText(conn))];
      } else {
        // the long poll is kept in the record until post, terminate,
        // the timeout or the next request answers it
        connections := connections[conn.connId := conn.(asyncContext := Some(req.handle))];
        log := log + [LongPoll(req.handle, longPollingTimeout)];
      }
      Deliver(conn.connId, msgs);
    }

    /** Hands the accepted messages to the handler, in order. */
    method Deliver(id: string, msgs: seq<string>)
      modifies this`log
      ensures log == old(log) + Deliveries(id, msgs)
    {
      for k := 0 to |msgs|
        invariant log == old(log) + Deliveries(id, msgs[..k])
      {
        assert msgs[..k + 1] == msgs[..k] + [msgs[k]];
        DeliveriesAppend(id, msgs[..k], msgs[k]);
        log := log + [Delivered(id, msgs[k])];
      }
      assert msgs[..|msgs|] == msgs;
    }

    method Terminate(connectionId: string)
      requires Valid()
      modifies this`connections, this`log
      ensures Valid()
      ensures Reg() == TerminateStep(old(Reg()), connectionId)
    {
      if connectionId in connections {
        var conn := connections[connectionId];
        var c1 := conn.(closing := true);
        if c1.asyncContext.Some? {
          log := log + [Respond(c1.asyncContext.value, HttpNoContent, "")];
          c1 := c1.(asyncContext := None);
        }
        connections := connections[connectionId := c1];
      }
    }

    method Post(connectionId: string, message: string)
      requires Valid()
      modifies this`connections, this`log
      ensures Valid()
      ensures Reg() == PostStep(old(Reg()), Cfg(), connectionId, message)
    {
      if connectionId !in connections {
        return;
      }
      var conn := connections[connectionId];
      if conn.closing {
        return;
      }
      if |conn.queue| >= maxQueueLength {
        CloseConnection(conn, None);
        return;
      }
      conn := conn.(queue := conn.queue + [message]);
      if conn.asyncContext.Some? {
        log := log + [Respond(conn.asyncContext.value, HttpOk, QueueText(conn))];
        conn := conn.(asyncContext := None);
      }
      connections := connections[connectionId := conn];
    }

    /** The record's listener hears that its poll `request` timed out. */
    method OnTimeout(connectionId: string, request: Handle)
      requires Valid()
      modifies this`connections, this`log
      ensures Valid()
      ensures Reg() == TimeoutStep(old(Reg()), connectionId, request)
    {
      log := log + [Respond(request, HttpNoContent, "")];
      if connectionId in connections && connections[connectionId].asyncContext == Some(request) {
        connections := connections[connectionId := connections[connectionId].(asyncContext := None)];
      }
    }

    /** The record's listener hears that its poll `request` completed or
        failed. */
    method OnEnded(connectionId: string, request: Handle)
      requires Valid()
      modifies this`connections
      ensures Valid()
      ensures Reg() == EndedStep(old(Reg()), connectionId, request)
    {
      if connectionId in connections && connections[connectionId].asyncContext == Some(request) {
        connections := connections[connectionId := connections[connectionId].(asyncContext := None)];
      }
    }

    /** The timer task: visits the records in `order`, a copy of the
        registry's records taken when the task starts. */
    method Sweep(now: int, order: seq<string>)
      requires Valid()
      requires Distinct(order) && forall k :: k in order <==> k in connections
      modifies this`connections, this`log
      ensures Valid()
      ensures Reg() == SweepAll(old(Reg()), Cfg(), order, now)
      ensures connections == map k | k in old(connections) && !Expired(Cfg(), old(connections)[k], now)
                                   :: old(connections)[k]
      ensures forall k :: k in connections ==> !Expired(Cfg(), connections[k], now)
    {
      ghost var r0 := Reg();
      SweepKeepsLive(r0, Cfg(), order, now);
      for k := 0 to |order|
        invariant Valid()
        invariant SweepAll(old(Reg()), Cfg(), order, now) == SweepAll(Reg(), Cfg(), order[k..], now)
      {
        assert order[k..][1..] == order[k + 1..];
        var id := order[k];
        if id in connections && Idle(connections[id], now) > connectionTimeout {
          CloseConnection(connections[id], None);
        }
      }
    }
  }
}
