/** The server side of the socket transport (AbstractSocketServerConnector):
    a registry of logical connections, each bound to the physical socket it
    last spoke on, that answers the client's frames (N, S, R, H, C, CA),
    suppresses duplicate messages by number, trims its queue on the
    client's acknowledgement, queues the application's messages with a
    length limit, and sweeps idle connections.

    Sockets are opaque handles; what the connector sends or closes and what
    it reports to its handler is appended, in order, to `log`. Clock and
    random ids are parameters. A connection record is reached only through
    the registry, so its in-place updates are modelled as replacing its map
    entry. */
module SocketServers {
  import opened Common
  import opened Wire
  import opened Sequencing
  import opened ConnectionIds

  /** A physical connection (socket). */
  type Handle = nat

  /** One logical connection. `connection` is None when no socket is bound. */
  datatype Connection = Connection(
    connId: string, receivedCounter: int, lastUsedTimestamp: int, closing: bool,
    queue: seq<string>, sentCounter: int, connection: Option<Handle>)

  /** What the connector does, in order: socketSend/socketClose on a
      socket (None for a null one) and the handler callbacks. */
  datatype ServerAction =
    | SocketSend(target: Option<Handle>, text: string)
    | SocketClose(target: Option<Handle>)
    | Connected(connId: string)
    | Disconnected(connId: string)
    | Delivered(connId: string, message: string)

  datatype Registry = Registry(connections: map<string, Connection>, log: seq<ServerAction>)

  datatype Limits = Limits(heartbeatInterval: int, connectionTimeout: int, maxQueueLength: int)

  /** Every record is filed under its own id. */
  predicate WellKeyed(c: map<string, Connection>)
  {
    forall id :: id in c ==> c[id].connId == id
  }

  // ---------------------------------------------------------------------
  // Frames the server writes

  /** "N\n<id>\n<heartbeat>\n<timeout>", without a final newline. */
  function NewConnText(id: string, heartbeat: int, timeout: int): string
  {
    Join(["N", id, IntToString(heartbeat)]) + IntToString(timeout)
  }

  function HeartbeatAckText(received: int): string
  {
    Join(["HA", IntToString(received)])
  }

  /** The answer to R: both counters and the whole queue. */
  function ResendText(received: int, sent: int, queue: seq<string>): string
  {
    Join(["S", IntToString(received), IntToString(sent)] + queue)
  }

  /** A posted message with its number. */
  function SendText(received: int, number: int, msg: string): string
  {
    Join(["S", IntToString(received), IntToString(number), msg])
  }

  const ExpiredText: string := "C\nExpired"
  const ClosedText: string := "C\nClosed"
  const CloseRequestText: string := "CR\nClose"
  const TerminateText: string := "CR\n"

  // ---------------------------------------------------------------------
  // The steps, as functions of the registry

  /** The server's own lines of a frame must name a registered id for it
      to be anything but N; N asks for an id from the draws. */
  predicate CanServe(c: map<string, Connection>, text: string, uuids: seq<string>)
  {
    var lines := SplitFrame(text);
    |lines| > 0 && lines[0] == "N" ==> HasFresh(uuids, c)
  }

  /** A new connection under a fresh id, bound to `connection`, answered
      with the id and both timeouts, then reported to the handler. */
  function Create(r: Registry, lim: Limits, connection: Handle, now: int, uuids: seq<string>): Registry
    requires HasFresh(uuids, r.connections)
  {
    var id := FirstFresh(uuids, r.connections);
    Registry(r.connections[id := Connection(id, 0, now, false, [], 0, Some(connection))],
             r.log + [SocketSend(Some(connection), NewConnText(id, lim.heartbeatInterval, lim.connectionTimeout)),
                      Connected(id)])
  }

  /** closeConnection: removed, reported, and its socket closed. */
  function CloseConn(r: Registry, conn: Connection): Registry
  {
    Registry(r.connections - {conn.connId}, r.log + [Disconnected(conn.connId), SocketClose(conn.connection)])
  }

  /** The record answered on `connection`: a different socket bound
      before is closed and replaced. */
  function Rebound(conn: Connection, connection: Handle): Connection
  {
    if conn.connection != Some(connection) then conn.(connection := Some(connection)) else conn
  }

  function RebindLog(conn: Connection, connection: Handle): seq<ServerAction>
  {
    if conn.connection != Some(connection) && conn.connection.Some? then [SocketClose(conn.connection)] else []
  }

  /** One message action per accepted message, in order. */
  function Deliveries(id: string, msgs: seq<string>): (acts: seq<ServerAction>)
    ensures |acts| == |msgs|
    ensures forall i :: 0 <= i < |msgs| ==> acts[i] == Delivered(id, msgs[i])
  {
    if msgs == [] then [] else [Delivered(id, msgs[0])] + Deliveries(id, msgs[1..])
  }

  /** service(connection, text). */
  function Serve(r: Registry, lim: Limits, connection: Handle, text: string, now: int, uuids: seq<string>): Registry
    requires CanServe(r.connections, text, uuids)
  {
    var lines := SplitFrame(text);
    if |lines| == 0 then r.(log := r.log + [SocketClose(Some(connection))])
    else if lines[0] == "N" then Create(r, lim, connection, now, uuids)
    else ServeId(r, connection, lines, now)
  }

  /** A frame other than N: it must name a registered id; a known id is
      rebound to `connection` and served. */
  function ServeId(r: Registry, connection: Handle, lines: seq<string>, now: int): Registry
    requires |lines| >= 1
  {
    if |lines| == 1 then r.(log := r.log + [SocketClose(Some(connection))])
    else if lines[1] !in r.connections then
      r.(log := r.log + [SocketSend(Some(connection), ExpiredText), SocketClose(Some(connection))])
    else
      var old_ := r.connections[lines[1]];
      var conn := Rebound(old_, connection);
      ServeKnown(Registry(r.connections[lines[1] := conn], r.log + RebindLog(old_, connection)), conn, lines, now)
  }

  /** A frame for a registered connection, after the rebinding: C and CA
      end it; any other command records the time and reads the counters. */
  function ServeKnown(r: Registry, conn: Connection, lines: seq<string>, now: int): Registry
    requires |lines| >= 2
  {
    if lines[0] == "C" then CloseConn(r.(log := r.log + [SocketSend(conn.connection, ClosedText)]), conn)
    else if lines[0] == "CA" then CloseConn(r, conn)
    else
      var c1 := conn.(lastUsedTimestamp := now);
      Counters(r.(connections := r.connections[conn.connId := c1]), c1, lines)
  }

  /** The acknowledgement (line 2) and, except for H, the number of the
      first message (line 3) and the messages; a missing or malformed
      counter closes the connection. H answers HA with receivedCounter
      unless closing. */
  function Counters(r: Registry, conn: Connection, lines: seq<string>): Registry
    requires |lines| >= 2
  {
    if |lines| < 3 || ParseLong(lines[2]).None? then CloseConn(r, conn)
    else if lines[0] == "H" then Heartbeat(r, conn)
    else Messages(r, conn, lines, ParseLong(lines[2]).value)
  }

  function Heartbeat(r: Registry, conn: Connection): Registry
  {
    if conn.closing then r
    else r.(log := r.log + [SocketSend(conn.connection, HeartbeatAckText(conn.receivedCounter))])
  }

  /** The number of the first message and the messages; those numbered
      below receivedCounter are dropped, the others counted. */
  function Messages(r: Registry, conn: Connection, lines: seq<string>, ack: int): Registry
  {
    if |lines| < 4 || ParseLong(lines[3]).None? then CloseConn(r, conn)
    else
      var msgs := Accepted(conn.receivedCounter, ParseLong(lines[3]).value, lines[4..]);
      var c1 := conn.(receivedCounter := conn.receivedCounter + |msgs|);
      Acknowledge(r.(connections := r.connections[conn.connId := c1]), c1, lines[0], ack, msgs)
  }

  /** The client acknowledged every message numbered below `ack`. Below
      sentCounter that is a protocol mismatch; past the queue the trimming
      throws; both close the connection. Otherwise the acknowledged head
      leaves the queue. Then S is done, R is answered with the counters
      and the queue (and CR when closing), anything else is a mismatch. */
  function Acknowledge(r: Registry, conn: Connection, cmd: string, ack: int, msgs: seq<string>): Registry
  {
    if ack < conn.sentCounter || ack > conn.sentCounter + |conn.queue| then CloseConn(r, conn)
    else
      var c1 := conn.(queue := Trim(conn.queue, ack - conn.sentCounter), sentCounter := ack);
      var r1 := r.(connections := r.connections[conn.connId := c1]);
      if cmd == "S" then Finish(r1, c1, msgs)
      else if cmd == "R" then
        var r2 := r1.(log := r1.log + [SocketSend(c1.connection, ResendText(c1.receivedCounter, c1.sentCounter, c1.queue))]);
        if c1.closing then r2.(log := r2.log + [SocketSend(c1.connection, CloseRequestText)])
        else Finish(r2, c1, msgs)
      else CloseConn(r1, c1)
  }

  /** The accepted messages reach the handler, unless the connection is
      closing. */
  function Finish(r: Registry, conn: Connection, msgs: seq<string>): Registry
  {
    if conn.closing then r else r.(log := r.log + Deliveries(conn.connId, msgs))
  }

  /** post(id, msg) as written: ignored for an unknown or closing
      connection; a full queue closes the connection, and the handler
      hears of it twice; otherwise the message is queued and sent with its
      number. */
  function PostStep(r: Registry, lim: Limits, id: string, msg: string): Registry
  {
    if id !in r.connections then r
    else
      var conn := r.connections[id];
      if conn.closing then r
      else if |conn.queue| >= lim.maxQueueLength then
        var r1 := CloseConn(r, conn);
        r1.(log := r1.log + [Disconnected(conn.connId)])
      else
        var c1 := conn.(queue := conn.queue + [msg]);
        Registry(r.connections[id := c1],
                 r.log + [SocketSend(c1.connection, SendText(c1.receivedCounter, c1.sentCounter + |c1.queue| - 1, msg))])
  }

  /** terminate(id): the connection is marked closing and asked to close. */
  function TerminateStep(r: Registry, id: string): Registry
  {
    if id !in r.connections then r
    else
      var conn := r.connections[id];
      Registry(r.connections[id := conn.(closing := true)], r.log + [SocketSend(conn.connection, TerminateText)])
  }

  /** Idle time in milliseconds. */
  function Idle(conn: Connection, now: int): int
  {
    now - conn.lastUsedTimestamp
  }

  /** The sweep's visit of one record: idle past connectionTimeout closes
      the connection; idle past heartbeatInterval + 10000 closes only its
      socket. */
  function SweepOne(r: Registry, lim: Limits, id: string, now: int): Registry
  {
    if id !in r.connections then r
    else
      var conn := r.connections[id];
      if Idle(conn, now) > lim.connectionTimeout then CloseConn(r, conn)
      else if Idle(conn, now) > lim.heartbeatInterval + 10000 && conn.connection.Some? then
        r.(log := r.log + [SocketClose(conn.connection)])
      else r
  }

  /** The sweep visits the records in the order `order`. */
  function SweepAll(r: Registry, lim: Limits, order: seq<string>, now: int): Registry
    decreases |order|
  {
    if order == [] then r else SweepAll(SweepOne(r, lim, order[0], now), lim, order[1..], now)
  }

  // ---------------------------------------------------------------------
  // The loops of service

  /** The receive loop: a message numbered below the counter is consumed
      and dropped, any other is kept and counted. */
  method ServerReceive(received: int, first: int, lines: seq<string>) returns (msgs: seq<string>, counter: int)
    ensures msgs == Accepted(received, first, lines)
    ensures counter == received + |msgs|
  {
    msgs := [];
    counter := received;
    var readMsgNumber := first;
    var i := 0;
    ghost var rest := lines;
    while i < |lines|
      invariant 0 <= i <= |lines|
      invariant lines[..i] + rest == lines
      invariant ConsumingLoop(received, first, lines) == msgs + ConsumingLoop(counter, readMsgNumber, rest)
      invariant counter == received + |msgs|
    {
      var msg := lines[i];
      TakeHead(lines, i, rest);
      ConsumingStep(counter, readMsgNumber, rest);
      rest := rest[1..];
      i := i + 1;
      if readMsgNumber < counter {
        readMsgNumber := readMsgNumber + 1;
        continue;
      }
      ShiftOne(msgs, msg, ConsumingLoop(counter + 1, readMsgNumber + 1, rest));
      msgs := msgs + [msg];
      counter := counter + 1;
      readMsgNumber := readMsgNumber + 1;
    }
    ConsumingLoopAccepts(received, first, lines);
  }

  /** The trim loop: queue.remove(0) and sentCounter++ until sentCounter
      reaches `ack`; remove(0) on an empty queue throws. */
  method TrimQueue(conn: Connection, ack: int) returns (c: Connection, r: Outcome)
    requires conn.sentCounter <= ack
    ensures ack <= conn.sentCounter + |conn.queue| ==>
      r == Done && c == conn.(queue := Trim(conn.queue, ack - conn.sentCounter), sentCounter := ack)
    ensures ack > conn.sentCounter + |conn.queue| ==> r == Threw(IndexOutOfBounds)
    ensures c.(queue := conn.queue, sentCounter := conn.sentCounter) == conn
  {
    c := conn;
    while c.sentCounter < ack
      invariant conn.sentCounter <= c.sentCounter <= ack
      invariant c.sentCounter - conn.sentCounter <= |conn.queue|
      invariant c == conn.(queue := Trim(conn.queue, c.sentCounter - conn.sentCounter), sentCounter := c.sentCounter)
      decreases ack - c.sentCounter
    {
      if c.queue == [] {
        return c, Threw(IndexOutOfBounds);
      }
      TrimStep(conn.queue, c.sentCounter - conn.sentCounter);
      c := c.(queue := c.queue[1..], sentCounter := c.sentCounter + 1);
    }
    return c, Done;
  }

  // ---------------------------------------------------------------------
  // Properties of service

  /** N registers a record under an id that was not registered, bound to
      the calling socket, with both counters at 0, an empty queue and not
      closing; no other record changes; the reply and onConnected follow. */
  lemma NewConnectionRegisters(r: Registry, lim: Limits, connection: Handle, text: string, now: int,
                               uuids: seq<string>)
    requires CanServe(r.connections, text, uuids)
    requires SplitFrame(text) != [] && SplitFrame(text)[0] == "N"
    ensures var r' := Serve(r, lim, connection, text, now, uuids);
      var id := FirstFresh(uuids, r.connections);
      && id !in r.connections && id in r'.connections
      && r'.connections[id] == Connection(id, 0, now, false, [], 0, Some(connection))
      && r'.connections - {id} == r.connections
      && r'.log == r.log + [SocketSend(Some(connection), NewConnText(id, lim.heartbeatInterval, lim.connectionTimeout)),
                            Connected(id)]
  {
    var id := FirstFresh(uuids, r.connections);
    var r' := Serve(r, lim, connection, text, now, uuids);
    assert r'.connections - {id} == r.connections;
  }

  /** A frame with no command, a non-N frame without an id, or one naming
      an unknown id leaves the registry unchanged and closes the socket;
      the unknown id is first told "C\nExpired". */
  lemma StrangersAreTurnedAway(r: Registry, lim: Limits, connection: Handle, text: string, now: int,
                               uuids: seq<string>)
    requires CanServe(r.connections, text, uuids)
    requires var lines := SplitFrame(text);
      lines == [] || (lines[0] != "N" && (|lines| == 1 || lines[1] !in r.connections))
    ensures var r' := Serve(r, lim, connection, text, now, uuids);
      && r'.connections == r.connections
      && r'.log == r.log + (if |SplitFrame(text)| <= 1 then [] else [SocketSend(Some(connection), ExpiredText)])
                         + [SocketClose(Some(connection))]
  {
  }

  /** Any frame other than N is served by ServeId on its lines. */
  lemma ServeDispatches(r: Registry, lim: Limits, connection: Handle, text: string, now: int, uuids: seq<string>)
    requires CanServe(r.connections, text, uuids)
    requires SplitFrame(text) != [] && SplitFrame(text)[0] != "N"
    ensures Serve(r, lim, connection, text, now, uuids) == ServeId(r, connection, SplitFrame(text), now)
  {
  }

  /** The lines of a non-N frame naming the registered id `id`. */
  predicate ForKnown(r: Registry, lines: seq<string>, id: string)
  {
    |lines| >= 2 && lines[0] != "N" && lines[1] == id && id in r.connections
  }

  /** The record of `id` after rebinding to `connection` and stamping. */
  function Touched(c: Connection, connection: Handle, now: int): Connection
  {
    c.(connection := Some(connection), lastUsedTimestamp := now)
  }

  /** C and CA end the logical connection: it leaves the registry, the
      handler hears of it and the socket is closed (C is first answered
      "C\nClosed"). A different socket bound before is closed first. */
  lemma CloseEndsConnection(r: Registry, connection: Handle, lines: seq<string>, now: int, id: string)
    requires WellKeyed(r.connections)
    requires ForKnown(r, lines, id) && lines[0] in {"C", "CA"}
    ensures var r' := ServeId(r, connection, lines, now);
      var c := r.connections[id];
      && r'.connections == r.connections - {id}
      && r'.log == r.log + RebindLog(c, connection)
                  + (if lines[0] == "C" then [SocketSend(Some(connection), ClosedText)] else [])
                  + [Disconnected(id), SocketClose(Some(connection))]
  {
    var c := r.connections[id];
    assert r.connections[id := Rebound(c, connection)] - {id} == r.connections - {id};
  }

  /** H with a readable acknowledgement only rebinds the socket and stamps
      the time: counters and queue stay, and HA with receivedCounter is
      the answer unless the connection is closing. */
  lemma HeartbeatKeepsRecord(r: Registry, connection: Handle, lines: seq<string>, now: int, id: string)
    requires WellKeyed(r.connections)
    requires ForKnown(r, lines, id) && lines[0] == "H"
    requires |lines| >= 3 && ParseLong(lines[2]).Some?
    ensures var r' := ServeId(r, connection, lines, now);
      var c := r.connections[id];
      && r'.connections == r.connections[id := Touched(c, connection, now)]
      && r'.log == r.log + RebindLog(c, connection)
                  + (if c.closing then [] else [SocketSend(Some(connection), HeartbeatAckText(c.receivedCounter))])
  {
  }

  /** The parts of a message frame (S or R): acknowledgement, number of
      the first message, and the messages. */
  predicate MessageFrame(lines: seq<string>)
  {
    |lines| >= 4 && ParseLong(lines[2]).Some? && ParseLong(lines[3]).Some?
  }

  function AckOf(lines: seq<string>): int
    requires MessageFrame(lines)
  {
    ParseLong(lines[2]).value
  }

  function FirstOf(lines: seq<string>): int
    requires MessageFrame(lines)
  {
    ParseLong(lines[3]).value
  }

  /** The messages of an S or R frame accepted for the record `c`. */
  function AcceptedOf(c: Connection, lines: seq<string>): seq<string>
    requires MessageFrame(lines)
  {
    Accepted(c.receivedCounter, FirstOf(lines), lines[4..])
  }

  /** The record of `id` once the messages of a well-formed frame are
      counted, before the acknowledgement is applied. */
  function Counted(c: Connection, connection: Handle, lines: seq<string>, now: int): Connection
    requires MessageFrame(lines)
  {
    Touched(c, connection, now).(receivedCounter := c.receivedCounter + |AcceptedOf(c, lines)|)
  }

  /** A well-formed message frame for a known id reaches the
      acknowledgement with the record rebound, stamped and counted. */
  lemma ServeReachesAcknowledge(r: Registry, connection: Handle, lines: seq<string>, now: int, id: string)
    requires WellKeyed(r.connections)
    requires ForKnown(r, lines, id) && lines[0] !in {"C", "CA", "H"}
    requires MessageFrame(lines)
    ensures var c := r.connections[id];
      var c2 := Counted(c, connection, lines, now);
      ServeId(r, connection, lines, now)
        == Acknowledge(Registry(r.connections[id := c2], r.log + RebindLog(c, connection)),
                       c2, lines[0], AckOf(lines), AcceptedOf(c, lines))
  {
    var c := r.connections[id];
    var c0 := Rebound(c, connection);
    var r0 := Registry(r.connections[id := c0], r.log + RebindLog(c, connection));
    var c1 := c0.(lastUsedTimestamp := now);
    var r1 := r0.(connections := r0.connections[id := c1]);
    assert c.connId == id;
    assert ServeId(r, connection, lines, now) == ServeKnown(r0, c0, lines, now);
    assert ServeKnown(r0, c0, lines, now) == Counters(r1, c1, lines);
    assert Counters(r1, c1, lines) == Messages(r1, c1, lines, AckOf(lines));
    var c2 := Counted(c, connection, lines, now);
    assert c1.(receivedCounter := c1.receivedCounter + |AcceptedOf(c, lines)|) == c2;
    assert r1.connections[id := c2] == r.connections[id := c2];
  }

  /** An S frame whose acknowledgement lies within the queue: the
      messages numbered below receivedCounter are dropped and the others
      counted and handed to the handler in order (none while closing); the
      acknowledged head of the queue is dropped and sentCounter becomes
      the acknowledgement. */
  lemma SendIsAcceptedInOrder(r: Registry, connection: Handle, lines: seq<string>, now: int, id: string)
    requires WellKeyed(r.connections)
    requires ForKnown(r, lines, id) && lines[0] == "S" && MessageFrame(lines)
    requires var c := r.connections[id]; var ack := AckOf(lines);
      c.sentCounter <= ack <= c.sentCounter + |c.queue|
    ensures var r' := ServeId(r, connection, lines, now);
        var c := r.connections[id];
      var ack := AckOf(lines);
      var msgs := Accepted(c.receivedCounter, FirstOf(lines), lines[4..]);
      && r'.connections == r.connections[id := Touched(c, connection, now).(
           receivedCounter := c.receivedCounter + |msgs|,
           queue := Trim(c.queue, ack - c.sentCounter), sentCounter := ack)]
      && r'.log == r.log + RebindLog(c, connection) + (if c.closing then [] else Deliveries(id, msgs))
  {
    ServeReachesAcknowledge(r, connection, lines, now, id);
  }

  /** R is answered with receivedCounter, the new sentCounter and the
      whole remaining queue, then CR when closing (and the messages are
      not delivered); otherwise the messages are delivered as for S. */
  lemma ResendAnswersWithQueue(r: Registry, connection: Handle, lines: seq<string>, now: int, id: string)
    requires WellKeyed(r.connections)
    requires ForKnown(r, lines, id) && lines[0] == "R" && MessageFrame(lines)
    requires var c := r.connections[id]; var ack := AckOf(lines);
      c.sentCounter <= ack <= c.sentCounter + |c.queue|
    ensures var r' := ServeId(r, connection, lines, now);
        var c := r.connections[id];
      var ack := AckOf(lines);
      var msgs := Accepted(c.receivedCounter, FirstOf(lines), lines[4..]);
      var q := Trim(c.queue, ack - c.sentCounter);
      && r'.connections == r.connections[id := Touched(c, connection, now).(
           receivedCounter := c.receivedCounter + |msgs|, queue := q, sentCounter := ack)]
      && r'.log == r.log + RebindLog(c, connection)
                  + [SocketSend(Some(connection), ResendText(c.receivedCounter + |msgs|, ack, q))]
                  + (if c.closing then [SocketSend(Some(connection), CloseRequestText)] else Deliveries(id, msgs))
  {
    ServeReachesAcknowledge(r, connection, lines, now, id);
  }

  /** An acknowledgement below sentCounter, one beyond the queue, a
      malformed counter or an unknown command ends the connection without
      delivering anything. */
  lemma MismatchEndsConnection(r: Registry, connection: Handle, lines: seq<string>, now: int, id: string)
    requires WellKeyed(r.connections)
    requires ForKnown(r, lines, id) && lines[0] !in {"C", "CA", "H"}
    requires var lines := lines; var c := r.connections[id];
      || !MessageFrame(lines)
      || AckOf(lines) < c.sentCounter || AckOf(lines) > c.sentCounter + |c.queue|
      || lines[0] !in {"S", "R"}
    ensures var r' := ServeId(r, connection, lines, now);
      && r'.connections == r.connections - {id}
      && r'.log == r.log + RebindLog(r.connections[id], connection) + [Disconnected(id), SocketClose(Some(connection))]
  {
    var c := r.connections[id];
  }

  /** An S frame carrying only messages already counted, on the socket the
      record is bound to and acknowledging exactly sentCounter, changes
      nothing but the time stamp. */
  lemma QuietSend(r: Registry, connection: Handle, lines: seq<string>, now: int, id: string)
    requires WellKeyed(r.connections)
    requires ForKnown(r, lines, id) && lines[0] == "S" && MessageFrame(lines)
    requires var c := r.connections[id];
      c.connection == Some(connection) && c.sentCounter == AckOf(lines) && AcceptedOf(c, lines) == []
    ensures var r' := ServeId(r, connection, lines, now);
      && r'.log == r.log
      && r'.connections == r.connections[id := r.connections[id].(lastUsedTimestamp := now)]
  {
    var c := r.connections[id];
    SendIsAcceptedInOrder(r, connection, lines, now, id);
    QuietRecord(c, connection, now, AckOf(lines), AcceptedOf(c, lines));
  }

  /** The record an in-order S frame leaves behind when it counts nothing
      and acknowledges nothing new on the socket already bound. */
  lemma QuietRecord(c: Connection, connection: Handle, now: int, ack: int, msgs: seq<string>)
    requires c.connection == Some(connection) && ack == c.sentCounter && msgs == []
    ensures Touched(c, connection, now).(receivedCounter := c.receivedCounter + |msgs|,
              queue := Trim(c.queue, ack - c.sentCounter), sentCounter := ack)
            == c.(lastUsedTimestamp := now)
  {
    assert Trim(c.queue, ack - c.sentCounter) == c.queue;
  }

  /** Duplicate suppression: serving the same S frame twice on the same
      socket hands its messages to the handler once. The second time
      nothing is delivered and receivedCounter stays. */
  lemma RepeatedSendIsIgnored(r: Registry, connection: Handle, lines: seq<string>, now: int, now': int, id: string)
    requires WellKeyed(r.connections)
    requires ForKnown(r, lines, id) && lines[0] == "S" && MessageFrame(lines)
    requires var c := r.connections[id];
      c.sentCounter <= AckOf(lines) <= c.sentCounter + |c.queue| && FirstOf(lines) <= c.receivedCounter
    ensures var r1 := ServeId(r, connection, lines, now);
      var r2 := ServeId(r1, connection, lines, now');
      && r2.log == r1.log
      && r2.connections == r1.connections[id := r1.connections[id].(lastUsedTimestamp := now')]
  {
    var c := r.connections[id];
    var ack := AckOf(lines);
    var r1 := ServeId(r, connection, lines, now);
    var c1 := Touched(c, connection, now).(receivedCounter := c.receivedCounter + |AcceptedOf(c, lines)|,
                                           queue := Trim(c.queue, ack - c.sentCounter), sentCounter := ack);
    assert r1.connections == r.connections[id := c1] by {
      SendIsAcceptedInOrder(r, connection, lines, now, id);
    }
    assert AcceptedOf(c1, lines) == [] by {
      RedeliveryIsIgnored(c.receivedCounter, FirstOf(lines), lines[4..]);
    }
    QuietSend(r1, connection, lines, now', id);
  }

  // ---------------------------------------------------------------------
  // The replies are readable by the client's splitter

  /** The client reads the N reply as the id and both timeouts. */
  lemma NewConnTextRoundTrip(id: string, heartbeat: int, timeout: int)
    requires WireSafe(id)
    requires IntMin <= heartbeat <= IntMax && IntMin <= timeout <= IntMax
    ensures var ls := Lines(NewConnText(id, heartbeat, timeout));
      |ls| == 4 && ls[0] == "N" && ls[1] == id &&
      ParseInt(ls[2]) == Some(heartbeat) && ParseInt(ls[3]) == Some(timeout)
  {
    var t := IntToString(timeout);
    LinesJoin(["N", id, IntToString(heartbeat)], t);
    LinesSingle(t);
    ParseIntegerRoundTrip(heartbeat, IntMin, IntMax);
    ParseIntegerRoundTrip(timeout, IntMin, IntMax);
  }

  /** The client reads an S frame as both counters and the messages, in
      order; this covers the answer to R and a posted message. */
  lemma ResendTextRoundTrip(received: int, sent: int, queue: seq<string>)
    requires LongMin <= received <= LongMax && LongMin <= sent <= LongMax
    requires forall i :: 0 <= i < |queue| ==> WireSafe(queue[i])
    ensures var ls := Lines(ResendText(received, sent, queue));
      |ls| == 3 + |queue| && ls[0] == "S" &&
      ParseLong(ls[1]) == Some(received) && ParseLong(ls[2]) == Some(sent) && ls[3..] == queue
  {
    var head := ["S", IntToString(received), IntToString(sent)];
    var ls := head + queue;
    forall i | 0 <= i < |ls|
      ensures WireSafe(ls[i])
    {
      if i >= |head| {
        assert ls[i] == queue[i - |head|];
      }
    }
    JoinRoundTrip(ls);
    ParseIntegerRoundTrip(received, LongMin, LongMax);
    ParseIntegerRoundTrip(sent, LongMin, LongMax);
    assert ls[1] == IntToString(received) && ls[2] == IntToString(sent) && ls[3..] == queue;
  }

  /** A posted message is an S frame of one message. */
  lemma SendTextIsResendOfOne(received: int, number: int, msg: string)
    ensures SendText(received, number, msg) == ResendText(received, number, [msg])
  {
    assert ["S", IntToString(received), IntToString(number), msg]
        == ["S", IntToString(received), IntToString(number)] + [msg];
  }

  // ---------------------------------------------------------------------
  // Properties of post and terminate

  /** post to an unknown or closing connection does nothing. */
  lemma PostIgnored(r: Registry, lim: Limits, id: string, msg: string)
    requires id !in r.connections || r.connections[id].closing
    ensures PostOnce(r, lim, id, msg) == r
  {
  }

  /** A posted message joins the tail of the queue under the number its
      S frame announces, sentCounter + |queue| before the post; the
      earlier messages keep theirs. */
  lemma PostQueuesNumbered(r: Registry, lim: Limits, id: string, msg: string)
    requires id in r.connections && !r.connections[id].closing
    requires |r.connections[id].queue| < lim.maxQueueLength
    ensures var r' := PostOnce(r, lim, id, msg);
      var c := r.connections[id];
      var n := c.sentCounter + |c.queue|;
      && r'.connections.Keys == r.connections.Keys
      && (forall k :: k in r.connections && k != id ==> r'.connections[k] == r.connections[k])
      && r'.connections[id].(queue := c.queue) == c
      && Numbered(c.sentCounter, r'.connections[id].queue) == Numbered(c.sentCounter, c.queue)[n := msg]
      && r'.log == r.log + [SocketSend(c.connection, SendText(c.receivedCounter, n, msg))]
  {
    var c := r.connections[id];
    AppendNumbers(c.sentCounter, c.queue, msg);
  }

  /** How many `Disconnected(id)` actions a log holds. */
  function Disconnects(log: seq<ServerAction>, id: string): (n: nat)
    ensures n <= |log|
  {
    if log == [] then 0
    else (if log[0] == Disconnected(id) then 1 else 0) + Disconnects(log[1..], id)
  }

  lemma {:induction false} DisconnectsAppend(a: seq<ServerAction>, b: seq<ServerAction>, id: string)
    ensures Disconnects(a + b, id) == Disconnects(a, id) + Disconnects(b, id)
    decreases |a|
  {
    if a == [] {
      assert a + b == b;
    } else {
      assert (a + b)[1..] == a[1..] + b;
      DisconnectsAppend(a[1..], b, id);
    }
  }

  /** As written, a post to a full queue closes the connection, which
      already reports it to the handler, and then reports it again. */
  lemma OverflowReportsTwice(r: Registry, lim: Limits, id: string, msg: string)
    requires WellKeyed(r.connections)
    requires id in r.connections && !r.connections[id].closing
    requires |r.connections[id].queue| >= lim.maxQueueLength
    ensures var r' := PostStep(r, lim, id, msg);
      && r'.connections == r.connections - {id}
      && Disconnects(r'.log, id) == Disconnects(r.log, id) + 2
  {
    var c := r.connections[id];
    var extra := [Disconnected(id), SocketClose(c.connection), Disconnected(id)];
    assert PostStep(r, lim, id, msg).log == r.log + extra;
    DisconnectsAppend(r.log, extra, id);
    assert Disconnects(extra, id) == 2 by {
      assert extra[1..] == [SocketClose(c.connection), Disconnected(id)];
      assert extra[1..][1..] == [Disconnected(id)];
      assert Disconnects([Disconnected(id)], id) == 1;
    }
  }

  /** post with the second report dropped: a full queue closes the
      connection, reported once. */
  function PostOnce(r: Registry, lim: Limits, id: string, msg: string): Registry
  {
    if id in r.connections && !r.connections[id].closing && |r.connections[id].queue| >= lim.maxQueueLength
    then CloseConn(r, r.connections[id])
    else PostStep(r, lim, id, msg)
  }

  /** With PostOnce every connection that ends is reported exactly once. */
  lemma OverflowReportsOnce(r: Registry, lim: Limits, id: string, msg: string)
    requires WellKeyed(r.connections)
    requires id in r.connections && !r.connections[id].closing
    requires |r.connections[id].queue| >= lim.maxQueueLength
    ensures var r' := PostOnce(r, lim, id, msg);
      && r'.connections == r.connections - {id}
      && Disconnects(r'.log, id) == Disconnects(r.log, id) + 1
  {
    var c := r.connections[id];
    var extra := [Disconnected(id), SocketClose(c.connection)];
    assert PostOnce(r, lim, id, msg).log == r.log + extra;
    DisconnectsAppend(r.log, extra, id);
    assert Disconnects(extra, id) == 1 by {
      assert extra[1..][1..] == [];
    }
  }

  /** terminate marks the connection closing and sends CR; after it,
      posts are ignored. */
  lemma TerminateThenPostIsIgnored(r: Registry, lim: Limits, id: string, msg: string)
    requires id in r.connections
    ensures var r' := TerminateStep(r, id);
      var c := r.connections[id];
      && r'.connections == r.connections[id := c.(closing := true)]
      && r'.log == r.log + [SocketSend(c.connection, TerminateText)]
      && PostOnce(r', lim, id, msg) == r'
  {
  }

  /** While closing, S frames are counted and acknowledged but their
      messages never reach the handler. */
  lemma ClosingDeliversNothing(r: Registry, connection: Handle, lines: seq<string>, now: int, id: string)
    requires WellKeyed(r.connections)
    requires ForKnown(r, lines, id) && lines[0] == "S" && MessageFrame(lines)
    requires r.connections[id].closing
    ensures var r' := ServeId(r, connection, lines, now);
      forall i :: |r.log| <= i < |r'.log| ==> !r'.log[i].Delivered?
  {
    var c := r.connections[id];
    var ack := AckOf(lines);
    if c.sentCounter <= ack <= c.sentCounter + |c.queue| {
      SendIsAcceptedInOrder(r, connection, lines, now, id);
    } else {
      MismatchEndsConnection(r, connection, lines, now, id);
    }
  }

  // ---------------------------------------------------------------------
  // Properties of the sweep

  /** Whether the sweep at `now` ends the record. */
  predicate Expired(lim: Limits, conn: Connection, now: int)
  {
    Idle(conn, now) > lim.connectionTimeout
  }

  lemma SweepOneKeyed(r: Registry, lim: Limits, id: string, now: int)
    requires WellKeyed(r.connections)
    ensures var r' := SweepOne(r, lim, id, now);
      && WellKeyed(r'.connections)
      && r'.connections == map k | k in r.connections && (k != id || !Expired(lim, r.connections[k], now))
                                 :: r.connections[k]
  {
    var r' := SweepOne(r, lim, id, now);
    if id in r.connections && Expired(lim, r.connections[id], now) {
      assert r.connections[id].connId == id;
    }
  }

  /** The sweep ends exactly the listed records idle longer than
      connectionTimeout and leaves the others as they were. */
  lemma {:induction false} SweepKeepsLive(r: Registry, lim: Limits, order: seq<string>, now: int)
    requires WellKeyed(r.connections) && Distinct(order)
    ensures var r' := SweepAll(r, lim, order, now);
      && WellKeyed(r'.connections)
      && r'.connections == map k | k in r.connections && (k !in order || !Expired(lim, r.connections[k], now))
                                 :: r.connections[k]
    decreases |order|
  {
    if order != [] {
      var r1 := SweepOne(r, lim, order[0], now);
      SweepOneKeyed(r, lim, order[0], now);
      SweepKeepsLive(r1, lim, order[1..], now);
      var r' := SweepAll(r, lim, order, now);
      assert r' == SweepAll(r1, lim, order[1..], now);
      forall k
        ensures k in r'.connections <==> k in r.connections && (k !in order || !Expired(lim, r.connections[k], now))
      {
        if k in order && k != order[0] {
          var j :| 0 <= j < |order| && order[j] == k;
          assert order[1..][j - 1] == k;
        }
      }
    }
  }

  /** The log only grows. */
  lemma {:induction false} SweepExtendsLog(r: Registry, lim: Limits, order: seq<string>, now: int)
    ensures var r' := SweepAll(r, lim, order, now);
      |r'.log| >= |r.log| && r'.log[..|r.log|] == r.log
    decreases |order|
  {
    if order != [] {
      SweepExtendsLog(SweepOne(r, lim, order[0], now), lim, order[1..], now);
    }
  }

  /** Every listed record that expired is reported to the handler. */
  lemma {:induction false} SweepReportsExpired(r: Registry, lim: Limits, order: seq<string>, now: int, id: string)
    requires WellKeyed(r.connections) && Distinct(order)
    requires id in order && id in r.connections && Expired(lim, r.connections[id], now)
    ensures Disconnected(id) in SweepAll(r, lim, order, now).log
    decreases |order|
  {
    var r1 := SweepOne(r, lim, order[0], now);
    if order[0] == id {
      assert r.connections[id].connId == id;
      assert r1.log[|r.log|] == Disconnected(id);
      SweepExtendsLog(r1, lim, order[1..], now);
      assert SweepAll(r, lim, order, now).log[..|r1.log|] == r1.log;
      assert Disconnected(id) in r1.log;
    } else {
      SweepOneKeyed(r, lim, order[0], now);
      assert id in order[1..];
      SweepReportsExpired(r1, lim, order[1..], now, id);
    }
  }

  /** A record the sweep does not end stays as it was, and the sweep
      reports no disconnection for it. */
  lemma {:induction false} SweepSparesLive(r: Registry, lim: Limits, order: seq<string>, now: int, id: string)
    requires WellKeyed(r.connections)
    requires id in r.connections && !Expired(lim, r.connections[id], now)
    requires Disconnected(id) !in r.log
    ensures var r' := SweepAll(r, lim, order, now);
      && id in r'.connections && r'.connections[id] == r.connections[id]
      && Disconnected(id) !in r'.log
    decreases |order|
  {
    if order != [] {
      var r1 := SweepOne(r, lim, order[0], now);
      SweepOneKeyed(r, lim, order[0], now);
      if order[0] in r.connections && Expired(lim, r.connections[order[0]], now) {
        assert r.connections[order[0]].connId == order[0] != id;
        assert r1.log == r.log + [Disconnected(order[0]), SocketClose(r.connections[order[0]].connection)];
      }
      assert Disconnected(id) !in r1.log;
      SweepSparesLive(r1, lim, order[1..], now, id);
    }
  }

  /** A listed record idle past heartbeatInterval + 10000 but not past
      connectionTimeout keeps its record, is not reported to the handler,
      and has its socket closed. */
  lemma {:induction false} SweepClosesStaleSocket(r: Registry, lim: Limits, order: seq<string>, now: int, id: string)
    requires WellKeyed(r.connections) && id in order && id in r.connections
    requires lim.heartbeatInterval + 10000 < Idle(r.connections[id], now) <= lim.connectionTimeout
    requires r.connections[id].connection.Some?
    requires Disconnected(id) !in r.log
    ensures var r' := SweepAll(r, lim, order, now);
      && SocketClose(r.connections[id].connection) in r'.log
      && Disconnected(id) !in r'.log
      && id in r'.connections && r'.connections[id] == r.connections[id]
    decreases |order|
  {
    SweepSparesLive(r, lim, order, now, id);
    var r1 := SweepOne(r, lim, order[0], now);
    if order[0] == id {
      assert r1.log == r.log + [SocketClose(r.connections[id].connection)];
      SweepExtendsLog(r1, lim, order[1..], now);
      assert SweepAll(r, lim, order, now).log[..|r1.log|] == r1.log;
      assert r1.log[|r.log|] == SocketClose(r.connections[id].connection);
    } else {
      SweepOneKeyed(r, lim, order[0], now);
      assert id in order[1..];
      if order[0] in r.connections && Expired(lim, r.connections[order[0]], now) {
        assert r.connections[order[0]].connId == order[0] != id;
      }
      assert Disconnected(id) !in r1.log;
      SweepClosesStaleSocket(r1, lim, order[1..], now, id);
    }
  }

  class SocketServerConnector {
    var heartbeatInterval: int
    var connectionTimeout: int
    var maxQueueLength: int
    /** Registered connections by id. */
    var connections: map<string, Connection>
    /** Everything sent, closed and reported so far, oldest first. */
    var log: seq<ServerAction>

    function Reg(): Registry
      reads this
    {
      Registry(connections, log)
    }

    function Lim(): Limits
      reads this
    {
      Limits(heartbeatInterval, connectionTimeout, maxQueueLength)
    }

    ghost predicate Valid()
      reads this
    {
      WellKeyed(connections)
    }

    constructor ()
      ensures Valid()
      ensures heartbeatInterval == 20000 && connectionTimeout == 120000 && maxQueueLength == 300
      ensures connections == map[] && log == []
    {
      heartbeatInterval := 20000;
      connectionTimeout := 120000;
      maxQueueLength := 300;
      connections := map[];
      log := [];
    }

    method SetHeartbeatInterval(interval: int)
      modifies this`heartbeatInterval
      ensures heartbeatInterval == interval
    {
      heartbeatInterval := interval;
    }

    method SetConnectionTimeout(timeout: int)
      modifies this`connectionTimeout
      ensures connectionTimeout == timeout
    {
      connectionTimeout := timeout;
    }

    method SetMaxQueueLength(length: int)
      modifies this`maxQueueLength
      ensures maxQueueLength == length
    {
      maxQueueLength := length;
    }

    /** Draws random ids (`uuids`, in order) until one is not registered. */
    method CreateConnectionId(uuids: seq<string>) returns (id: string)
      requires HasFresh(uuids, connections)
      ensures id == FirstFresh(uuids, connections)
    {
      ghost var k := FreshIndex(uuids, connections, 0);
      var i := 0;
      id := uuids[0];
      while id in connections
        invariant 0 <= i <= k && id == uuids[i]
        decreases k - i
      {
        i := i + 1;
        id := uuids[i];
      }
    }

    /** service: `connection` is the socket the frame `messageText` came
        in on, `now` the clock in milliseconds and `uuids` the random ids
        createConnectionId would draw. */
    method Service(connection: Handle, messageText: string, now: int, uuids: seq<string>)
      requires Valid() && CanServe(connections, messageText, uuids)
      modifies this`connections, this`log
      ensures Valid()
      ensures Reg() == Serve(old(Reg()), Lim(), connection, messageText, now, uuids)
    {
      var lines := SplitFrame(messageText);
      if |lines| == 0 {
        log := log + [SocketClose(Some(connection))];
        return;
      }
      var cmd := lines[0];
      if cmd == "N" {
        CreateConnection(connection, now, uuids);
        return;
      }
      ServeFrame(connection, lines, now);
    }

    method ServeFrame(connection: Handle, lines: seq<string>, now: int)
      requires Valid() && |lines| >= 1
      modifies this`connections, this`log
      ensures Valid()
      ensures Reg() == ServeId(old(Reg()), connection, lines, now)
    {
      if |lines| == 1 {
        log := log + [SocketClose(Some(connection))];
        return;
      }
      var connId := lines[1];
      if connId !in connections {
        log := log + [SocketSend(Some(connection), ExpiredText), SocketClose(Some(connection))];
        return;
      }
      var conn := Rebind(connId, connection);
      ServeRegistered(conn, lines, now);
    }

    /** The record `connId` answers on `connection`: a different socket
        bound before is closed, and the record is bound to `connection`. */
    method Rebind(connId: string, connection: Handle) returns (conn: Connection)
      requires Valid() && connId in connections
      modifies this`connections, this`log
      ensures Valid()
      ensures conn == Rebound(old(connections)[connId], connection)
      ensures connections == old(connections)[connId := conn]
      ensures log == old(log) + RebindLog(old(connections)[connId], connection)
    {
      conn := connections[connId];
      if conn.connection != Some(connection) {
        if conn.connection.Some? {
          log := log + [SocketClose(conn.connection)];
        }
        conn := conn.(connection := Some(connection));
        connections := connections[connId := conn];
      }
    }

    method CreateConnection(connection: Handle, now: int, uuids: seq<string>)
      requires Valid() && HasFresh(uuids, connections)
      modifies this`connections, this`log
      ensures Valid()
      ensures Reg() == Create(old(Reg()), Lim(), connection, now, uuids)
    {
      var connId := CreateConnectionId(uuids);
      var conn := Connection(connId, 0, now, false, [], 0, Some(connection));
      connections := connections[connId := conn];
      log := log + [SocketSend(Some(connection), NewConnText(connId, heartbeatInterval, connectionTimeout))];
      log := log + [Connected(connId)];
    }

    method CloseConnection(conn: Connection)
      requires Valid()
      modifies this`connections, this`log
      ensures Valid()
      ensures Reg() == CloseConn(old(Reg()), conn)
    {
      connections := connections - {conn.connId};
      log := log + [Disconnected(conn.connId)];
      log := log + [SocketClose(conn.connection)];
    }

    method ServeRegistered(conn: Connection, lines: seq<string>, now: int)
      requires Valid() && |lines| >= 2 && conn.connId in connections && connections[conn.connId] == conn
      modifies this`connections, this`log
      ensures Valid()
      ensures Reg() == ServeKnown(old(Reg()), conn, lines, now)
    {
      var cmd := lines[0];
      if cmd == "C" {
        log := log + [SocketSend(conn.connection, ClosedText)];
        CloseConnection(conn);
        return;
      } else if cmd == "CA" {
        CloseConnection(conn);
        return;
      }
      var c1 := conn.(lastUsedTimestamp := now);
      connections := connections[conn.connId := c1];
      ReadCounters(c1, lines);
    }

    method ReadCounters(conn: Connection, lines: seq<string>)
      requires Valid() && |lines| >= 2 && conn.connId in connections && connections[conn.connId] == conn
      modifies this`connections, this`log
      ensures Valid()
      ensures Reg() == Counters(old(Reg()), conn, lines)
    {
      if |lines| < 3 {
        CloseConnection(conn);
        return;
      }
      var ack := ParseLong(lines[2]);
      if ack.None? {
        CloseConnection(conn);
        return;
      }
      if lines[0] == "H" {
        if !conn.closing {
          log := log + [SocketSend(conn.connection, HeartbeatAckText(conn.receivedCounter))];
        }
        return;
      }
      ReadMessages(conn, lines, ack.value);
    }

    method ReadMessages(conn: Connection, lines: seq<string>, ack: int)
      requires Valid() && conn.connId in connections && connections[conn.connId] == conn
      modifies this`connections, this`log
      ensures Valid()
      ensures Reg() == Messages(old(Reg()), conn, lines, ack)
    {
      if |lines| < 4 {
        CloseConnection(conn);
        return;
      }
      var first := ParseLong(lines[3]);
      if first.None? {
        CloseConnection(conn);
        return;
      }
      var msgs, counter := ServerReceive(conn.receivedCounter, first.value, lines[4..]);
      var c1 := conn.(receivedCounter := counter);
      connections := connections[conn.connId := c1];
      ApplyAck(c1, lines[0], ack, msgs);
    }

    method ApplyAck(conn: Connection, cmd: string, ack: int, msgs: seq<string>)
      requires Valid() && conn.connId in connections && connections[conn.connId] == conn
      modifies this`connections, this`log
      ensures Valid()
      ensures Reg() == Acknowledge(old(Reg()), conn, cmd, ack, msgs)
    {
      if ack < conn.sentCounter {
        CloseConnection(conn);
        return;
      }
      var c1, r := TrimQueue(conn, ack);
      if r.Threw? {
        CloseConnection(c1);
        return;
      }
      connections := connections[conn.connId := c1];
      if cmd == "S" {
      } else if cmd == "R" {
        log := log + [SocketSend(c1.connection, ResendText(c1.receivedCounter, c1.sentCounter, c1.queue))];
        if c1.closing {
          log := log + [SocketSend(c1.connection, CloseRequestText)];
          return;
        }
      } else {
        CloseConnection(c1);
        return;
      }
      if c1.closing {
        return;
      }
      Deliver(c1.connId, msgs);
    }

    /** Hands the accepted messages to the handler, in order. */
    method Deliver(id: string, msgs: seq<string>)
      modifies this`log
      ensures log == old(log) + Deliveries(id, msgs)
    {
      for k := 0 to |msgs|
        invariant log == old(log) + Deliveries(id, msgs[..k])
      {
        assert msgs[..k + 1] == msgs[..k] + [msgs[k]];
        DeliveriesAppend(id, msgs[..k], msgs[k]);
        log := log + [Delivered(id, msgs[k])];
      }
      assert msgs[..|msgs|] == msgs;
    }

    method Terminate(connectionId: string)
      requires Valid()
      modifies this`connections, this`log
      ensures Valid()
      ensures Reg() == TerminateStep(old(Reg()), connectionId)
    {
      if connectionId in connections {
        var conn := connections[connectionId];
        connections := connections[connectionId := conn.(closing := true)];
        log := log + [SocketSend(conn.connection, TerminateText)];
      }
    }

    /** post, reporting a connection that a full queue closes once, as
        closeConnection already does. */
    method Post(connectionId: string, message: string)
      requires Valid()
      modifies this`connections, this`log
      ensures Valid()
      ensures Reg() == PostOnce(old(Reg()), Lim(), connectionId, message)
    {
      if connectionId !in connections {
        return;
      }
      var conn := connections[connectionId];
      if conn.closing {
        return;
      }
      if |conn.queue| >= maxQueueLength {
        CloseConnection(conn);
        return;
      }
      conn := conn.(queue := conn.queue + [message]);
      connections := connections[connectionId := conn];
      log := log + [SocketSend(conn.connection, SendText(conn.receivedCounter, conn.sentCounter + |conn.queue| - 1, message))];
    }

    /** The timer task: visits the records in `order`, a copy of the
        registry's records taken when the task starts. */
    method Sweep(now: int, order: seq<string>)
      requires Valid()
      requires Distinct(order) && forall k :: k in order <==> k in connections
      modifies this`connections, this`log
      ensures Valid()
      ensures Reg() == SweepAll(old(Reg()), Lim(), order, now)
      ensures connections == map k | k in old(connections) && !Expired(Lim(), old(connections)[k], now)
                                   :: old(connections)[k]
      ensures forall k :: k in connections ==> !Expired(Lim(), connections[k], now)
    {
      ghost var r0 := Reg();
      SweepKeepsLive(r0, Lim(), order, now);
      for k := 0 to |order|
        invariant Valid()
        invariant SweepAll(old(Reg()), Lim(), order, now) == SweepAll(Reg(), Lim(), order[k..], now)
      {
        assert order[k..][1..] == order[k + 1..];
        var id := order[k];
        if id in connections {
          var conn := connections[id];
          if Idle(conn, now) > connectionTimeout {
            CloseConnection(conn);
          } else if Idle(conn, now) > heartbeatInterval + 10000 {
            if conn.connection.Some? {
              log := log + [SocketClose(conn.connection)];
            }
          }
        }
      }
    }
  }

  lemma DeliveriesAppend(id: string, msgs: seq<string>, m: string)
    ensures Deliveries(id, msgs + [m]) == Deliveries(id, msgs) + [Delivered(id, m)]
  {
  }
}
