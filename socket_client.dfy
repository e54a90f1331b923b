/** SocketClientConnector: the client transport over a WebSocket. The socket
    and the timers are outside the model: what the connector asks of them
    is appended to `io`, and their callbacks (open, close, message, timer
    expiry) are the methods named On... . The clock is the `now` parameter
    of the one callback that reads it. */
module SocketClients {
  import opened Common
  import opened Wire
  import opened Sequencing
  import opened ClientConnectors
  import opened LineIterators

  /** The frames the client sends; FrameText gives their wire text. */
  datatype ClientFrame =
    | Hello                           // "N": asks for a new connection
    | Counters(cmd: string, connId: Option<string>, received: int, sent: int, msgs: seq<string>)
                                      // "R", "S" and "H": both counters, then messages
    | CloseRequest(connId: Option<string>)  // "C\n<id>"
    | CloseAck(connId: Option<string>)      // "CA\n<id>"

  /** Requests to the socket and the scheduler, in the order made. */
  datatype SocketIo =
    | Open                            // socketConnect()
    | CloseSocket                     // socketClose()
    | Send(frame: ClientFrame)        // socketSend(FrameText(frame))
    | ArmConnectTimeout(delay: int)   // schedule(connectTimeout, close the socket)
    | ScheduleReconnect(delay: int)   // schedule(reconnectionDelay, reconnect)
    | StartHeartbeat(interval: int)   // startScheduledTask(heartbeatInterval, heartbeat)
    | StopTimers                      // stopAllScheduledTasks()

  /** A connection id as StringBuilder.append writes it: a missing one is
      written "null". */
  function IdText(connId: Option<string>): (s: string)
    ensures connId.Some? ==> s == connId.value
    ensures connId.None? ==> s == "null"
  {
    if connId.Some? then connId.value else "null"
  }

  /** The text of a frame. The counter frames are lines each ended by
      '\n': command, id, received counter, sent counter (for "S" the number
      of its first message), then the messages; "N" and the close frames
      have no final newline. */
  function FrameText(f: ClientFrame): string
  {
    match f
    case Hello => "N"
    case Counters(cmd, connId, received, sent, msgs) =>
      Join([cmd, IdText(connId), IntToString(received), IntToString(sent)] + msgs)
    case CloseRequest(connId) => "C\n" + IdText(connId)
    case CloseAck(connId) => "CA\n" + IdText(connId)
  }

  /** Round trip of a counter frame through the client's own splitter:
      the peer reads back the command, the id, both counters and every
      message. */
  lemma CounterFrameRoundTrip(cmd: string, id: string, received: int, sent: int, msgs: seq<string>)
    requires WireSafe(cmd) && WireSafe(id)
    requires forall i :: 0 <= i < |msgs| ==> WireSafe(msgs[i])
    requires LongMin <= received <= LongMax && LongMin <= sent <= LongMax
    ensures var ls := Lines(FrameText(Counters(cmd, Some(id), received, sent, msgs)));
      |ls| == 4 + |msgs| && ls[0] == cmd && ls[1] == id &&
      ParseLong(ls[2]) == Some(received) && ParseLong(ls[3]) == Some(sent) && ls[4..] == msgs
  {
    var head := [cmd, id, IntToString(received), IntToString(sent)];
    var ls := head + msgs;
    assert FrameText(Counters(cmd, Some(id), received, sent, msgs)) == Join(ls);
    AllWireSafe(head, msgs);
    JoinRoundTrip(ls);
    ParseIntegerRoundTrip(received, LongMin, LongMax);
    ParseIntegerRoundTrip(sent, LongMin, LongMax);
    assert ls[2] == IntToString(received) && ls[3] == IntToString(sent) && ls[4..] == msgs;
  }

  lemma AllWireSafe(head: seq<string>, msgs: seq<string>)
    requires forall i :: 0 <= i < |head| ==> WireSafe(head[i])
    requires forall i :: 0 <= i < |msgs| ==> WireSafe(msgs[i])
    ensures forall i :: 0 <= i < |head + msgs| ==> WireSafe((head + msgs)[i])
  {
    forall i | 0 <= i < |head + msgs| ensures WireSafe((head + msgs)[i]) {
      if i >= |head| { assert (head + msgs)[i] == msgs[i - |head|]; }
    }
  }

  /** The part of a connector's state that handling a frame may change. */
  datatype Snapshot = Snapshot(state: State, events: seq<ClientEvent>, io: seq<SocketIo>,
                               connId: Option<string>, queue: seq<string>, received: int, sent: int,
                               attempts: int, heartbeat: int, timeout: int)

  class SocketClientConnector {
    const base: ClientConnector
    var connId: Option<string>
    /** Messages posted and not yet acknowledged, oldest first; the head is
        number `sentCounter`. */
    var queue: seq<string>
    var receivedCounter: int
    var sentCounter: int
    var maxReconnectionAttempts: int
    var reconnectionAttempts: int
    var connectTimeout: int
    var reconnectionDelay: int
    var heartbeatInterval: int
    var connectionTimeout: int
    var lastConnectionLostTimestamp: int
    var io: seq<SocketIo>

    /** A ready connector has an id, and the counters never go below zero. */
    ghost predicate Valid()
      reads this, base
    {
      (base.state == Ready ==> connId.Some?) && 0 <= sentCounter && 0 <= receivedCounter
    }

    constructor ()
      ensures Valid() && fresh(base)
      ensures base.state == Closed && base.events == []
      ensures connId == None && queue == [] && receivedCounter == 0 && sentCounter == 0
      ensures maxReconnectionAttempts == 12 && reconnectionAttempts == 0
      ensures connectTimeout == 10000 && reconnectionDelay == 5000
      ensures heartbeatInterval == 0 && connectionTimeout == 0 && lastConnectionLostTimestamp == 0
      ensures io == []
    {
      base := new ClientConnector();
      connId := None;
      queue := [];
      receivedCounter := 0;
      sentCounter := 0;
      maxReconnectionAttempts := 12;
      reconnectionAttempts := 0;
      connectTimeout := 10000;
      reconnectionDelay := 5000;
      heartbeatInterval := 0;
      connectionTimeout := 0;
      lastConnectionLostTimestamp := 0;
      io := [];
    }

    /** socketConnect(timeout): arm the connect timer, then open. */
    method SocketConnect(timeout: int)
      modifies this`io
      ensures io == old(io) + [ArmConnectTimeout(timeout), Open]
    {
      io := io + [ArmConnectTimeout(timeout), Open];
    }

    /** The connect timer fired: close the socket, which reports back through
        OnConnectionClose. */
    method OnConnectTimeout()
      modifies this`io
      ensures io == old(io) + [CloseSocket]
    {
      io := io + [CloseSocket];
    }

    /** The reconnect timer fired. */
    method OnReconnectTimer()
      modifies this`io
      ensures io == old(io) + [ArmConnectTimeout(connectTimeout), Open]
    {
      SocketConnect(connectTimeout);
    }

    /** The heartbeat timer fired: only a ready connector sends "H" with its
        counters, and then under its real id. */
    method OnHeartbeatTimer()
      requires Valid()
      modifies this`io
      ensures base.state == Ready ==>
        connId.Some? && io == old(io) + [Send(Counters("H", connId, receivedCounter, sentCounter, []))]
      ensures base.state != Ready ==> io == old(io)
    {
      if base.state == Ready {
        io := io + [Send(Counters("H", connId, receivedCounter, sentCounter, []))];
      }
    }

    method Connect() returns (r: Outcome)
      requires Valid()
      modifies this`queue, this`connId, this`receivedCounter, this`sentCounter, this`reconnectionAttempts,
               this`io, base
      ensures Valid()
      ensures old(base.IsStarted()) ==> r == Threw(IllegalState) && unchanged(this, base)
      ensures !old(base.IsStarted()) ==>
        r == Done && base.state == Connecting &&
        base.events == old(base.events) + Transition(old(base.state), Connecting) &&
        connId == None && queue == [] && receivedCounter == 0 && sentCounter == 0 &&
        reconnectionAttempts == 0 &&
        io == old(io) + [ArmConnectTimeout(connectTimeout), Open]
    {
      if base.IsStarted() {
        return Threw(IllegalState);
      }
      queue := [];
      connId := None;
      receivedCounter := 0;
      sentCounter := 0;
      reconnectionAttempts := 0;
      base.ChangeState(Connecting);
      SocketConnect(connectTimeout);
      return Done;
    }

    /** Asks the server to close (only when ready) and waits for it in
        Closing. */
    method Close() returns (r: Outcome)
      requires Valid()
      modifies this`io, base
      ensures Valid()
      ensures !old(base.IsStarted()) ==> r == Threw(IllegalState) && unchanged(this, base)
      ensures old(base.IsStarted()) ==>
        r == Done && base.state == Closing &&
        base.events == old(base.events) + Transition(old(base.state), Closing) &&
        io == old(io) + (if old(base.state) == Ready then [Send(CloseRequest(connId))] else [])
      ensures old(base.state) == Ready ==> connId.Some?
    {
      if !base.IsStarted() {
        return Threw(IllegalState);
      }
      if base.state == Ready {
        io := io + [Send(CloseRequest(connId))];
      }
      base.ChangeState(Closing);
      return Done;
    }

    /** Queues the message; a ready connector also sends it at once under
        the number it has in the queue. */
    method Post(msg: string) returns (r: Outcome)
      requires Valid()
      modifies this`queue, this`io
      ensures Valid()
      ensures !base.IsStarted() ==> r == Threw(IllegalState) && unchanged(this)
      ensures base.IsStarted() ==>
        r == Done && queue == old(queue) + [msg] &&
        Numbered(sentCounter, queue) == Numbered(sentCounter, old(queue))[sentCounter + |old(queue)| := msg] &&
        io == old(io) + (if base.state == Ready
                         then [Send(Counters("S", connId, receivedCounter, sentCounter + |queue| - 1, [msg]))]
                         else [])
    {
      if !base.IsStarted() {
        return Threw(IllegalState);
      }
      queue := queue + [msg];
      AppendNumbers(sentCounter, old(queue), msg);
      if base.state == Ready {
        io := io + [Send(Counters("S", connId, receivedCounter, sentCounter + |queue| - 1, [msg]))];
      }
      return Done;
    }

    /** The socket opened: a new connection asks for an id with "N"; a known
        one resumes with "R", its counters and every unacknowledged message,
        and repeats its close request if it is closing. */
    method OnConnectionOpen()
      modifies this`io
      ensures connId.None? ==> io == old(io) + [Send(Hello)]
      ensures connId.Some? ==>
        io == old(io) + [Send(Counters("R", connId, receivedCounter, sentCounter, queue))] +
              (if base.state == Closing then [Send(CloseRequest(connId))] else [])
    {
      if connId.None? {
        io := io + [Send(Hello)];
      } else {
        io := io + [Send(Counters("R", connId, receivedCounter, sentCounter, queue))];
        if base.state == Closing {
          io := io + [Send(CloseRequest(connId))];
        }
      }
    }

    /** A socket error is handled as a close. */
    method OnConnectionError(now: int)
      requires Valid()
      modifies this`io, this`reconnectionAttempts, this`lastConnectionLostTimestamp, base
      ensures Valid()
      ensures LossHandled(now)
    {
      OnConnectionClose(now);
    }

    /** What losing the socket does: stop the timers; unless closed, count
        the attempt (a loss while ready starts a new series at 0 and
        records the time), then give up, retry at once or retry later as
        RetryDecision says. */
    twostate predicate LossHandled(now: int)
      reads this, base
    {
      var lost := old(base.state) == Ready;
      var attempts := if lost then 0 else old(reconnectionAttempts) + 1;
      var lostAt := if lost then now else old(lastConnectionLostTimestamp);
      var d := RetryDecision(attempts, maxReconnectionAttempts, connId.Some?, now, lostAt, connectionTimeout);
      var s1 := if lost then Connecting else old(base.state);
      if old(base.state) == Closed then
        && io == old(io) + [StopTimers]
        && base.state == Closed && base.events == old(base.events)
        && reconnectionAttempts == old(reconnectionAttempts)
        && lastConnectionLostTimestamp == old(lastConnectionLostTimestamp)
      else
        && reconnectionAttempts == attempts
        && lastConnectionLostTimestamp == lostAt
        && base.state == (if d == GiveUp then Closed else s1)
        && base.events == old(base.events) + Transition(old(base.state), s1) +
                          (if d == GiveUp then Transition(s1, Closed) else [])
        && io == old(io) + [StopTimers] +
                 (match d
                  case GiveUp => []
                  case RetryNow => [ArmConnectTimeout(connectTimeout), Open]
                  case RetryLater => [ScheduleReconnect(reconnectionDelay)])
    }

    method OnConnectionClose(now: int)
      requires Valid()
      modifies this`io, this`reconnectionAttempts, this`lastConnectionLostTimestamp, base
      ensures Valid()
      ensures LossHandled(now)
    {
      io := io + [StopTimers];
      if base.state != Closed {
        if base.state != Connecting && base.state != Closing {
          lastConnectionLostTimestamp := now;
          base.ChangeState(Connecting);
          reconnectionAttempts := 0;
          lastConnectionLostTimestamp := now;
        } else {
          reconnectionAttempts := reconnectionAttempts + 1;
        }
        var d := RetryDecision(reconnectionAttempts, maxReconnectionAttempts, connId.Some?,
                               now, lastConnectionLostTimestamp, connectionTimeout);
        match d
        case GiveUp =>
          base.ChangeState(Closed);
        case RetryNow =>
          SocketConnect(connectTimeout);
        case RetryLater =>
          io := io + [ScheduleReconnect(reconnectionDelay)];
      }
    }

    /** The fields a received frame may change, as they are at one moment. */
    ghost function Snap(): Snapshot
      reads this, base
    {
      Snapshot(base.state, base.events, io, connId, queue, receivedCounter, sentCounter,
               reconnectionAttempts, heartbeatInterval, connectionTimeout)
    }

    /** A frame arrived: its lines are read through a LineIterator and the
        first one, the command, selects the handler. */
    method OnMessage(text: string) returns (r: Outcome)
      requires Valid()
      modifies this`reconnectionAttempts, this`connId, this`heartbeatInterval, this`connectionTimeout,
               this`io, this`queue, this`sentCounter, this`receivedCounter, base
      ensures Valid()
      ensures Dispatched(old(Snap()), Lines(text), r)
    {
      var ls := ReadLines(Some(text));
      r := Dispatch(ls);
    }

    /** How a frame with lines `ls` is handled. An empty frame throws.
        Before the handshake only "N" is accepted, anything else closes the
        connector and the socket. After it "S" and "HA" carry the server's
        acknowledgement, "CR" is the server's close request (answered with
        "CA"), and "C", the server's close, like any unknown command closes
        the connector and the socket. */
    ghost predicate Dispatched(o: Snapshot, ls: seq<string>, r: Outcome)
      reads this, base
    {
      if ls == [] then
        r == Threw(NoSuchElement) && Snap() == o
      else if o.connId.None? && ls[0] == "N" then
        Handshaken(o, ls[1..], r)
      else if o.connId.Some? && (ls[0] == "S" || ls[0] == "HA") then
        Acknowledged(o, ls[0] == "S", ls[1..], r)
      else
        && r == Done
        && base.state == Closed
        && base.events == o.events + Transition(o.state, Closed)
        && io == o.io + (if o.connId.Some? && ls[0] == "CR" then [Send(CloseAck(connId))] else [CloseSocket])
        && connId == o.connId && queue == o.queue
        && receivedCounter == o.received && sentCounter == o.sent
        && reconnectionAttempts == o.attempts
    }

    method Dispatch(ls: seq<string>) returns (r: Outcome)
      requires Valid()
      modifies this`reconnectionAttempts, this`connId, this`heartbeatInterval, this`connectionTimeout,
               this`io, this`queue, this`sentCounter, this`receivedCounter, base
      ensures Valid()
      ensures Dispatched(old(Snap()), ls, r)
    {
      if ls == [] {
        return Threw(NoSuchElement);
      }
      var cmd := ls[0];
      if connId.None? {
        if cmd != "N" {
          base.ChangeState(Closed);
          io := io + [CloseSocket];
          return Done;
        }
        r := HandleHandshake(ls[1..]);
      } else if cmd == "S" || cmd == "HA" {
        r := HandleAck(cmd == "S", ls[1..]);
      } else if cmd == "CR" {
        io := io + [Send(CloseAck(connId))];
        base.ChangeState(Closed);
        r := Done;
      } else {
        base.ChangeState(Closed);
        io := io + [CloseSocket];
        r := Done;
      }
    }

    /** The effect of the handshake reply "N", id, heartbeat interval,
        connection timeout (`ls` are the lines after "N"): the attempt count
        is reset and the three fields are assigned in that order, so a
        missing or malformed line leaves the ones before it assigned and
        throws. On success the handshake completes. */
    ghost predicate Handshaken(o: Snapshot, ls: seq<string>, r: Outcome)
      reads this, base
    {
      var ok := |ls| >= 3 && ParseInt(ls[1]).Some? && ParseInt(ls[2]).Some?;
      && reconnectionAttempts == 0
      && connId == (if |ls| >= 1 then Some(ls[0]) else o.connId)
      && heartbeatInterval ==
           (if |ls| >= 2 && ParseInt(ls[1]).Some? then ParseInt(ls[1]).value else o.heartbeat)
      && connectionTimeout == (if ok then ParseInt(ls[2]).value else o.timeout)
      && queue == o.queue && receivedCounter == o.received && sentCounter == o.sent
      && (r == Done <==> ok)
      && (!ok ==> r.Threw? && base.state == o.state && base.events == o.events && io == o.io)
      && (ok ==> HandshakeCompleted(o))
    }

    /** A connecting connector becomes ready; a non-empty queue is flushed
        with "S" (followed by the close request when closing); the heartbeat
        starts. */
    ghost predicate HandshakeCompleted(o: Snapshot)
      reads this, base
    {
      var s1 := if o.state == Connecting then Ready else o.state;
      && base.state == s1
      && base.events == o.events + Transition(o.state, s1)
      && io == o.io +
           (if queue != []
            then [Send(Counters("S", connId, receivedCounter, sentCounter, queue))] +
                 (if s1 == Closing then [Send(CloseRequest(connId))] else [])
            else []) +
           [StartHeartbeat(heartbeatInterval)]
    }

    method HandleHandshake(ls: seq<string>) returns (r: Outcome)
      requires Valid() && connId.None?
      modifies this`reconnectionAttempts, this`connId, this`heartbeatInterval, this`connectionTimeout,
               this`io, base
      ensures Valid()
      ensures Handshaken(old(Snap()), ls, r)
    {
      reconnectionAttempts := 0;
      if |ls| < 1 {
        return Threw(NoSuchElement);
      }
      connId := Some(ls[0]);
      if |ls| < 2 {
        return Threw(NoSuchElement);
      }
      var hb := ParseInt(ls[1]);
      if hb.None? {
        return Threw(NumberFormat);
      }
      heartbeatInterval := hb.value;
      if |ls| < 3 {
        return Threw(NoSuchElement);
      }
      var ct := ParseInt(ls[2]);
      if ct.None? {
        return Threw(NumberFormat);
      }
      connectionTimeout := ct.value;
      CompleteHandshake();
      return Done;
    }

    method CompleteHandshake()
      requires connId.Some?
      modifies this`io, base
      ensures connId.Some?
      ensures HandshakeCompleted(old(Snap()))
    {
      if base.state == Connecting {
        base.ChangeState(Ready);
      }
      if queue != [] {
        io := io + [Send(Counters("S", connId, receivedCounter, sentCounter, queue))];
        if base.state == Closing {
          io := io + [Send(CloseRequest(connId))];
        }
      }
      io := io + [StartHeartbeat(heartbeatInterval)];
    }

    /** The effect of "S" or "HA" (`ls` are the lines after the command): a
        connecting connector becomes ready and starts its heartbeat and the
        attempt count is reset; then the server's acknowledgement is read
        and applied. */
    ghost predicate Acknowledged(o: Snapshot, isSend: bool, ls: seq<string>, r: Outcome)
      reads this, base
    {
      var s1 := if o.state == Connecting then Ready else o.state;
      var events1 := o.events + Transition(o.state, s1);
      && reconnectionAttempts == (if o.attempts > 0 then 0 else o.attempts)
      && io == o.io + (if o.state == Connecting then [StartHeartbeat(heartbeatInterval)] else [])
      && if ls == [] || ParseLong(ls[0]).None? then
           && r.Threw? && base.state == s1 && base.events == events1
           && queue == o.queue && sentCounter == o.sent && receivedCounter == o.received
         else
           AckApplied(o, isSend, ParseLong(ls[0]).value, ls[1..], r, s1, events1)
    }

    /** The acknowledgement `ack` applied by a connector in state `s1` whose
        listeners have had `events1`. An ack below sentCounter is a protocol
        mismatch and closes the connector. Otherwise the first `ack -
        sentCounter` queued messages are dropped and sentCounter becomes
        `ack`; past the end of the queue this throws with the queue
        emptied. Unless closing, "S" then reads the number of its first
        message (`rest[0]`) and hands the following lines numbered
        from receivedCounter on to the listeners. */
    ghost predicate AckApplied(o: Snapshot, isSend: bool, ack: int, rest: seq<string>, r: Outcome,
                                  s1: State, events1: seq<ClientEvent>)
      reads this, base
    {
      if ack < o.sent then
        && r == Done && base.state == Closed && base.events == events1 + Transition(s1, Closed)
        && queue == o.queue && sentCounter == o.sent && receivedCounter == o.received
      else if ack > o.sent + |o.queue| then
        && r == Threw(IndexOutOfBounds) && base.state == s1 && base.events == events1
        && queue == [] && sentCounter == o.sent + |o.queue|
        && receivedCounter == o.received
      else
        && queue == Trim(o.queue, ack - o.sent) && sentCounter == ack
        && base.state == s1
        && if s1 == Closing || !isSend then
             r == Done && base.events == events1 && receivedCounter == o.received
           else if rest == [] || ParseLong(rest[0]).None? then
             r.Threw? && base.events == events1 && receivedCounter == o.received
           else
             var msgs := Accepted(o.received, ParseLong(rest[0]).value, rest[1..]);
             && r == Done
             && base.events == events1 + MessageEvents(msgs)
             && receivedCounter == o.received + |msgs|
    }

    method HandleAck(isSend: bool, ls: seq<string>) returns (r: Outcome)
      requires Valid() && connId.Some?
      modifies this`reconnectionAttempts, this`io, this`queue, this`sentCounter, this`receivedCounter, base
      ensures Valid()
      ensures Acknowledged(old(Snap()), isSend, ls, r)
    {
      ghost var s1 := if base.state == Connecting then Ready else base.state;
      ghost var events1 := base.events + Transition(base.state, s1);
      if base.state == Connecting {
        base.ChangeState(Ready);
        io := io + [StartHeartbeat(heartbeatInterval)];
      }
      if reconnectionAttempts > 0 {
        reconnectionAttempts := 0;
      }
      assert base.state == s1 && base.events == events1;
      if |ls| < 1 {
        return Threw(NoSuchElement);
      }
      var ack := ParseLong(ls[0]);
      if ack.None? {
        return Threw(NumberFormat);
      }
      r := ApplyAck(isSend, ack.value, ls[1..]);
    }

    method ApplyAck(isSend: bool, ack: int, rest: seq<string>) returns (r: Outcome)
      requires Valid() && connId.Some?
      modifies this`queue, this`sentCounter, this`receivedCounter, base
      ensures Valid()
      ensures AckApplied(old(Snap()), isSend, ack, rest, r, old(Snap()).state, old(Snap()).events)
    {
      if ack < sentCounter {
        base.ChangeState(Closed);
        return Done;
      }
      r := TrimQueue(ack);
      if r.Threw? || base.state == Closing || !isSend {
        return;
      }
      if |rest| < 1 {
        return Threw(NoSuchElement);
      }
      var first := ParseLong(rest[0]);
      if first.None? {
        return Threw(NumberFormat);
      }
      ReadMessages(first.value, rest[1..]);
      return Done;
    }

    /** Drops acknowledged messages from the head of the queue one at a
        time, as ArrayList.remove(0) does; removing from an empty queue
        throws IndexOutOfBoundsException with the queue already emptied. */
    method TrimQueue(ack: int) returns (r: Outcome)
      requires sentCounter <= ack
      modifies this`queue, this`sentCounter
      ensures ack <= old(sentCounter) + |old(queue)| ==>
        r == Done && queue == Trim(old(queue), ack - old(sentCounter)) && sentCounter == ack
      ensures ack > old(sentCounter) + |old(queue)| ==>
        r == Threw(IndexOutOfBounds) && queue == [] && sentCounter == old(sentCounter) + |old(queue)|
    {
      while sentCounter < ack
        invariant old(sentCounter) <= sentCounter <= ack
        invariant sentCounter - old(sentCounter) <= |old(queue)|
        invariant queue == Trim(old(queue), sentCounter - old(sentCounter))
        decreases ack - sentCounter
      {
        if queue == [] {
          return Threw(IndexOutOfBounds);
        }
        TrimStep(old(queue), sentCounter - old(sentCounter));
        queue := queue[1..];
        sentCounter := sentCounter + 1;
      }
      return Done;
    }

    /** Reads the message lines of "S": `first` is the number of the first
        one; those numbered from receivedCounter on are counted and handed
        to the listeners after the loop, the others dropped. */
    method ReadMessages(first: int, lines: seq<string>)
      modifies this`receivedCounter, base
      ensures base.events == old(base.events) + MessageEvents(Accepted(old(receivedCounter), first, lines))
      ensures receivedCounter == old(receivedCounter) + |Accepted(old(receivedCounter), first, lines)|
      ensures base.state == old(base.state)
    {
      var msgs, counter := ClientReceive(receivedCounter, first, lines);
      receivedCounter := counter;
      base.FireMessages(msgs);
    }
  }
}
