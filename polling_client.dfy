/** PollingClientConnector: the client transport over HTTP long polling.
    The HTTP stack and the scheduler are outside the model: requests are
    opaque handles handed out in order, what the connector asks of the
    stack is appended to `io`, and the stack's callbacks (a response
    arrived, a deferred task ran) are the methods named On... . The clock
    is the `now` parameter of the one callback that reads it. */
module PollingClients {
  import opened Common
  import opened Wire
  import opened Sequencing
  import opened ClientConnectors
  import opened LineIterators

  /** A request: its method, the connection id sent as "cid=<id>", the
      body and the timeout. */
  datatype PollRequest = PollRequest(verb: HttpMethod, cid: Option<string>, body: Option<CounterBody>,
                                     timeout: int)

  /** Requests to the HTTP stack and the scheduler, in the order made. */
  datatype PollIo =
    | HttpSend(handle: nat, request: PollRequest)  // httpSend(...) returned `handle`
    | HttpAbort(handle: nat)                       // httpAbort(handle)
    | Schedule(delay: int)                         // schedule(delay, run exchange)

  /** The request `exchange` issues. Without an id it asks for one with GET.
      With an id it sends both counters and the whole queue: POST when the
      queue has messages, otherwise a long poll, DELETE when closing and
      PUT else. Long polls wait longPollingTimeout plus five seconds, the
      others requestTimeout. */
  function ExchangeRequest(connId: Option<string>, state: State, received: int, sent: int,
                           queue: seq<string>, requestTimeout: int, longPollingTimeout: int): (r: PollRequest)
    ensures r.verb == GET <==> connId.None?
    ensures r.verb == POST <==> connId.Some? && queue != []
    ensures r.verb == DELETE <==> connId.Some? && queue == [] && state == Closing
    ensures r.verb == PUT <==> connId.Some? && queue == [] && state != Closing
    ensures r.verb == GET ==> r.cid.None? && r.body.None? && r.timeout == requestTimeout
    ensures r.verb != GET ==> r.cid == connId && r.body == Some(CounterBody(received, sent, queue))
    ensures r.verb == POST ==> r.timeout == requestTimeout
    ensures r.verb == PUT || r.verb == DELETE ==> r.timeout == longPollingTimeout + 5000
  {
    if connId.None? then PollRequest(GET, None, None, requestTimeout)
    else
      var body := Some(CounterBody(received, sent, queue));
      if queue != [] then PollRequest(POST, connId, body, requestTimeout)
      else PollRequest(if state == Closing then DELETE else PUT, connId, body, longPollingTimeout + 5000)
  }

  /** The part of a connector's state that handling a response may change. */
  datatype PollSnapshot = PollSnapshot(state: State, events: seq<ClientEvent>, io: seq<PollIo>,
                                       connId: Option<string>, queue: seq<string>, received: int, sent: int,
                                       attempts: int, longPollingTimeout: int, connectionTimeout: int,
                                       lostAt: int, httpRequest: Option<nat>, longPoll: bool, issued: nat)

  class PollingClientConnector {
    const base: ClientConnector
    var connId: Option<string>
    /** Messages posted and not yet acknowledged, oldest first; the head is
        number `sentCounter`. */
    var queue: seq<string>
    var receivedCounter: int
    var sentCounter: int
    var maxReconnectionAttempts: int
    var reconnectionAttempts: int
    var requestTimeout: int
    var reconnectionDelay: int
    var longPollingTimeout: int
    var connectionTimeout: int
    var lastConnectionLostTimestamp: int
    /** The request in flight, if any. */
    var httpRequest: Option<nat>
    var longPollInProgress: bool
    /** Meant to mark a pending deferred exchange; nothing sets it. */
    var scheduled: bool
    /** Handles handed out so far: the next request gets handle `issued`. */
    var issued: nat
    var io: seq<PollIo>

    /** `scheduled` stays false, the counters never go below zero and the
        request in flight is one already issued. */
    ghost predicate Valid()
      reads this
    {
      !scheduled && 0 <= sentCounter && 0 <= receivedCounter && InFlightIssued()
    }

    ghost predicate InFlightIssued()
      reads this
    {
      httpRequest.Some? ==> httpRequest.value < issued
    }

    constructor ()
      ensures Valid() && fresh(base)
      ensures base.state == Closed && base.events == []
      ensures connId == None && queue == [] && receivedCounter == 0 && sentCounter == 0
      ensures maxReconnectionAttempts == 12 && reconnectionAttempts == 0
      ensures requestTimeout == 10000 && reconnectionDelay == 5000
      ensures longPollingTimeout == 0 && connectionTimeout == 0 && lastConnectionLostTimestamp == 0
      ensures httpRequest == None && !longPollInProgress && issued == 0 && io == []
    {
      base := new ClientConnector();
      connId := None;
      queue := [];
      receivedCounter := 0;
      sentCounter := 0;
      maxReconnectionAttempts := 12;
      reconnectionAttempts := 0;
      requestTimeout := 10000;
      reconnectionDelay := 5000;
      longPollingTimeout := 0;
      connectionTimeout := 0;
      lastConnectionLostTimestamp := 0;
      httpRequest := None;
      longPollInProgress := false;
      scheduled := false;
      issued := 0;
      io := [];
    }

    ghost function Snap(): PollSnapshot
      reads this, base
    {
      PollSnapshot(base.state, base.events, io, connId, queue, receivedCounter, sentCounter,
                   reconnectionAttempts, longPollingTimeout, connectionTimeout, lastConnectionLostTimestamp,
                   httpRequest, longPollInProgress, issued)
    }

    /** The request `exchange` would issue now. */
    ghost function Request(): PollRequest
      reads this, base
    {
      ExchangeRequest(connId, base.state, receivedCounter, sentCounter, queue, requestTimeout, longPollingTimeout)
    }

    /** Since `o`, exactly one request was issued, with nothing in flight
        before it: the current Request() under the next handle. */
    ghost predicate Sent(o: PollSnapshot)
      reads this, base
    {
      && io == o.io + [HttpSend(o.issued, Request())]
      && httpRequest == Some(o.issued) && issued == o.issued + 1
      && longPollInProgress == (connId.Some? && queue == [])
    }

    /** Since `o`, no request was issued and none is in flight. */
    ghost predicate Unsent(o: PollSnapshot)
      reads this
    {
      httpRequest == None && issued == o.issued && longPollInProgress == o.longPoll
    }

    /** Sends the request the current state calls for, unless a deferred
        exchange is pending or a request other than a long poll is in
        flight; an in-flight long poll is aborted and replaced. */
    method Exchange()
      requires InFlightIssued()
      modifies this`httpRequest, this`longPollInProgress, this`issued, this`io
      ensures InFlightIssued()
      ensures scheduled || (old(httpRequest).Some? && !old(longPollInProgress)) ==>
        httpRequest == old(httpRequest) && longPollInProgress == old(longPollInProgress) &&
        issued == old(issued) && io == old(io)
      ensures !scheduled && old(httpRequest).None? ==>
        io == old(io) + [HttpSend(old(issued), Request())]
      ensures !scheduled && old(httpRequest).Some? && old(longPollInProgress) ==>
        io == old(io) + [HttpAbort(old(httpRequest).value), HttpSend(old(issued), Request())]
      ensures !scheduled && (old(httpRequest).None? || old(longPollInProgress)) ==>
        httpRequest == Some(old(issued)) && issued == old(issued) + 1 &&
        longPollInProgress == (connId.Some? && queue == [])
    {
      if scheduled {
        return;
      }
      if httpRequest.Some? {
        if longPollInProgress {
          var httpOld := httpRequest.value;
          httpRequest := None;
          io := io + [HttpAbort(httpOld)];
        } else {
          return;
        }
      }
      longPollInProgress := false;
      var handle := issued;
      issued := issued + 1;
      if connId.None? {
        io := io + [HttpSend(handle, PollRequest(GET, None, None, requestTimeout))];
      } else {
        var body := Some(CounterBody(receivedCounter, sentCounter, queue));
        if queue != [] {
          io := io + [HttpSend(handle, PollRequest(POST, connId, body, requestTimeout))];
        } else {
          longPollInProgress := true;
          var verb := if base.state == Closing then DELETE else PUT;
          io := io + [HttpSend(handle, PollRequest(verb, connId, body, longPollingTimeout + 5000))];
        }
      }
      httpRequest := Some(handle);
    }

    /** Exchange with nothing in flight: the next request goes out. */
    method SendNext()
      requires Valid() && httpRequest.None?
      modifies this`httpRequest, this`longPollInProgress, this`issued, this`io
      ensures Valid()
      ensures Sent(old(Snap()))
    {
      Exchange();
    }

    /** Asks the scheduler to run `exchange` after `delay`, unless a
        deferred exchange is already pending (which, `scheduled` never
        being set, is never the case). */
    method RequestDeferredExchange(delay: int)
      modifies this`io
      ensures io == old(io) + (if scheduled then [] else [Schedule(delay)])
    {
      if !scheduled {
        io := io + [Schedule(delay)];
      }
    }

    /** The scheduled task: clears the flag and exchanges. */
    method OnScheduledTask()
      requires Valid()
      modifies this`scheduled, this`httpRequest, this`longPollInProgress, this`issued, this`io
      ensures Valid()
      ensures old(httpRequest).Some? && !old(longPollInProgress) ==>
        httpRequest == old(httpRequest) && issued == old(issued) && io == old(io)
      ensures old(httpRequest).None? ==> io == old(io) + [HttpSend(old(issued), Request())]
      ensures old(httpRequest).Some? && old(longPollInProgress) ==>
        io == old(io) + [HttpAbort(old(httpRequest).value), HttpSend(old(issued), Request())]
    {
      scheduled := false;
      Exchange();
    }

    /** Throws when started; otherwise forgets the previous session (queue,
        id, counters, attempts), enters connecting and defers an exchange. */
    method Connect() returns (r: Outcome)
      requires Valid()
      modifies this`queue, this`connId, this`receivedCounter, this`sentCounter, this`reconnectionAttempts,
               this`io, base
      ensures Valid()
      ensures old(base.IsStarted()) ==> r == Threw(IllegalState) && unchanged(this, base)
      ensures !old(base.IsStarted()) ==>
        && r == Done
        && queue == [] && connId == None && receivedCounter == 0 && sentCounter == 0
        && reconnectionAttempts == 0
        && base.state == Connecting
        && base.events == old(base.events) + Transition(old(base.state), Connecting)
        && io == old(io) + [Schedule(0)]
    {
      if base.IsStarted() {
        return Threw(IllegalState);
      }
      queue := [];
      connId := None;
      receivedCounter := 0;
      sentCounter := 0;
      reconnectionAttempts := 0;
      base.ChangeState(Connecting);
      RequestDeferredExchange(0);
      return Done;
    }

    /** Throws when not started; otherwise enters closing and defers an
        exchange (which will send DELETE once the queue is empty). */
    method Close() returns (r: Outcome)
      requires Valid()
      modifies this`io, base
      ensures Valid()
      ensures !old(base.IsStarted()) ==> r == Threw(IllegalState) && unchanged(this, base)
      ensures old(base.IsStarted()) ==>
        && r == Done && base.state == Closing
        && base.events == old(base.events) + Transition(old(base.state), Closing)
        && io == old(io) + [Schedule(0)]
    {
      if !base.IsStarted() {
        return Threw(IllegalState);
      }
      base.ChangeState(Closing);
      RequestDeferredExchange(0);
      return Done;
    }

    /** Throws when not started; otherwise queues the message, to be sent
        by the deferred exchange. */
    method Post(msg: string) returns (r: Outcome)
      requires Valid()
      modifies this`queue, this`io
      ensures Valid()
      ensures !base.IsStarted() ==> r == Threw(IllegalState) && unchanged(this)
      ensures base.IsStarted() ==>
        r == Done && queue == old(queue) + [msg] && io == old(io) + [Schedule(0)]
    {
      if !base.IsStarted() {
        return Threw(IllegalState);
      }
      queue := queue + [msg];
      RequestDeferredExchange(0);
      return Done;
    }

    /** A response (status, body) arrived for request `request`. A response
        to any request but the one in flight is ignored. Otherwise nothing
        is in flight any more and the status decides. */
    ghost predicate Answered(o: PollSnapshot, request: nat, status: int, ls: seq<string>, now: int)
      reads this, base
    {
      if o.httpRequest != Some(request) then Snap() == o
      else Responded(o.(httpRequest := None), status, ls, now)
    }

    /** 200 carries the handshake (no id yet) or the server's counters and
        messages; 204 means the long poll expired; 410 means the server
        closed the connection; any other status is a lost connection. */
    ghost predicate Responded(o: PollSnapshot, status: int, ls: seq<string>, now: int)
      reads this, base
    {
      if status == 200 && o.connId.None? then Connected(o, ls)
      else if status == 200 then Received(o, ls)
      else if status == 204 then Refreshed(o)
      else if status == 410 then Gone(o)
      else Lost(o, now)
    }

    /** Id, queue, counters and the server's two timeouts are as in `o`. */
    ghost predicate SameSession(o: PollSnapshot)
      reads this
    {
      && connId == o.connId && queue == o.queue && receivedCounter == o.received && sentCounter == o.sent
      && longPollingTimeout == o.longPollingTimeout && connectionTimeout == o.connectionTimeout
    }

    /** The connector went from `o` to closed without sending anything and
        without touching the attempt count. */
    ghost predicate ClosedFrom(o: PollSnapshot)
      reads this, base
    {
      && base.state == Closed && base.events == o.events + Transition(o.state, Closed)
      && reconnectionAttempts == o.attempts && lastConnectionLostTimestamp == o.lostAt
      && io == o.io && Unsent(o)
    }

    /** The long poll expired: a connecting connector becomes ready and
        the next request is sent. */
    ghost predicate Refreshed(o: PollSnapshot)
      reads this, base
    {
      var s1 := if o.state == Connecting then Ready else o.state;
      && SameSession(o) && reconnectionAttempts == o.attempts && lastConnectionLostTimestamp == o.lostAt
      && base.state == s1 && base.events == o.events + Transition(o.state, s1)
      && Sent(o)
    }

    /** The server closed the connection. */
    ghost predicate Gone(o: PollSnapshot)
      reads this, base
    {
      SameSession(o) && ClosedFrom(o)
    }

    /** The handshake reply: id, long-polling timeout and connection
        timeout, assigned in that order, so a missing or malformed line
        leaves the ones before it assigned and closes the connector. On
        success a connecting connector becomes ready, the attempt count is
        reset and the next request is sent. */
    ghost predicate Connected(o: PollSnapshot, ls: seq<string>)
      reads this, base
    {
      var ok := |ls| >= 3 && ParseInt(ls[1]).Some? && ParseInt(ls[2]).Some?;
      var s1 := if o.state == Connecting then Ready else o.state;
      && connId == (if |ls| >= 1 then Some(ls[0]) else o.connId)
      && longPollingTimeout ==
           (if |ls| >= 2 && ParseInt(ls[1]).Some? then ParseInt(ls[1]).value else o.longPollingTimeout)
      && connectionTimeout == (if ok then ParseInt(ls[2]).value else o.connectionTimeout)
      && queue == o.queue && receivedCounter == o.received && sentCounter == o.sent
      && if ok then
           && base.state == s1 && base.events == o.events + Transition(o.state, s1)
           && reconnectionAttempts == 0 && lastConnectionLostTimestamp == o.lostAt && Sent(o)
         else
           ClosedFrom(o)
    }

    /** A reply with the server's counters: a connecting connector becomes
        ready, then the rest is read. */
    ghost predicate Received(o: PollSnapshot, ls: seq<string>)
      reads this, base
    {
      var s1 := if o.state == Connecting then Ready else o.state;
      Counted(o.(state := s1, events := o.events + Transition(o.state, s1)), ls)
    }

    /** The server's acknowledgement `ls[0]`, the number of its first
        message `ls[1]`, then the messages; those numbered from
        receivedCounter on are counted before the acknowledgement is looked
        at. A missing or malformed counter closes
        the connector. */
    ghost predicate Counted(o: PollSnapshot, ls: seq<string>)
      reads this, base
    {
      if |ls| < 2 || ParseLong(ls[0]).None? || ParseLong(ls[1]).None? then
        SameSession(o) && ClosedFrom(o)
      else
        var msgs := Accepted(o.received, ParseLong(ls[1]).value, ls[2..]);
        && receivedCounter == o.received + |msgs|
        && Acknowledged(o.(received := o.received + |msgs|), ParseLong(ls[0]).value, msgs)
    }

    /** The acknowledgement `ack` and the received messages `msgs` applied:
        an acknowledgement below sentCounter is a protocol mismatch that
        closes the connector, one past the queue throws with the queue
        emptied, which closes it too. Otherwise the acknowledged messages
        leave the queue, the received ones reach the listeners in order, the
        attempt count is reset and the next request is sent. */
    ghost predicate Acknowledged(o: PollSnapshot, ack: int, msgs: seq<string>)
      reads this, base
    {
      && connId == o.connId && receivedCounter == o.received
      && longPollingTimeout == o.longPollingTimeout && connectionTimeout == o.connectionTimeout
      && if ack < o.sent then
           ClosedFrom(o) && queue == o.queue && sentCounter == o.sent
         else if ack > o.sent + |o.queue| then
           ClosedFrom(o) && queue == [] && sentCounter == o.sent + |o.queue|
         else
           && queue == Trim(o.queue, ack - o.sent) && sentCounter == ack
           && base.state == o.state && base.events == o.events + MessageEvents(msgs)
           && reconnectionAttempts == 0 && lastConnectionLostTimestamp == o.lostAt && Sent(o)
    }

    /** A failed request. A connector neither connecting nor closing has
        just lost its connection: it enters connecting, restarts the
        attempt count at 0 and records the time; otherwise the attempt is
        counted. Then the connector retries or gives up. */
    ghost predicate Lost(o: PollSnapshot, now: int)
      reads this, base
    {
      var lost := o.state != Connecting && o.state != Closing;
      var s1 := if lost then Connecting else o.state;
      Retried(o.(state := s1, events := o.events + Transition(o.state, s1),
                 attempts := if lost then 0 else o.attempts + 1,
                 lostAt := if lost then now else o.lostAt), now)
    }

    /** RetryDecision on the recorded attempt count and loss time: give up
        (closed), retry at once, or retry after reconnectionDelay. */
    ghost predicate Retried(o: PollSnapshot, now: int)
      reads this, base
    {
      var d := RetryDecision(o.attempts, maxReconnectionAttempts, o.connId.Some?, now, o.lostAt, o.connectionTimeout);
      && SameSession(o)
      && reconnectionAttempts == o.attempts && lastConnectionLostTimestamp == o.lostAt
      && match d
         case GiveUp => ClosedFrom(o)
         case RetryNow => base.state == o.state && base.events == o.events && Sent(o)
         case RetryLater =>
           base.state == o.state && base.events == o.events &&
           io == o.io + [Schedule(reconnectionDelay)] && Unsent(o)
    }

    method OnReadyStateChange(request: nat, status: int, text: Option<string>, now: int)
      requires Valid()
      modifies this`connId, this`queue, this`receivedCounter, this`sentCounter, this`reconnectionAttempts,
               this`longPollingTimeout, this`connectionTimeout, this`lastConnectionLostTimestamp,
               this`httpRequest, this`longPollInProgress, this`issued, this`io, base
      ensures Valid()
      ensures Answered(old(Snap()), request, status, LinesOf(text), now)
    {
      if httpRequest != Some(request) {
        return;
      }
      httpRequest := None;
      Respond(status, text, now);
    }

    method Respond(status: int, text: Option<string>, now: int)
      requires Valid() && httpRequest.None?
      modifies this`connId, this`queue, this`receivedCounter, this`sentCounter, this`reconnectionAttempts,
               this`longPollingTimeout, this`connectionTimeout, this`lastConnectionLostTimestamp,
               this`httpRequest, this`longPollInProgress, this`issued, this`io, base
      ensures Valid()
      ensures Responded(old(Snap()), status, LinesOf(text), now)
    {
      if status == 200 {
        var ls := ReadLines(text);
        if connId.None? {
          HandleConnected(ls);
        } else {
          HandleReceived(ls);
        }
      } else if status == 204 {
        HandleNoContent();
      } else if status == 410 {
        base.ChangeState(Closed);
      } else {
        HandleFailure(now);
      }
    }

    method HandleNoContent()
      requires Valid() && httpRequest.None?
      modifies this`httpRequest, this`longPollInProgress, this`issued, this`io, base
      ensures Valid()
      ensures Refreshed(old(Snap()))
    {
      if base.state == Connecting {
        base.ChangeState(Ready);
      }
      SendNext();
    }

    method HandleConnected(ls: seq<string>)
      requires Valid() && connId.None? && httpRequest.None?
      modifies this`connId, this`longPollingTimeout, this`connectionTimeout, this`reconnectionAttempts,
               this`httpRequest, this`longPollInProgress, this`issued, this`io, base
      ensures Valid()
      ensures Connected(old(Snap()), ls)
    {
      var r := ReadHandshake(ls);
      if r.Threw? {
        base.ChangeState(Closed);
        return;
      }
      if base.state == Connecting {
        base.ChangeState(Ready);
      }
      Resume();
    }

    /** After a successful exchange: the attempt count restarts at 0 and
        the next request is sent. */
    method Resume()
      requires Valid() && httpRequest.None?
      modifies this`reconnectionAttempts, this`httpRequest, this`longPollInProgress, this`issued, this`io
      ensures Valid()
      ensures reconnectionAttempts == 0 && Sent(old(Snap()))
    {
      reconnectionAttempts := 0;
      SendNext();
    }

    /** Reads id, long-polling timeout and connection timeout into their
        fields, stopping at the first missing or malformed line. */
    method ReadHandshake(ls: seq<string>) returns (r: Outcome)
      modifies this`connId, this`longPollingTimeout, this`connectionTimeout
      ensures r == Done <==> |ls| >= 3 && ParseInt(ls[1]).Some? && ParseInt(ls[2]).Some?
      ensures connId == (if |ls| >= 1 then Some(ls[0]) else old(connId))
      ensures longPollingTimeout ==
        (if |ls| >= 2 && ParseInt(ls[1]).Some? then ParseInt(ls[1]).value else old(longPollingTimeout))
      ensures connectionTimeout == (if r == Done then ParseInt(ls[2]).value else old(connectionTimeout))
    {
      if |ls| < 1 {
        return Threw(NoSuchElement);
      }
      connId := Some(ls[0]);
      if |ls| < 2 {
        return Threw(NoSuchElement);
      }
      var lpt := ParseInt(ls[1]);
      if lpt.None? {
        return Threw(NumberFormat);
      }
      longPollingTimeout := lpt.value;
      if |ls| < 3 {
        return Threw(NoSuchElement);
      }
      var ct := ParseInt(ls[2]);
      if ct.None? {
        return Threw(NumberFormat);
      }
      connectionTimeout := ct.value;
      return Done;
    }

    method HandleReceived(ls: seq<string>)
      requires Valid() && connId.Some? && httpRequest.None?
      modifies this`queue, this`receivedCounter, this`sentCounter, this`reconnectionAttempts,
               this`httpRequest, this`longPollInProgress, this`issued, this`io, base
      ensures Valid()
      ensures Received(old(Snap()), ls)
    {
      ghost var o := Snap();
      ghost var s1 := if o.state == Connecting then Ready else o.state;
      if base.state == Connecting {
        base.ChangeState(Ready);
      }
      assert Snap() == o.(state := s1, events := o.events + Transition(o.state, s1));
      CountReceived(ls);
    }

    method CountReceived(ls: seq<string>)
      requires Valid() && httpRequest.None?
      modifies this`queue, this`receivedCounter, this`sentCounter, this`reconnectionAttempts,
               this`httpRequest, this`longPollInProgress, this`issued, this`io, base
      ensures Valid()
      ensures Counted(old(Snap()), ls)
    {
      if |ls| < 2 {
        base.ChangeState(Closed);
        return;
      }
      var ack := ParseLong(ls[0]);
      var first := ParseLong(ls[1]);
      if ack.None? || first.None? {
        base.ChangeState(Closed);
        return;
      }
      var msgs, counter := ClientReceive(receivedCounter, first.value, ls[2..]);
      receivedCounter := counter;
      Acknowledge(ack.value, msgs);
    }

    method Acknowledge(ack: int, msgs: seq<string>)
      requires Valid() && httpRequest.None?
      modifies this`queue, this`sentCounter, this`reconnectionAttempts,
               this`httpRequest, this`longPollInProgress, this`issued, this`io, base
      ensures Valid()
      ensures Acknowledged(old(Snap()), ack, msgs)
    {
      if ack < sentCounter {
        base.ChangeState(Closed);
        return;
      }
      var r := TrimQueue(ack);
      if r.Threw? {
        base.ChangeState(Closed);
        return;
      }
      base.FireMessages(msgs);
      Resume();
    }

    /** Drops acknowledged messages from the head of the queue one at a
        time, as ArrayList.remove(0) does; removing from an empty queue
        throws IndexOutOfBoundsException with the queue already emptied. */
    method TrimQueue(ack: int) returns (r: Outcome)
      requires sentCounter <= ack
      modifies this`queue, this`sentCounter
      ensures ack <= old(sentCounter) + |old(queue)| ==>
        r == Done && queue == Trim(old(queue), ack - old(sentCounter)) && sentCounter == ack
      ensures ack > old(sentCounter) + |old(queue)| ==>
        r == Threw(IndexOutOfBounds) && queue == [] && sentCounter == old(sentCounter) + |old(queue)|
    {
      while sentCounter < ack
        invariant old(sentCounter) <= sentCounter <= ack
        invariant sentCounter - old(sentCounter) <= |old(queue)|
        invariant queue == Trim(old(queue), sentCounter - old(sentCounter))
        decreases ack - sentCounter
      {
        if queue == [] {
          return Threw(IndexOutOfBounds);
        }
        TrimStep(old(queue), sentCounter - old(sentCounter));
        queue := queue[1..];
        sentCounter := sentCounter + 1;
      }
      return Done;
    }

    method HandleFailure(now: int)
      requires Valid() && httpRequest.None?
      modifies this`reconnectionAttempts, this`lastConnectionLostTimestamp,
               this`httpRequest, this`longPollInProgress, this`issued, this`io, base
      ensures Valid()
      ensures Lost(old(Snap()), now)
    {
      if base.state != Connecting && base.state != Closing {
        base.ChangeState(Connecting);
        reconnectionAttempts := 0;
        lastConnectionLostTimestamp := now;
      } else {
        reconnectionAttempts := reconnectionAttempts + 1;
      }
      Retry(now);
    }

    method Retry(now: int)
      requires Valid() && httpRequest.None?
      modifies this`httpRequest, this`longPollInProgress, this`issued, this`io, base
      ensures Valid()
      ensures Retried(old(Snap()), now)
    {
      var d := RetryDecision(reconnectionAttempts, maxReconnectionAttempts, connId.Some?,
                             now, lastConnectionLostTimestamp, connectionTimeout);
      match d
      case GiveUp =>
        base.ChangeState(Closed);
      case RetryNow =>
        SendNext();
      case RetryLater =>
        RequestDeferredExchange(reconnectionDelay);
    }
  }
}
