/** The websocket-with-polling-fallback connector (FallbackClientConnector).
    It starts a detection phase in which it probes the websocket transport
    (and the polling one, in parallel or after the websocket has failed),
    buffers what the application posts, and, once a transport is known to
    work, flushes the buffer to it and forwards from then on only that
    transport's events. The two transports are opaque here: every call made
    on them is recorded, in order, in `calls`, and what their `connect()`
    and `close()`/`post()` answer is a parameter. */
module FallbackClients {
  import opened Common
  import opened ClientConnectors

  datatype Transport = Websocket | Polling

  /** A call made on one of the transports. */
  datatype TransportCall =
    | SetConnectTimeout(timeout: int)                         // websocket only
    | SetRequestTimeout(timeout: int)                         // polling only
    | SetMaxReconnectionAttempts(target: Transport, attempts: int)
    | SetReconnectionDelay(target: Transport, delay: int)
    | ConnectTransport(target: Transport)
    | CloseTransport(target: Transport)
    | PostTo(target: Transport, message: string)
    | ScheduleRetry(delay: int)                               // pollingTransport.schedule(delay, connectTryImpl)

  /** The selector's configuration: its own limits, the transports' values
      saved at construction, and the detection settings. */
  datatype Settings = Settings(
    maxAttempts: int, delay: int,
    wsConnectTimeout: int, wsMaxRetries: int, wsDelay: int,
    pollRequestTimeout: int, pollMaxRetries: int, pollDelay: int,
    detectTimeout: int, detectAttempts: int, parallel: bool)

  /** Everything a step of the selector can change: its state and listener
      events, the detection flags (None stands for a null Boolean), the
      buffer, the attempt count and the calls made on the transports. */
  datatype Selector = Selector(
    state: State, events: seq<ClientEvent>, detecting: bool,
    wsAvailable: Option<bool>, pollAvailable: Option<bool>,
    queue: seq<string>, attempts: int, calls: seq<TransportCall>)

  function Max(a: int, b: int): (m: int)
    ensures m >= a && m >= b && (m == a || m == b)
  {
    if a >= b then a else b
  }

  /** What happens once both transports failed, decided on the attempt
      count after its increment. */
  datatype RetryStep = Exhausted | ImmediateRetry | DelayedRetry

  /** The retry rule: give up past the maximum, retry at once
      when the incremented count is 0, otherwise after the delay. */
  function FallbackRetry(n: int, maxAttempts: int): (step: RetryStep)
    ensures step == Exhausted <==> n > maxAttempts
    ensures step == ImmediateRetry <==> n <= maxAttempts && n == 0
  {
    if n > maxAttempts then Exhausted
    else if n == 0 then ImmediateRetry
    else DelayedRetry
  }

  /** Counts start at 0 and are incremented before the rule is applied, so
      the immediate retry is never taken. */
  lemma FallbackRetryNeverImmediate(attempts: int, maxAttempts: int)
    requires attempts >= 0
    ensures FallbackRetry(attempts + 1, maxAttempts) != ImmediateRetry
    ensures FallbackRetry(attempts + 1, maxAttempts) ==
      (if attempts + 1 > maxAttempts then Exhausted else DelayedRetry)
  {
  }

  /** The selector's own change of state, as ClientConnector.changeState. */
  function Changed(s: Selector, to: State): Selector
  {
    s.(state := to, events := s.events + Transition(s.state, to))
  }

  /** One post per buffered message, in buffer order. */
  function Posts(t: Transport, msgs: seq<string>): (cs: seq<TransportCall>)
    ensures |cs| == |msgs|
    ensures forall i :: 0 <= i < |msgs| ==> cs[i] == PostTo(t, msgs[i])
  {
    if msgs == [] then [] else [PostTo(t, msgs[0])] + Posts(t, msgs[1..])
  }

  lemma PostsAppend(t: Transport, msgs: seq<string>, m: string)
    ensures Posts(t, msgs + [m]) == Posts(t, msgs) + [PostTo(t, m)]
  {
  }

  /** The messages a call log posts to `t`, in order. */
  function PostedTo(t: Transport, cs: seq<TransportCall>): (msgs: seq<string>)
    ensures |msgs| <= |cs|
  {
    if cs == [] then []
    else (if cs[0].PostTo? && cs[0].target == t then [cs[0].message] else []) + PostedTo(t, cs[1..])
  }

  lemma {:induction false} PostedToConcat(t: Transport, a: seq<TransportCall>, b: seq<TransportCall>)
    ensures PostedTo(t, a + b) == PostedTo(t, a) + PostedTo(t, b)
    decreases |a|
  {
    if a == [] {
      assert a + b == b;
    } else {
      assert (a + b)[1..] == a[1..] + b;
      PostedToConcat(t, a[1..], b);
    }
  }

  /** The posts of the flush reach `t` and nothing else. */
  lemma {:induction false} PostedToPosts(t: Transport, u: Transport, msgs: seq<string>)
    ensures PostedTo(u, Posts(t, msgs)) == (if u == t then msgs else [])
    decreases |msgs|
  {
    if msgs != [] {
      PostedToPosts(t, u, msgs[1..]);
    }
  }

  /** Detection settings pushed on both transports by connectTryImpl. */
  function DetectionSettings(cfg: Settings): seq<TransportCall>
  {
    [ SetConnectTimeout(cfg.detectTimeout), SetRequestTimeout(cfg.detectTimeout),
      SetMaxReconnectionAttempts(Websocket, cfg.detectAttempts),
      SetMaxReconnectionAttempts(Polling, cfg.detectAttempts),
      SetReconnectionDelay(Websocket, 0), SetReconnectionDelay(Polling, 0) ]
  }

  /** The winner's own values, saved at construction, put back. */
  function Restore(cfg: Settings, t: Transport): seq<TransportCall>
  {
    match t
    case Websocket =>
      [ SetMaxReconnectionAttempts(Websocket, cfg.wsMaxRetries), SetConnectTimeout(cfg.wsConnectTimeout),
        SetReconnectionDelay(Websocket, cfg.wsDelay) ]
    case Polling =>
      [ SetMaxReconnectionAttempts(Polling, cfg.pollMaxRetries), SetRequestTimeout(cfg.pollRequestTimeout),
        SetReconnectionDelay(Polling, cfg.pollDelay) ]
  }

  /** `t` won: detection ends, the buffer goes to `t` in order, `t`'s
      settings come back, and then a connecting selector is ready while a
      closing one closes `t`. */
  function Adopt(s: Selector, cfg: Settings, t: Transport): Selector
  {
    var s1 := s.(detecting := false, queue := [], calls := s.calls + Posts(t, s.queue) + Restore(cfg, t));
    if s.state == Connecting then Changed(s1, Ready)
    else if s.state == Closing then s1.(calls := s1.calls + [CloseTransport(t)])
    else s1
  }

  /** Both transports failed: a selector that is not closed counts the
      attempt, then gives up or schedules connectTryImpl. */
  function Reattempt(s: Selector, cfg: Settings): Selector
    requires s.attempts >= 0
  {
    if s.state == Closed then s
    else
      var n := s.attempts + 1;
      FallbackRetryNeverImmediate(s.attempts, cfg.maxAttempts);
      match FallbackRetry(n, cfg.maxAttempts)
      case Exhausted => Changed(s.(attempts := n), Closed)
      case DelayedRetry => s.(attempts := n, calls := s.calls + [ScheduleRetry(cfg.delay)])
  }

  /** pollingTransport.connect(), which may throw (it does when the
      transport is already started); a throw marks polling unusable. */
  function StartPolling(s: Selector, pollConnect: Outcome): Selector
  {
    var s1 := s.(calls := s.calls + [ConnectTransport(Polling)]);
    if pollConnect.Threw? then s1.(pollAvailable := Some(false)) else s1
  }

  /** checkDetectionComplete. */
  function Check(s: Selector, cfg: Settings, pollConnect: Outcome): Selector
    requires s.attempts >= 0
  {
    match s.wsAvailable
    case None => s
    case Some(true) =>
      Adopt(s.(calls := s.calls + [CloseTransport(Polling)], pollAvailable := Some(false)), cfg, Websocket)
    case Some(false) =>
      match s.pollAvailable
      case Some(true) => Adopt(s, cfg, Polling)
      case Some(false) => Reattempt(s, cfg)
      case None => if cfg.parallel then s else StartPolling(s, pollConnect)
  }

  /** connectTryImpl: detection restarts with both outcomes unknown, the
      detection settings are pushed, the websocket is connected (and
      polling too in parallel mode), then detection is checked. */
  function ConnectTry(s: Selector, cfg: Settings, wsConnect: Outcome, pollConnect: Outcome): Selector
    requires s.attempts >= 0
  {
    var s1 := s.(detecting := true, wsAvailable := None, pollAvailable := None,
                 calls := s.calls + DetectionSettings(cfg) + [ConnectTransport(Websocket)]);
    var s2 := if wsConnect.Threw? then s1.(wsAvailable := Some(false)) else s1;
    var s3 := if cfg.parallel then StartPolling(s2, pollConnect) else s2;
    Check(s3, cfg, pollConnect)
  }

  /** connect: throws when started; otherwise connecting, an empty buffer,
      no attempts yet, and a detection round. */
  function ConnectStep(s: Selector, cfg: Settings, wsConnect: Outcome, pollConnect: Outcome): (Outcome, Selector)
    requires s.attempts >= 0
  {
    if s.state == Connecting || s.state == Ready then (Threw(IllegalState), s)
    else (Done, ConnectTry(Changed(s, Connecting).(queue := [], attempts := 0), cfg, wsConnect, pollConnect))
  }

  /** A state change of the websocket transport. During detection a change
      out of connecting decides the websocket (available iff it reached
      ready), and any other change not out of closed marks it unavailable;
      both are followed by a check. After detection the change is repeated
      by the selector only when the websocket is the transport in use. */
  function WebsocketChanged(s: Selector, cfg: Settings, from: State, to: State, pollConnect: Outcome): Selector
    requires s.attempts >= 0
  {
    if s.detecting then
      if from == Connecting then Check(s.(wsAvailable := Some(to == Ready)), cfg, pollConnect)
      else if from != Closed then Check(s.(wsAvailable := Some(false)), cfg, pollConnect)
      else s
    else if s.wsAvailable == Some(true) then Changed(s, to)
    else s
  }

  /** A state change of the polling transport. During detection a change
      out of connecting decides polling (available iff it reached ready), a
      change into closed marks it unavailable, and every change is followed
      by a check. After detection it is repeated only when polling is in
      use. */
  function PollingChanged(s: Selector, cfg: Settings, from: State, to: State, pollConnect: Outcome): Selector
    requires s.attempts >= 0
  {
    if s.detecting then
      var p := if from == Connecting then Some(to == Ready)
               else if to == Closed then Some(false)
               else s.pollAvailable;
      Check(s.(pollAvailable := p), cfg, pollConnect)
    else if s.pollAvailable == Some(true) then Changed(s, to)
    else s
  }

  /** A message from transport `t` reaches the listeners only when `t` is
      marked available. */
  function Delivered(s: Selector, t: Transport, msg: string): Selector
  {
    var available := if t == Websocket then s.wsAvailable else s.pollAvailable;
    if available == Some(true) then s.(events := s.events + [MessageReceived(msg)]) else s
  }

  /** close: during detection it throws when not started and otherwise
      only moves to closing; afterwards it closes the transport in use,
      answering what that transport answers. An unset flag is a
      NullPointerException. */
  function CloseStep(s: Selector, answer: Outcome): (Outcome, Selector)
  {
    if s.detecting then
      if !(s.state == Connecting || s.state == Ready) then (Threw(IllegalState), s)
      else (Done, Changed(s, Closing))
    else
      match s.wsAvailable
      case None => (Threw(NullPointer), s)
      case Some(true) => (answer, s.(calls := s.calls + [CloseTransport(Websocket)]))
      case Some(false) =>
        match s.pollAvailable
        case None => (Threw(NullPointer), s)
        case Some(true) => (answer, s.(calls := s.calls + [CloseTransport(Polling)]))
        case Some(false) => (Done, s)
  }

  /** post: during detection it throws when not started and otherwise only
      buffers; afterwards the message goes to the transport in use. */
  function PostStep(s: Selector, msg: string, answer: Outcome): (Outcome, Selector)
  {
    if s.detecting then
      if !(s.state == Connecting || s.state == Ready) then (Threw(IllegalState), s)
      else (Done, s.(queue := s.queue + [msg]))
    else
      match s.wsAvailable
      case None => (Threw(NullPointer), s)
      case Some(true) => (answer, s.(calls := s.calls + [PostTo(Websocket, msg)]))
      case Some(false) =>
        match s.pollAvailable
        case None => (Threw(NullPointer), s)
        case Some(true) => (answer, s.(calls := s.calls + [PostTo(Polling, msg)]))
        case Some(false) => (Done, s)
  }

  /** Outside detection either nothing was ever decided (before the first
      connect), or exactly one transport is in use; the buffer is only
      filled during detection; the attempt count is never negative. */
  predicate Coherent(s: Selector)
  {
    && s.attempts >= 0
    && (!s.detecting ==>
          && s.queue == []
          && ((s.wsAvailable == None && s.pollAvailable == None)
              || (s.wsAvailable == Some(true) && s.pollAvailable == Some(false))
              || (s.wsAvailable == Some(false) && s.pollAvailable == Some(true))))
  }

  /** The messages a step posted to `t`: those of its new calls. */
  function NewPosts(t: Transport, before: Selector, after: Selector): seq<string>
  {
    if |before.calls| <= |after.calls| then PostedTo(t, after.calls[|before.calls|..]) else []
  }

  /** Nothing is decided while the websocket outcome is unknown, whatever
      polling reported. */
  lemma NothingDecidedWhileWebsocketUnknown(s: Selector, cfg: Settings, pollConnect: Outcome)
    requires s.attempts >= 0 && s.wsAvailable == None
    ensures Check(s, cfg, pollConnect) == s
  {
  }

  /** A working websocket wins whatever polling reported: polling is
      closed and marked unavailable, and the outcome does not depend on the
      polling flag. */
  lemma WebsocketWins(s: Selector, cfg: Settings, pollConnect: Outcome, p: Option<bool>)
    requires s.attempts >= 0 && s.wsAvailable == Some(true)
    ensures var r := Check(s, cfg, pollConnect);
      && r == Check(s.(pollAvailable := p), cfg, pollConnect)
      && !r.detecting && r.pollAvailable == Some(false) && r.wsAvailable == Some(true)
      && |r.calls| > |s.calls| && r.calls[|s.calls|] == CloseTransport(Polling)
  {
  }

  /** The calls of an adoption: the buffered posts, the restored settings,
      and a close of the winner when the selector was closing. */
  lemma AdoptCalls(s: Selector, cfg: Settings, t: Transport)
    ensures Adopt(s, cfg, t).calls ==
      s.calls + Posts(t, s.queue) + Restore(cfg, t) + (if s.state == Closing then [CloseTransport(t)] else [])
  {
  }

  /** An adoption posts every buffered message to the winner, exactly once
      and in the order they were posted, and nothing to the other
      transport; the buffer is then empty. */
  lemma AdoptFlushesInOrder(s: Selector, cfg: Settings, t: Transport, u: Transport)
    ensures var r := Adopt(s, cfg, t);
      && r.queue == [] && !r.detecting
      && NewPosts(u, s, r) == (if u == t then s.queue else [])
      && r.state == (if s.state == Connecting then Ready else s.state)
      && r.events == s.events + Transition(s.state, r.state)
  {
    AdoptPosts(s, cfg, t, u);
  }

  lemma AdoptPosts(s: Selector, cfg: Settings, t: Transport, u: Transport)
    ensures PostedTo(u, Adopt(s, cfg, t).calls[|s.calls|..]) == (if u == t then s.queue else [])
  {
    var c := Adopt(s, cfg, t).calls;
    var rest := Restore(cfg, t) + (if s.state == Closing then [CloseTransport(t)] else []);
    AdoptCalls(s, cfg, t);
    assert c[|s.calls|..] == Posts(t, s.queue) + rest by {
      assert c == s.calls + (Posts(t, s.queue) + rest);
    }
    PostedToConcat(u, Posts(t, s.queue), rest);
    PostedToPosts(t, u, s.queue);
    RestoreNoPosts(cfg, t, s.state == Closing, u);
  }

  /** Restoring settings and closing post nothing. */
  lemma RestoreNoPosts(cfg: Settings, t: Transport, closing: bool, u: Transport)
    ensures PostedTo(u, Restore(cfg, t) + (if closing then [CloseTransport(t)] else [])) == []
  {
    var rest := Restore(cfg, t) + (if closing then [CloseTransport(t)] else []);
    forall i | 0 <= i < |rest|
      ensures !rest[i].PostTo?
    {
      if i < 3 {
        assert rest[i] == Restore(cfg, t)[i];
      }
    }
    PostedToNoPosts(u, rest);
  }

  lemma {:induction false} PostedToNoPosts(u: Transport, cs: seq<TransportCall>)
    requires forall i :: 0 <= i < |cs| ==> !cs[i].PostTo?
    ensures PostedTo(u, cs) == []
    decreases |cs|
  {
    if cs != [] {
      PostedToNoPosts(u, cs[1..]);
    }
  }

  /** When detection completes, the winner (websocket if it works, else
      polling) receives the buffer in FIFO order and the loser nothing. */
  lemma DetectionFlushesToWinner(s: Selector, cfg: Settings, pollConnect: Outcome, u: Transport)
    requires s.attempts >= 0
    requires s.wsAvailable == Some(true) || (s.wsAvailable == Some(false) && s.pollAvailable == Some(true))
    ensures var r := Check(s, cfg, pollConnect);
      var winner := if s.wsAvailable == Some(true) then Websocket else Polling;
      && r.queue == [] && !r.detecting
      && NewPosts(u, s, r) == (if u == winner then s.queue else [])
      && r.state == (if s.state == Connecting then Ready else s.state)
  {
    if s.wsAvailable == Some(true) {
      FlushToWebsocket(s, cfg, pollConnect, u);
    } else {
      FlushToPolling(s, cfg, pollConnect, u);
    }
  }

  /** A working websocket wins: polling is closed first, then the
      websocket is adopted. */
  lemma FlushToWebsocket(s: Selector, cfg: Settings, pollConnect: Outcome, u: Transport)
    requires s.attempts >= 0 && s.wsAvailable == Some(true)
    ensures var r := Check(s, cfg, pollConnect);
      && r.queue == [] && !r.detecting
      && NewPosts(u, s, r) == (if u == Websocket then s.queue else [])
      && r.state == (if s.state == Connecting then Ready else s.state)
  {
    var s1 := s.(calls := s.calls + [CloseTransport(Polling)], pollAvailable := Some(false));
    AdoptFlushesInOrder(s1, cfg, Websocket, u);
    AdoptCalls(s1, cfg, Websocket);
    NewPostsPastClose(u, s, s1, Adopt(s1, cfg, Websocket), Polling);
  }

  /** A close call between two states posts nothing. */
  lemma NewPostsPastClose(u: Transport, s: Selector, s1: Selector, r: Selector, t: Transport)
    requires s1.calls == s.calls + [CloseTransport(t)]
    requires |s1.calls| <= |r.calls| && r.calls[..|s1.calls|] == s1.calls
    ensures NewPosts(u, s, r) == NewPosts(u, s1, r)
  {
    var k := |s.calls|;
    assert r.calls[k] == CloseTransport(t);
    assert r.calls[k..] == [r.calls[k]] + r.calls[k + 1..];
    PostedToConcat(u, [r.calls[k]], r.calls[k + 1..]);
  }

  /** A failed websocket and a working polling transport: polling is
      adopted. */
  lemma FlushToPolling(s: Selector, cfg: Settings, pollConnect: Outcome, u: Transport)
    requires s.attempts >= 0 && s.wsAvailable == Some(false) && s.pollAvailable == Some(true)
    ensures var r := Check(s, cfg, pollConnect);
      && r.queue == [] && !r.detecting
      && NewPosts(u, s, r) == (if u == Polling then s.queue else [])
      && r.state == (if s.state == Connecting then Ready else s.state)
  {
    AdoptFlushesInOrder(s, cfg, Polling, u);
  }

  /** Both transports failed: a selector that is not closed counts the
      attempt; past the maximum it is closed, otherwise connectTryImpl is
      scheduled after the selector's delay -- never run at once. */
  lemma BothFailedRetriesLater(s: Selector, cfg: Settings, pollConnect: Outcome)
    requires s.attempts >= 0 && s.wsAvailable == Some(false) && s.pollAvailable == Some(false)
    ensures var r := Check(s, cfg, pollConnect);
      if s.state == Closed then r == s
      else if s.attempts + 1 > cfg.maxAttempts then
        r == s.(attempts := s.attempts + 1, state := Closed,
                events := s.events + [StateChanged(s.state, Closed)])
      else
        r == s.(attempts := s.attempts + 1, calls := s.calls + [ScheduleRetry(cfg.delay)])
  {
  }

  /** In sequential mode a check starts polling exactly when the websocket
      is known to be unavailable and polling's outcome is unknown. */
  lemma SequentialProbe(s: Selector, cfg: Settings, pollConnect: Outcome)
    requires s.attempts >= 0 && !cfg.parallel
    ensures var r := Check(s, cfg, pollConnect);
      (|r.calls| > |s.calls| && r.calls[|s.calls|] == ConnectTransport(Polling))
        <==> s.wsAvailable == Some(false) && s.pollAvailable == None
  {
    var r := Check(s, cfg, pollConnect);
    if s.wsAvailable == Some(true) {
      assert r.calls[|s.calls|] == CloseTransport(Polling);
    } else if s.wsAvailable == Some(false) && s.pollAvailable == Some(true) {
      AdoptCalls(s, cfg, Polling);
      if s.queue != [] {
        assert r.calls[|s.calls|] == PostTo(Polling, s.queue[0]);
      } else {
        assert r.calls[|s.calls|] == SetMaxReconnectionAttempts(Polling, cfg.pollMaxRetries);
      }
    }
  }

  /** connect throws when started and changes nothing. Otherwise it moves
      to connecting, empties the buffer, zeroes the attempts and pushes the
      detection settings before connecting the websocket; while the
      websocket's outcome is unknown that is where it stays. */
  lemma ConnectStartsDetection(s: Selector, cfg: Settings, wsConnect: Outcome, pollConnect: Outcome)
    requires s.attempts >= 0
    ensures var (r, t) := ConnectStep(s, cfg, wsConnect, pollConnect);
      if s.state == Connecting || s.state == Ready then r == Threw(IllegalState) && t == s
      else
        && r == Done
        && t.events[..|s.events| + 1] == s.events + [StateChanged(s.state, Connecting)]
        && t.calls[..|s.calls| + 7] == s.calls + DetectionSettings(cfg) + [ConnectTransport(Websocket)]
        && (wsConnect == Done ==>
              && t.state == Connecting && t.detecting && t.wsAvailable == None
              && t.queue == [] && t.attempts == 0)
  {
  }

  /** During detection post only buffers and close only moves to closing;
      neither calls a transport. Afterwards each goes to the transport in
      use and only there. */
  lemma PostAndCloseFollowDetection(s: Selector, msg: string, answer: Outcome)
    requires Coherent(s)
    ensures var (r, t) := PostStep(s, msg, answer);
      if s.detecting then
        t.calls == s.calls && t.state == s.state &&
        (r == Done <==> s.state == Connecting || s.state == Ready) &&
        t.queue == (if r == Done then s.queue + [msg] else s.queue)
      else if s.wsAvailable == Some(true) then r == answer && t.calls == s.calls + [PostTo(Websocket, msg)]
      else if s.pollAvailable == Some(true) then r == answer && t.calls == s.calls + [PostTo(Polling, msg)]
      else r == Threw(NullPointer) && t == s
    ensures var (r, t) := CloseStep(s, answer);
      if s.detecting then
        t.calls == s.calls && t.queue == s.queue &&
        (r == Done <==> s.state == Connecting || s.state == Ready) &&
        t.state == (if r == Done then Closing else s.state)
      else if s.wsAvailable == Some(true) then r == answer && t.calls == s.calls + [CloseTransport(Websocket)]
      else if s.pollAvailable == Some(true) then r == answer && t.calls == s.calls + [CloseTransport(Polling)]
      else r == Threw(NullPointer) && t == s
  {
  }

  /** After detection a transport's state changes and messages reach the
      selector's listeners only when it is the one in use, so at most one
      transport is ever forwarded. */
  lemma OnlyTheWinnerIsForwarded(s: Selector, cfg: Settings, from: State, to: State, pollConnect: Outcome,
                                 t: Transport, msg: string)
    requires Coherent(s) && !s.detecting
    ensures WebsocketChanged(s, cfg, from, to, pollConnect).events != s.events ==> s.wsAvailable == Some(true)
    ensures PollingChanged(s, cfg, from, to, pollConnect).events != s.events ==> s.pollAvailable == Some(true)
    ensures Delivered(s, t, msg).events != s.events <==>
      (if t == Websocket then s.wsAvailable else s.pollAvailable) == Some(true)
    ensures !(s.wsAvailable == Some(true) && s.pollAvailable == Some(true))
  {
  }

  /** Every step keeps the selector coherent. */
  lemma CheckKeepsCoherent(s: Selector, cfg: Settings, pollConnect: Outcome)
    requires Coherent(s)
    ensures Coherent(Check(s, cfg, pollConnect))
  {
  }

  lemma ConnectTryKeepsCoherent(s: Selector, cfg: Settings, wsConnect: Outcome, pollConnect: Outcome)
    requires s.attempts >= 0
    ensures Coherent(ConnectTry(s, cfg, wsConnect, pollConnect))
  {
    var s1 := s.(detecting := true, wsAvailable := None, pollAvailable := None,
                 calls := s.calls + DetectionSettings(cfg) + [ConnectTransport(Websocket)]);
    var s2 := if wsConnect.Threw? then s1.(wsAvailable := Some(false)) else s1;
    var s3 := if cfg.parallel then StartPolling(s2, pollConnect) else s2;
    CheckKeepsCoherent(s3, cfg, pollConnect);
  }

  lemma ConnectKeepsCoherent(s: Selector, cfg: Settings, wsConnect: Outcome, pollConnect: Outcome)
    requires Coherent(s)
    ensures Coherent(ConnectStep(s, cfg, wsConnect, pollConnect).1)
  {
    if !(s.state == Connecting || s.state == Ready) {
      ConnectTryKeepsCoherent(Changed(s, Connecting).(queue := [], attempts := 0), cfg, wsConnect, pollConnect);
    }
  }

  lemma EventsKeepCoherent(s: Selector, cfg: Settings, from: State, to: State, pollConnect: Outcome,
                           t: Transport, msg: string)
    requires Coherent(s)
    ensures Coherent(WebsocketChanged(s, cfg, from, to, pollConnect))
    ensures Coherent(PollingChanged(s, cfg, from, to, pollConnect))
    ensures Coherent(Delivered(s, t, msg))
  {
    if s.detecting {
      CheckKeepsCoherent(s.(wsAvailable := Some(to == Ready)), cfg, pollConnect);
      CheckKeepsCoherent(s.(wsAvailable := Some(false)), cfg, pollConnect);
      var p := if from == Connecting then Some(to == Ready)
               else if to == Closed then Some(false)
               else s.pollAvailable;
      CheckKeepsCoherent(s.(pollAvailable := p), cfg, pollConnect);
    }
  }

  lemma PostCloseKeepCoherent(s: Selector, msg: string, answer: Outcome)
    requires Coherent(s)
    ensures Coherent(PostStep(s, msg, answer).1)
    ensures Coherent(CloseStep(s, answer).1)
  {
  }

  class FallbackClientConnector {
    const base: ClientConnector

    var detectingPhase: bool
    var websocketAvailable: Option<bool>
    var pollingAvailable: Option<bool>
    /** Messages posted during detection, oldest first. */
    var queue: seq<string>

    var transportDetectionConnectTimeout: int
    var transportDetectionReconnectionAttempts: int
    var tryConnectionInParallel: bool

    const savedWsTransportConnectTimeout: int
    const savedWsTransportMaxRetries: int
    const savedPollingTransportRequestTimeout: int
    const savedPollingTransportMaxRetries: int
    const savedWsReconnectionDelay: int
    const savedPollingReconnectionDelay: int

    const maxReconnectionAttempts: int
    const reconnectionDelay: int

    var connectionAttempts: int
    /** The calls made on the two transports, oldest first. */
    var calls: seq<TransportCall>

    ghost function Sel(): Selector
      reads this, base
    {
      Selector(base.state, base.events, detectingPhase, websocketAvailable, pollingAvailable,
               queue, connectionAttempts, calls)
    }

    function Cfg(): Settings
      reads this
    {
      Settings(maxReconnectionAttempts, reconnectionDelay,
               savedWsTransportConnectTimeout, savedWsTransportMaxRetries, savedWsReconnectionDelay,
               savedPollingTransportRequestTimeout, savedPollingTransportMaxRetries, savedPollingReconnectionDelay,
               transportDetectionConnectTimeout, transportDetectionReconnectionAttempts, tryConnectionInParallel)
    }

    ghost predicate Valid()
      reads this, base
    {
      Coherent(Sel())
    }

    /** Saves the transports' attempt limits, delays and timeouts; the
        selector's own limit and delay are the larger of the two
        transports' values. */
    constructor (wsMaxAttempts: int, wsDelay: int, wsConnectTimeout: int,
                 pollMaxAttempts: int, pollDelay: int, pollRequestTimeout: int)
      ensures Valid() && fresh(base)
      ensures maxReconnectionAttempts == Max(wsMaxAttempts, pollMaxAttempts)
      ensures reconnectionDelay == Max(wsDelay, pollDelay)
      ensures savedWsTransportMaxRetries == wsMaxAttempts && savedWsReconnectionDelay == wsDelay
      ensures savedWsTransportConnectTimeout == wsConnectTimeout
      ensures savedPollingTransportMaxRetries == pollMaxAttempts && savedPollingReconnectionDelay == pollDelay
      ensures savedPollingTransportRequestTimeout == pollRequestTimeout
      ensures transportDetectionConnectTimeout == 5000 && transportDetectionReconnectionAttempts == 0
      ensures !tryConnectionInParallel
      ensures Sel() == Selector(Closed, [], false, None, None, [], 0, [])
    {
      base := new ClientConnector();
      detectingPhase := false;
      websocketAvailable := None;
      pollingAvailable := None;
      queue := [];
      transportDetectionConnectTimeout := 5000;
      transportDetectionReconnectionAttempts := 0;
      tryConnectionInParallel := false;
      savedPollingTransportMaxRetries := pollMaxAttempts;
      savedPollingTransportRequestTimeout := pollRequestTimeout;
      savedWsTransportConnectTimeout := wsConnectTimeout;
      savedWsTransportMaxRetries := wsMaxAttempts;
      savedPollingReconnectionDelay := pollDelay;
      savedWsReconnectionDelay := wsDelay;
      maxReconnectionAttempts := Max(wsMaxAttempts, pollMaxAttempts);
      reconnectionDelay := Max(wsDelay, pollDelay);
      connectionAttempts := 0;
      calls := [];
    }

    method SetTransportDetectionConnectTimeout(timeout: int)
      modifies this`transportDetectionConnectTimeout
      ensures transportDetectionConnectTimeout == timeout
    {
      transportDetectionConnectTimeout := timeout;
    }

    method SetTransportDetectionReconnectionAttempts(attempts: int)
      modifies this`transportDetectionReconnectionAttempts
      ensures transportDetectionReconnectionAttempts == attempts
    {
      transportDetectionReconnectionAttempts := attempts;
    }

    method SetTryConnectionInParallel(parallel: bool)
      modifies this`tryConnectionInParallel
      ensures tryConnectionInParallel == parallel
    {
      tryConnectionInParallel := parallel;
    }

    /** `wsConnect` and `pollConnect` are what the transports' connect()
        does when called (return, or throw because already started). */
    method Connect(wsConnect: Outcome, pollConnect: Outcome) returns (r: Outcome)
      requires Valid()
      modifies this`detectingPhase, this`websocketAvailable, this`pollingAvailable, this`queue,
               this`connectionAttempts, this`calls, base
      ensures Valid()
      ensures (r, Sel()) == ConnectStep(old(Sel()), Cfg(), wsConnect, pollConnect)
    {
      if base.IsStarted() {
        return Threw(IllegalState);
      }
      base.ChangeState(Connecting);
      queue := [];
      connectionAttempts := 0;
      ConnectTryImpl(wsConnect, pollConnect);
      return Done;
    }

    method ConnectTryImpl(wsConnect: Outcome, pollConnect: Outcome)
      requires connectionAttempts >= 0
      modifies this`detectingPhase, this`websocketAvailable, this`pollingAvailable, this`queue,
               this`connectionAttempts, this`calls, base
      ensures Sel() == ConnectTry(old(Sel()), Cfg(), wsConnect, pollConnect)
    {
      detectingPhase := true;
      pollingAvailable := None;
      websocketAvailable := None;
      calls := calls + DetectionSettings(Cfg());
      calls := calls + [ConnectTransport(Websocket)];
      if wsConnect.Threw? {
        websocketAvailable := Some(false);
      }
      if tryConnectionInParallel {
        ConnectPolling(pollConnect);
      }
      CheckDetectionComplete(pollConnect);
    }

    method ConnectPolling(pollConnect: Outcome)
      modifies this`pollingAvailable, this`calls
      ensures Sel() == StartPolling(old(Sel()), pollConnect)
    {
      calls := calls + [ConnectTransport(Polling)];
      if pollConnect.Threw? {
        pollingAvailable := Some(false);
      }
    }

    method CheckDetectionComplete(pollConnect: Outcome)
      requires connectionAttempts >= 0
      modifies this`detectingPhase, this`pollingAvailable, this`queue, this`connectionAttempts, this`calls, base
      ensures Sel() == Check(old(Sel()), Cfg(), pollConnect)
    {
      if websocketAvailable.Some? {
        if websocketAvailable.value {
          calls := calls + [CloseTransport(Polling)];
          pollingAvailable := Some(false);
          UseTransport(Websocket);
        } else if pollingAvailable.Some? {
          if pollingAvailable.value {
            UseTransport(Polling);
          } else {
            Reconnect();
          }
        } else if !tryConnectionInParallel {
          ConnectPolling(pollConnect);
        }
      }
    }

    /** Ends detection in favour of `t`. */
    method UseTransport(t: Transport)
      modifies this`detectingPhase, this`queue, this`calls, base
      ensures Sel() == Adopt(old(Sel()), Cfg(), t)
    {
      detectingPhase := false;
      Flush(t);
      calls := calls + Restore(Cfg(), t);
      ghost var s1 := Sel();
      assert s1 == old(Sel()).(detecting := false, queue := [],
                              calls := old(calls) + Posts(t, old(queue)) + Restore(Cfg(), t));
      if base.state == Connecting {
        base.ChangeState(Ready);
      } else if base.state == Closing {
        calls := calls + [CloseTransport(t)];
        assert Sel() == s1.(calls := s1.calls + [CloseTransport(t)]);
      }
    }

    /** Posts the buffered messages to `t`, oldest first, and empties the
        buffer. */
    method Flush(t: Transport)
      modifies this`queue, this`calls
      ensures queue == [] && calls == old(calls) + Posts(t, old(queue))
    {
      var q := queue;
      var posted := calls;
      for k := 0 to |q|
        invariant posted == old(calls) + Posts(t, q[..k])
      {
        assert q[..k + 1] == q[..k] + [q[k]];
        PostsAppend(t, q[..k], q[k]);
        posted := posted + [PostTo(t, q[k])];
      }
      assert q[..|q|] == q;
      calls := posted;
      queue := [];
    }

    /** Neither transport works: count the attempt, then give up or retry
        later through the polling transport's scheduler. */
    method Reconnect()
      requires connectionAttempts >= 0
      modifies this`connectionAttempts, this`calls, base
      ensures Sel() == Reattempt(old(Sel()), Cfg())
    {
      if base.state != Closed {
        connectionAttempts := connectionAttempts + 1;
        if connectionAttempts > maxReconnectionAttempts {
          base.ChangeState(Closed);
        } else if connectionAttempts == 0 {
          assert false;
        } else {
          calls := calls + [ScheduleRetry(reconnectionDelay)];
        }
      }
    }

    /** The retry scheduled by Reconnect fires. */
    method OnRetryTimer(wsConnect: Outcome, pollConnect: Outcome)
      requires Valid()
      modifies this`detectingPhase, this`websocketAvailable, this`pollingAvailable, this`queue,
               this`connectionAttempts, this`calls, base
      ensures Valid()
      ensures Sel() == ConnectTry(old(Sel()), Cfg(), wsConnect, pollConnect)
    {
      ConnectTryImpl(wsConnect, pollConnect);
    }

    method OnWebsocketStateChanged(oldState: State, newState: State, pollConnect: Outcome)
      requires Valid()
      modifies this`detectingPhase, this`websocketAvailable, this`pollingAvailable, this`queue,
               this`connectionAttempts, this`calls, base
      ensures Valid()
      ensures Sel() == WebsocketChanged(old(Sel()), Cfg(), oldState, newState, pollConnect)
    {
      if detectingPhase {
        if oldState == Connecting {
          websocketAvailable := Some(newState == Ready);
          CheckDetectionComplete(pollConnect);
        } else if oldState != Closed {
          websocketAvailable := Some(false);
          CheckDetectionComplete(pollConnect);
        }
      } else if websocketAvailable == Some(true) {
        base.ChangeState(newState);
      }
    }

    method OnPollingStateChanged(oldState: State, newState: State, pollConnect: Outcome)
      requires Valid()
      modifies this`detectingPhase, this`websocketAvailable, this`pollingAvailable, this`queue,
               this`connectionAttempts, this`calls, base
      ensures Valid()
      ensures Sel() == PollingChanged(old(Sel()), Cfg(), oldState, newState, pollConnect)
    {
      if detectingPhase {
        if oldState == Connecting {
          pollingAvailable := Some(newState == Ready);
        } else if newState == Closed {
          pollingAvailable := Some(false);
        }
        CheckDetectionComplete(pollConnect);
      } else if pollingAvailable == Some(true) {
        base.ChangeState(newState);
      }
    }

    method OnMessage(from: Transport, message: string)
      modifies base
      ensures Sel() == Delivered(old(Sel()), from, message)
    {
      var available := if from == Websocket then websocketAvailable else pollingAvailable;
      if available == Some(true) {
        base.FireMessage(message);
      }
    }

    /** `answer` is what the transport in use answers to close(). */
    method Close(answer: Outcome) returns (r: Outcome)
      requires Valid()
      modifies this`calls, base
      ensures Valid()
      ensures (r, Sel()) == CloseStep(old(Sel()), answer)
    {
      if detectingPhase {
        if !base.IsStarted() {
          return Threw(IllegalState);
        }
        base.ChangeState(Closing);
        return Done;
      }
      if websocketAvailable.None? {
        return Threw(NullPointer);
      }
      if websocketAvailable.value {
        calls := calls + [CloseTransport(Websocket)];
        return answer;
      }
      if pollingAvailable.None? {
        return Threw(NullPointer);
      }
      if pollingAvailable.value {
        calls := calls + [CloseTransport(Polling)];
        return answer;
      }
      return Done;
    }

    /** `answer` is what the transport in use answers to post(). */
    method Post(message: string, answer: Outcome) returns (r: Outcome)
      requires Valid()
      modifies this`queue, this`calls
      ensures Valid()
      ensures (r, Sel()) == PostStep(old(Sel()), message, answer)
    {
      if detectingPhase {
        if !base.IsStarted() {
          return Threw(IllegalState);
        }
        queue := queue + [message];
        return Done;
      }
      if websocketAvailable.None? {
        return Threw(NullPointer);
      }
      if websocketAvailable.value {
        calls := calls + [PostTo(Websocket, message)];
        return answer;
      }
      if pollingAvailable.None? {
        return Threw(NullPointer);
      }
      if pollingAvailable.value {
        calls := calls + [PostTo(Polling, message)];
        return answer;
      }
      return Done;
    }
  }
}
