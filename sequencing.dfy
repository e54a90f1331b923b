/** The reliable-delivery bookkeeping both sides share: numbering of the
    outgoing queue, trimming on a cumulative ack, duplicate suppression on
    receipt, and the reconnection policy of the client transports. */
module Sequencing {
  import opened Common

  // ---------------------------------------------------------------------
  // Outgoing queue

  /** The sequence number each queued message carries when the head of the
      queue is number `first` (the side's sentCounter). */
  function Numbered(first: int, queue: seq<string>): (m: map<int, string>)
    ensures forall k :: k in m <==> first <= k < first + |queue|
    ensures forall k :: k in m ==> m[k] == queue[k - first]
    decreases |queue|
  {
    if queue == [] then map[]
    else Numbered(first + 1, queue[1..])[first := queue[0]]
  }

  /** The queue once its first `n` entries are removed, one at a time
      from the head, as an acknowledgement removes them. */
  function Trim(queue: seq<string>, n: nat): (q: seq<string>)
    requires n <= |queue|
    ensures |q| == |queue| - n
    decreases n
  {
    if n == 0 then queue else Trim(queue[1..], n - 1)
  }

  /** Trimming keeps exactly the suffix after the first `n` entries. */
  lemma {:induction false} TrimIsSuffix(queue: seq<string>, n: nat)
    requires n <= |queue|
    ensures Trim(queue, n) == queue[n..]
    decreases n
  {
    if n > 0 {
      TrimIsSuffix(queue[1..], n - 1);
      assert queue[1..][n - 1..] == queue[n..];
    }
  }

  /** Removing one more entry from a trimmed queue trims it by one more. */
  lemma {:induction false} TrimStep(queue: seq<string>, n: nat)
    requires n < |queue|
    ensures Trim(queue, n)[1..] == Trim(queue, n + 1)
    decreases n
  {
    if n > 0 {
      TrimStep(queue[1..], n - 1);
    }
  }

  /** Popping `ack - sent` entries from the head and setting the counter to
      `ack` keeps every remaining message under its number. */
  lemma TrimKeepsNumbers(sent: int, queue: seq<string>, ack: int)
    requires sent <= ack <= sent + |queue|
    ensures Numbered(ack, Trim(queue, ack - sent)) ==
            map k | k in Numbered(sent, queue) && k >= ack :: Numbered(sent, queue)[k]
  {
    TrimIsSuffix(queue, ack - sent);
    var q := Trim(queue, ack - sent);
    forall i | 0 <= i < |q|
      ensures q[i] == queue[i + (ack - sent)]
    {
    }
  }

  /** Appending a message numbers it `sent + |queue|`, the number the send
      frame announces, and leaves the others alone. */
  lemma AppendNumbers(sent: int, queue: seq<string>, m: string)
    ensures Numbered(sent, queue + [m]) == Numbered(sent, queue)[sent + |queue| := m]
  {
  }

  // ---------------------------------------------------------------------
  // Incoming messages

  /** The messages of a frame numbered from `first` that a receiver whose
      counter is `received` accepts: the head is dropped while it is
      numbered below `received`. */
  function Accepted(received: int, first: int, msgs: seq<string>): (r: seq<string>)
    ensures |r| <= |msgs|
    decreases |msgs|
  {
    if msgs == [] || first >= received then msgs
    else Accepted(received, first + 1, msgs[1..])
  }

  /** What is accepted is a suffix of the frame: every dropped message is
      numbered below `received` and every accepted one at or above it. */
  lemma {:induction false} AcceptedIsSuffix(received: int, first: int, msgs: seq<string>)
    ensures var r := Accepted(received, first, msgs);
      && r == msgs[|msgs| - |r|..]
      && (|r| < |msgs| ==> first + (|msgs| - |r|) - 1 < received)
      && (|r| > 0 ==> first + (|msgs| - |r|) >= received)
    decreases |msgs|
  {
    if msgs != [] && first < received {
      AcceptedIsSuffix(received, first + 1, msgs[1..]);
      var r := Accepted(received, first + 1, msgs[1..]);
      assert msgs[1..][|msgs[1..]| - |r|..] == msgs[|msgs| - |r|..];
    }
  }

  /** How many messages a frame delivers: none when its last message lies
      below `received`, otherwise those from `received` on (all of them
      when the frame starts at or above it). */
  lemma {:induction false} AcceptedCount(received: int, first: int, msgs: seq<string>)
    ensures |Accepted(received, first, msgs)| ==
      if first >= received then |msgs|
      else if first + |msgs| <= received then 0
      else first + |msgs| - received
    decreases |msgs|
  {
    if msgs != [] && first < received {
      AcceptedCount(received, first + 1, msgs[1..]);
    }
  }

  /** After accepting a frame that does not skip ahead (`first <= received`),
      the counter stands at the number after the frame's last message (or
      where it was), and delivering the same frame again accepts nothing. */
  lemma RedeliveryIsIgnored(received: int, first: int, msgs: seq<string>)
    requires first <= received
    ensures var r' := received + |Accepted(received, first, msgs)|;
      r' == (if received >= first + |msgs| then received else first + |msgs|) &&
      Accepted(r', first, msgs) == []
  {
    AcceptedCount(received, first, msgs);
    var r' := received + |Accepted(received, first, msgs)|;
    AcceptedCount(r', first, msgs);
  }

  /** The server's receive loop, one line at a time: a message numbered below
      the counter is consumed and dropped; any other is accepted and the
      counter moves on. */
  function ConsumingLoop(received: int, readNumber: int, msgs: seq<string>): (r: seq<string>)
    ensures |r| <= |msgs|
    decreases |msgs|
  {
    if msgs == [] then []
    else if readNumber < received then ConsumingLoop(received, readNumber + 1, msgs[1..])
    else [msgs[0]] + ConsumingLoop(received + 1, readNumber + 1, msgs[1..])
  }

  /** The consuming loop accepts exactly the messages numbered at or above
      the counter. */
  lemma {:induction false} ConsumingLoopAccepts(received: int, first: int, msgs: seq<string>)
    ensures ConsumingLoop(received, first, msgs) == Accepted(received, first, msgs)
    decreases |msgs|
  {
    if msgs != [] {
      if first < received {
        ConsumingLoopAccepts(received, first + 1, msgs[1..]);
      } else {
        ConsumingLoopAccepts(received + 1, first + 1, msgs[1..]);
        assert msgs == [msgs[0]] + msgs[1..];
      }
    }
  }

  /** The clients' receive loop as written: a number below the counter only
      advances the number and does not consume a line. */
  function SkippingLoop(received: int, readNumber: int, msgs: seq<string>): (r: seq<string>)
    decreases |msgs|, if readNumber < received then received - readNumber else 0
  {
    if msgs == [] then []
    else if readNumber < received then SkippingLoop(received, readNumber + 1, msgs)
    else [msgs[0]] + SkippingLoop(received + 1, readNumber + 1, msgs[1..])
  }

  /** So the clients accept every message line of a frame, duplicates
      included. */
  lemma {:induction false} SkippingLoopAcceptsAll(received: int, readNumber: int, msgs: seq<string>)
    ensures SkippingLoop(received, readNumber, msgs) == msgs
    decreases |msgs|, if readNumber < received then received - readNumber else 0
  {
    if msgs != [] {
      if readNumber < received {
        SkippingLoopAcceptsAll(received, readNumber + 1, msgs);
      } else {
        SkippingLoopAcceptsAll(received + 1, readNumber + 1, msgs[1..]);
        assert msgs == [msgs[0]] + msgs[1..];
      }
    }
  }

  /** A frame that repeats message 0 to a client that already has it: the
      client accepts it a second time, where the consuming loop drops it. */
  lemma SkippingLoopRedelivers()
    ensures SkippingLoop(1, 0, ["m0"]) == ["m0"]
    ensures ConsumingLoop(1, 0, ["m0"]) == []
  {
    SkippingLoopAcceptsAll(1, 0, ["m0"]);
    ConsumingLoopAccepts(1, 0, ["m0"]);
  }

  /** The receive loops walk a frame from the head: the part not yet read
      starts with the line at the cursor. */
  lemma TakeHead(all: seq<string>, i: nat, rest: seq<string>)
    requires i < |all| && all[..i] + rest == all
    ensures rest == [all[i]] + rest[1..]
    ensures all[..i + 1] + rest[1..] == all
  {
    assert rest[0] == (all[..i] + rest)[i];
    assert all[..i + 1] == all[..i] + [all[i]];
    assert (all[..i] + [all[i]]) + rest[1..] == all[..i] + ([all[i]] + rest[1..]);
  }

  /** One turn of the consuming loop. */
  lemma ConsumingStep(received: int, readNumber: int, rest: seq<string>)
    requires rest != []
    ensures readNumber < received ==>
      ConsumingLoop(received, readNumber, rest) == ConsumingLoop(received, readNumber + 1, rest[1..])
    ensures readNumber >= received ==>
      ConsumingLoop(received, readNumber, rest) == [rest[0]] + ConsumingLoop(received + 1, readNumber + 1, rest[1..])
  {
  }

  /** The clients' receive loop with a message numbered below `received`
      consumed and dropped, as the server's loop does (the loop as written
      is SkippingLoop). Returns the messages kept and the new received
      counter. */
  method ClientReceive(received: int, first: int, lines: seq<string>) returns (msgs: seq<string>, counter: int)
    ensures msgs == Accepted(received, first, lines)
    ensures counter == received + |msgs|
  {
    var readMsgNumber := first;
    msgs := [];
    counter := received;
    var rest := lines;
    while rest != []
      invariant ConsumingLoop(received, first, lines) == msgs + ConsumingLoop(counter, readMsgNumber, rest)
      invariant counter == received + |msgs|
    {
      var line := rest[0];
      ConsumingStep(counter, readMsgNumber, rest);
      if readMsgNumber >= counter {
        ShiftOne(msgs, line, ConsumingLoop(counter + 1, readMsgNumber + 1, rest[1..]));
        msgs := msgs + [line];
        counter := counter + 1;
      }
      readMsgNumber := readMsgNumber + 1;
      rest := rest[1..];
    }
    ConsumingLoopAccepts(received, first, lines);
  }

  // ---------------------------------------------------------------------
  // Reconnection policy of the client transports

  datatype Retry = GiveUp | RetryNow | RetryLater

  /** What a client transport does after losing its connection, given the
      attempt count after the loss was recorded. */
  function RetryDecision(attempts: int, maxAttempts: int, hasConnId: bool,
                         now: int, lostAt: int, connectionTimeout: int): (r: Retry)
    ensures attempts > maxAttempts ==> r == GiveUp
    ensures hasConnId && now > lostAt + connectionTimeout ==> r == GiveUp
    ensures r == RetryNow ==> attempts == 0
    ensures r == RetryLater ==> attempts != 0 && attempts <= maxAttempts
    ensures attempts == 0 && 0 <= maxAttempts && !(hasConnId && now > lostAt + connectionTimeout) ==> r == RetryNow
  {
    if attempts > maxAttempts || (hasConnId && now > lostAt + connectionTimeout) then GiveUp
    else if attempts == 0 then RetryNow
    else RetryLater
  }

  /** Once the policy gives up it keeps giving up for more attempts and
      later times. */
  lemma GiveUpIsFinal(attempts: int, attempts': int, maxAttempts: int, hasConnId: bool,
                      now: int, now': int, lostAt: int, connectionTimeout: int)
    requires attempts <= attempts' && now <= now'
    requires RetryDecision(attempts, maxAttempts, hasConnId, now, lostAt, connectionTimeout) == GiveUp
    ensures RetryDecision(attempts', maxAttempts, hasConnId, now', lostAt, connectionTimeout) == GiveUp
  {
  }
}
