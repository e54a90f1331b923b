# gf.channel — a verified model of the reliable message channel

gf.channel carries an ordered, reliable stream of messages between a client
and a server. The stream can run over a WebSocket or over HTTP long polling.
Each side keeps three things:

- a queue of messages it has sent but the peer has not yet acknowledged;
- `sentCounter`, the number of the queue's first message;
- `receivedCounter`, the number of messages accepted from the peer.

Frames are newline-separated text:

- the command (`N`, `S`, `R`, `H`, `HA`, `C`, `CA`, `CR`);
- the connection id;
- the sender's cumulative acknowledgement;
- the number of the first message carried;
- one message per line.

A message numbered below `receivedCounter` is a duplicate and is dropped. An
acknowledgement removes that many messages from the head of the queue. A
reconnecting client resends its whole queue.

The project models these parts:

- **Line splitter** (`LineIterators`, on top of `Wire`): the `LineIterator`
  class. It cuts frame text into lines, treating CRLF like LF. A final newline
  adds no empty line. Asking for a line after the last one is an error.
  `Wire` also holds the other two ways the servers cut text into lines, the
  frame builder, and decimal number parsing.
- **Client state machine** (`ClientConnectors`): the four states (`closed`,
  `connecting`, `ready`, `closing`), `isStarted`, and `changeState` with the
  events it sends to listeners.
- **Socket client** (`SocketClients`) and **long-poll client**
  (`PollingClients`): classes with the Java fields. They model:
  - the handshake;
  - posting;
  - acknowledgement and queue trimming;
  - the receive loop, in its corrected form that suppresses duplicates
    (see Findings);
  - resume;
  - the reconnection policy (`Sequencing.RetryDecision`);
  - the choice of the next HTTP request.
- **Fallback selector** (`FallbackClients`): the class that probes the
  WebSocket and the polling transport, buffers posts in order while it
  probes, adopts the winner, and retries. Each handler is proved equal to a
  step function over a `Selector` value. Lemmas about those step functions
  carry the properties.
- **Socket server** (`SocketServers`) and **HTTP long-poll servlet**
  (`PollingServlets`): a class holding the map of connection records and a
  log of actions. Each entry point is proved equal to a step function over a
  `Registry` value, and lemmas state what each frame or request does to the
  registry. The entry points are:
  - `service`;
  - `post`;
  - `terminate`;
  - `closeConnection`;
  - the sweep timer;
  - for the servlet, the long poll's timeout and completion.
- **Shared protocol arithmetic** (`Sequencing`): numbering of the queue,
  trimming, the accepted-message rule, and the retry decision.

Sends, socket closes, HTTP responses, scheduled timers and listener events are
appended to an output log (`io`, `calls`, `log`, `events`). The log is what the
contracts speak about. Time (`now`), the UUIDs a new connection id is drawn
from, and the answers of transports are parameters.

## Model

| member | source | states |
|---|---|---|
| LineIterators.LineIterator.constructor | src/main/java/gf/channel/shared/LineIterator.java:16-20 | A new iterator over null or empty text has no lines. Over other text, its remaining lines are exactly `Lines(text)`. |
| LineIterators.LineIterator.NextLine | src/main/java/gf/channel/shared/LineIterator.java:22-51 | Advancing past null text or past the last line throws (null text vs `NoSuchElementException`) and changes nothing. Otherwise the pending line is taken off the remaining lines. |
| LineIterators.LineIterator.HasNext | src/main/java/gf/channel/shared/LineIterator.java:54-56 | True exactly when some line remains. |
| LineIterators.LineIterator.Next | src/main/java/gf/channel/shared/LineIterator.java:59-63 | Returns the first remaining line and removes it. With no line left, it throws and changes nothing. |
| LineIterators.ReadAll | src/main/java/gf/channel/shared/LineIterator.java:54-63 | Draining an iterator with hasNext/next yields exactly its remaining lines, in order. |
| LineIterators.ReadLines | src/main/java/gf/channel/shared/LineIterator.java:16-63 | The lines read from fresh text are `LinesOf(text)`: none for null or empty text. |
| LineIterators.LinesAtSuffix | src/main/java/gf/channel/shared/LineIterator.java:31-50 | The lines the iterator still produces from index `i` are the lines of the text's suffix from `i`. |
| LineIterators.LinesAtStart | src/main/java/gf/channel/shared/LineIterator.java:16-20 | The iterator's lines from index 0 are the lines of the whole text. |
| LineIterators.LinesAtCut | src/main/java/gf/channel/shared/LineIterator.java:34-46 | From index `i`, the next line runs up to the next `'\n'`, without a `'\r'` just before it. The rest continue after the `'\n'`. |
| LineIterators.LinesAtLast | src/main/java/gf/channel/shared/LineIterator.java:47-50 | With no further `'\n'`, the rest of the text is the last line. |
| LineIterators.LinesFromCut | src/main/java/gf/channel/shared/LineIterator.java:34-46 | The same cut, stated on the suffix `t[i..]`. |
| LineIterators.LinesFromLast | src/main/java/gf/channel/shared/LineIterator.java:47-50 | The same last-line rule, stated on the suffix `t[i..]`. |
| Wire.Lines | src/main/java/gf/channel/shared/LineIterator.java:22-51 | Text has no lines exactly when it is empty. |
| Wire.LinesCons | src/main/java/gf/channel/shared/LineIterator.java:34-46 | A line ended by `'\n'` is the first line, without a trailing `'\r'`, followed by the lines of what follows. |
| Wire.LinesSingle | src/main/java/gf/channel/shared/LineIterator.java:47-50 | Non-empty text without `'\n'` is exactly one line, the whole text. |
| Wire.StripCR | src/main/java/gf/channel/shared/LineIterator.java:38-44 | Only a single trailing `'\r'` is removed. |
| Wire.LineCount | src/main/java/gf/channel/shared/LineIterator.java:22-51 | Non-empty text has as many lines as newlines when it ends with `'\n'`, and one more otherwise. So `"\n\n"` gives two empty lines. |
| Wire.CountConcat | src/main/java/gf/channel/shared/LineIterator.java:22-51 | Newline counts add up over concatenation. |
| Wire.CRLFSameLines | src/main/java/gf/channel/shared/LineIterator.java:34-46 | Text without `'\r'` and the same text with every LF turned into CRLF give identical lines. |
| Wire.ToCRLFAppend | src/main/java/gf/channel/shared/LineIterator.java:34-46 | Turning LF into CRLF distributes over concatenation. |
| Wire.ToCRLFNoNewline | src/main/java/gf/channel/shared/LineIterator.java:34-46 | Text without `'\n'` is unchanged by the LF-to-CRLF rewrite. |
| Wire.CRLFStep | src/main/java/gf/channel/shared/LineIterator.java:34-46 | The LF-to-CRLF rewrite, one line at a time. |
| Wire.Join | src/main/java/gf/channel/server/AbstractSocketServerConnector.java:429-438 | A frame built from lines ends in `'\n'` and is at least one character per line long. |
| Wire.JoinCons | src/main/java/gf/channel/server/AbstractSocketServerConnector.java:429-438 | A frame is its first line, `'\n'`, then the frame of the rest. |
| Wire.StripCRWireSafe | src/main/java/gf/channel/shared/MessageSerializer.java:7-9 | A line with no `'\r'` or `'\n'` keeps its last character. |
| Wire.LinesJoin | src/main/java/gf/channel/shared/LineIterator.java:22-51 | Reading a frame built from CR/LF-free lines, followed by any LF-free tail, gives back those lines followed by the tail's lines. |
| Wire.JoinRoundTrip | src/main/java/gf/channel/shared/LineIterator.java:22-51 | Round trip: a frame built from CR/LF-free lines reads back as exactly those lines. |
| Wire.TrailingCRIsLost | src/main/java/gf/channel/shared/LineIterator.java:38-44 | A line ending in `'\r'` does not survive the round trip: `"a\r"` reads back as `"a"`. |
| Wire.Pieces | src/main/java/gf/channel/server/AbstractSocketServerConnector.java:193 | Splitting at `\r?\n` yields at least one piece. |
| Wire.DropTrailingEmpty | src/main/java/gf/channel/server/AbstractSocketServerConnector.java:193 | `String.split` drops trailing empty strings. The result is a prefix of the pieces, does not end in `""`, and everything dropped was empty. |
| Wire.PiecesCons | src/main/java/gf/channel/server/AbstractSocketServerConnector.java:193 | The first piece runs to the first `'\n'`, without a trailing `'\r'`. |
| Wire.PiecesJoin | src/main/java/gf/channel/server/AbstractSocketServerConnector.java:193 | Splitting a frame of CR/LF-free lines gives the lines plus one final empty piece. |
| Wire.PiecesEmpty | src/main/java/gf/channel/server/AbstractSocketServerConnector.java:193 | Splitting the empty frame gives one empty piece. |
| Wire.PiecesJoinStep | src/main/java/gf/channel/server/AbstractSocketServerConnector.java:193 | Splitting a frame peels off its first line. |
| Wire.SplitFrameJoin | src/main/java/gf/channel/server/AbstractSocketServerConnector.java:193 | The socket server reads a frame of CR/LF-free lines as those lines with trailing empty lines removed. |
| Wire.JoinHasNewline | src/main/java/gf/channel/server/AbstractSocketServerConnector.java:193 | A frame of at least one line contains `'\n'`. |
| Wire.DropTrailingEmptyAppend | src/main/java/gf/channel/server/AbstractSocketServerConnector.java:193 | A trailing empty piece is always dropped. |
| Wire.SplitFrameDropsEmptyLast | src/main/java/gf/channel/server/AbstractSocketServerConnector.java:193 | A frame whose last line is empty (an empty last message) reaches the socket server one or more lines short. |
| Wire.IndexOf | src/main/java/gf/channel/shared/LineIterator.java:34 | `indexOf`: the first position of the character from `from` on, or -1 when there is none. |
| Wire.IndexOfBreak | src/main/java/gf/channel/server/servlet/AsyncPollingConnectionServlet.java:308 | The first `'\r'` or `'\n'` from `from` on, or -1. |
| Wire.ReaderLinesCons | src/main/java/gf/channel/server/servlet/AsyncPollingConnectionServlet.java:308 | `readLine` returns a CR/LF-free line ended by `'\n'`, then continues after it. |
| Wire.ReaderLinesJoin | src/main/java/gf/channel/server/servlet/AsyncPollingConnectionServlet.java:302-310 | Round trip: the servlet's `readLine` loop reads a frame of CR/LF-free lines back as exactly those lines. |
| Wire.ReaderSplitsAtCR | src/main/java/gf/channel/server/servlet/AsyncPollingConnectionServlet.java:308 | Unlike the iterator, `readLine` also ends a line at a lone `'\r'`. |
| Wire.IsDigit | src/main/java/gf/channel/client/SocketClientConnector.java:274 | Decimal digits are the ASCII `'0'..'9'`. |
| Wire.AllDigits | src/main/java/gf/channel/client/SocketClientConnector.java:274 | A digit string holds only digits. |
| Wire.DigitChar | src/main/java/gf/channel/client/SocketClientConnector.java:274 | The digit character of `d` has value `d`. |
| Wire.NatToString | src/main/java/gf/channel/client/SocketClientConnector.java:374-396 | A decimal rendering is all digits, with no leading zero. |
| Wire.IntToString | src/main/java/gf/channel/client/SocketClientConnector.java:374-396 | A rendered number is a non-empty line with no CR or LF. |
| Wire.DigitsValue | src/main/java/gf/channel/client/SocketClientConnector.java:274 | A run of characters has a value exactly when every character is a digit. |
| Wire.ParseInteger | src/main/java/gf/channel/client/SocketClientConnector.java:274 | A successful parse is an optional sign followed by at least one digit and nothing else, and lies within the type's range. |
| Wire.ParseLong | src/main/java/gf/channel/client/SocketClientConnector.java:274 | `Long.parseLong` succeeds only within the 64-bit range. |
| Wire.ParseInt | src/main/java/gf/channel/client/SocketClientConnector.java:202-203 | `Integer.parseInt` succeeds only within the 32-bit range. |
| Wire.DigitsRoundTrip | src/main/java/gf/channel/client/SocketClientConnector.java:274 | Digits parse back to the number they render. |
| Wire.ParseIntegerRoundTrip | src/main/java/gf/channel/client/SocketClientConnector.java:274 | Round trip: a number in range, rendered in decimal, parses back to itself. |
| ClientConnectors.Transition | src/main/java/gf/channel/client/ClientConnector.java:148-154 | A state change fires no event when the state is unchanged. Otherwise it fires exactly one event carrying (old, new). |
| ClientConnectors.MessageEvents | src/main/java/gf/channel/client/ClientConnector.java:71-91 | One message event per message, in order. |
| ClientConnectors.MessageEventsAppend | src/main/java/gf/channel/client/ClientConnector.java:71-91 | Events for messages fired one at a time are the events for all of them. |
| ClientConnectors.ClientConnector.constructor | src/main/java/gf/channel/client/ClientConnector.java:110 | A new connector is closed and has fired nothing. |
| ClientConnectors.ClientConnector.IsStarted | src/main/java/gf/channel/client/ClientConnector.java:113-115 | Started exactly in `connecting` and `ready`. |
| ClientConnectors.ClientConnector.ChangeState | src/main/java/gf/channel/client/ClientConnector.java:148-154 | The state becomes the new one, and the listeners receive exactly `Transition(old, new)`. |
| ClientConnectors.ClientConnector.FireMessages | src/main/java/gf/channel/client/SocketClientConnector.java:316-317 | Each message reaches the listeners once, in order, and the state is unchanged. |
| ClientConnectors.ClientConnector.FireMessage | src/main/java/gf/channel/client/ClientConnector.java:71-91 | One message event is appended, and the state is unchanged. |
| Sequencing.Numbered | src/main/java/gf/channel/server/AbstractSocketServerConnector.java:429-438 | The queue as a map from message numbers: `queue[i]` carries number `sentCounter + i`, and no other number is present. |
| Sequencing.Trim | src/main/java/gf/channel/client/SocketClientConnector.java:286-289 | Removing `n` head entries leaves `n` fewer. |
| Sequencing.TrimIsSuffix | src/main/java/gf/channel/client/SocketClientConnector.java:286-289 | Removing `n` head entries one at a time leaves the suffix from `n`. |
| Sequencing.TrimStep | src/main/java/gf/channel/client/SocketClientConnector.java:286-289 | One more `remove(0)` is one more trimmed entry. |
| Sequencing.TrimKeepsNumbers | src/main/java/gf/channel/client/SocketClientConnector.java:278-289 | An acknowledgement within the queue keeps every unacknowledged message under its number. The new first number is the acknowledgement. |
| Sequencing.AppendNumbers | src/main/java/gf/channel/client/SocketClientConnector.java:374-396 | Posting gives the new message number `sentCounter + queue.size() - 1`, counted after the append, and renumbers nothing. |
| Sequencing.Accepted | src/main/java/gf/channel/server/AbstractSocketServerConnector.java:288-301 | The accepted messages are at most the received ones. |
| Sequencing.AcceptedIsSuffix | src/main/java/gf/channel/server/AbstractSocketServerConnector.java:288-301 | The accepted messages are a suffix of the received lines. Everything dropped was numbered below `receivedCounter`, and the first accepted message is not. |
| Sequencing.AcceptedCount | src/main/java/gf/channel/server/AbstractSocketServerConnector.java:288-301 | Exactly the messages numbered from `receivedCounter` on are accepted. |
| Sequencing.RedeliveryIsIgnored | src/main/java/gf/channel/server/AbstractSocketServerConnector.java:288-301 | After accepting a batch, `receivedCounter` is one past its last message, and delivering the same batch again accepts nothing. |
| Sequencing.ConsumingLoop | src/main/java/gf/channel/server/AbstractSocketServerConnector.java:288-301 | The server's read loop (skip a line when its number is below the counter) yields at most the lines it read. |
| Sequencing.ConsumingLoopAccepts | src/main/java/gf/channel/server/AbstractSocketServerConnector.java:288-301 | The line-consuming loop accepts exactly `Accepted`. |
| Sequencing.ConsumingStep | src/main/java/gf/channel/server/AbstractSocketServerConnector.java:291-297 | One turn of the consuming loop either drops a duplicate line or accepts it and advances the counter. |
| Sequencing.SkippingLoopAcceptsAll | src/main/java/gf/channel/client/SocketClientConnector.java:294-311 | As written, the client's loop delivers every line, duplicates included. |
| Sequencing.SkippingLoopRedelivers | src/main/java/gf/channel/client/SocketClientConnector.java:299-304 | Counterexample: with one message already received, a resent message 0 is delivered again as written, and dropped by the intended loop. |
| Sequencing.ClientReceive | src/main/java/gf/channel/client/SocketClientConnector.java:294-311 | The client's corrected read loop returns exactly the messages numbered from `receivedCounter` on. The new counter is the old one plus their count. |
| Sequencing.RetryDecision | src/main/java/gf/channel/client/SocketClientConnector.java:160-180 | Give up past the attempt limit, or once `connId` is known and `connectionTimeout` has passed since the loss. The first attempt retries at once, later ones after a delay. |
| Sequencing.GiveUpIsFinal | src/main/java/gf/channel/client/SocketClientConnector.java:160-180 | Once the policy gives up, more attempts or later times never bring a retry back. |
| Sequencing.TakeHead | src/main/java/gf/channel/client/SocketClientConnector.java:294-311 | Taking the next line off the unread rest. |
| ConnectionIds.FreshIndex | src/main/java/gf/channel/server/AbstractSocketServerConnector.java:172-179 | The do/while loop stops at the first candidate not already in the map. |
| ConnectionIds.FirstFresh | src/main/java/gf/channel/server/AbstractSocketServerConnector.java:172-179 | The chosen id is one of the candidates and is not in use. |
| SocketClients.IdText | src/main/java/gf/channel/client/SocketClientConnector.java:361-371 | A missing id is written as `"null"`, as string concatenation does. |
| SocketClients.CounterFrameRoundTrip | src/main/java/gf/channel/client/SocketClientConnector.java:374-396 | Round trip: a counters frame reads back as command, id, both counters and the same messages. |
| SocketClients.AllWireSafe | src/main/java/gf/channel/shared/MessageSerializer.java:7-9 | Concatenating CR/LF-free lines keeps them CR/LF-free. |
| SocketClients.SocketClientConnector.constructor | src/main/java/gf/channel/client/SocketClientConnector.java:19-54 | A new connector is closed, has no id, an empty queue and zero counters. The defaults are 12 attempts, a 10000 ms connect timeout and a 5000 ms reconnection delay. |
| SocketClients.SocketClientConnector.SocketConnect | src/main/java/gf/channel/client/SocketClientConnector.java:72-87 | Opening a socket arms the connect timeout first. |
| SocketClients.SocketClientConnector.OnConnectTimeout | src/main/java/gf/channel/client/SocketClientConnector.java:75-85 | An open that takes too long closes the socket. |
| SocketClients.SocketClientConnector.OnReconnectTimer | src/main/java/gf/channel/client/SocketClientConnector.java:173-179 | The delayed reconnect opens a socket with the connect timeout. |
| SocketClients.SocketClientConnector.OnHeartbeatTimer | src/main/java/gf/channel/client/SocketClientConnector.java:233-246 | A ready connector sends `H` with both counters. Otherwise nothing is sent. |
| SocketClients.SocketClientConnector.Connect | src/main/java/gf/channel/client/SocketClientConnector.java:345-358 | Connecting a started connector throws and changes nothing. Otherwise the queue, id, both counters and the attempt count are cleared, the state becomes `connecting` and a socket is opened. |
| SocketClients.SocketClientConnector.Close | src/main/java/gf/channel/client/SocketClientConnector.java:361-371 | Closing an unstarted connector throws and changes nothing. Otherwise the state becomes `closing`, and `C` with the id is sent only from `ready`. |
| SocketClients.SocketClientConnector.Post | src/main/java/gf/channel/client/SocketClientConnector.java:374-396 | Posting to an unstarted connector throws and changes nothing. Otherwise the message joins the queue under number `sentCounter + queue.size() - 1`. From `ready`, one `S` frame carries that number and only the new message. |
| SocketClients.SocketClientConnector.OnConnectionOpen | src/main/java/gf/channel/client/SocketClientConnector.java:109-135 | Without an id, `N` is sent. With one, `R` is sent with the id, both counters and the whole queue in order, and `C` follows when closing. |
| SocketClients.SocketClientConnector.OnConnectionError | src/main/java/gf/channel/client/SocketClientConnector.java:139-141 | An error is handled as a lost connection, by the same policy as a close. |
| SocketClients.SocketClientConnector.OnConnectionClose | src/main/java/gf/channel/client/SocketClientConnector.java:145-182 | A loss while ready enters `connecting` with attempts at 0 and the loss time, and retries at once. A loss while connecting or closing counts an attempt and retries after `reconnectionDelay`. Both end in `closed` when `RetryDecision` gives up. |
| SocketClients.SocketClientConnector.OnMessage | src/main/java/gf/channel/client/SocketClientConnector.java:185-341 | A frame read through the line iterator is handled as `Dispatched` on its lines. |
| SocketClients.SocketClientConnector.Dispatch | src/main/java/gf/channel/client/SocketClientConnector.java:185-341 | An empty frame throws. Before the handshake, only `N` is accepted and any other reply closes. After it, `S` and `HA` apply the acknowledgement and `CR` is answered with `CA` and closes. `C` and unknown commands close the connector and the socket. |
| SocketClients.SocketClientConnector.HandleHandshake | src/main/java/gf/channel/client/SocketClientConnector.java:192-209 | `N` resets attempts and sets id, heartbeat interval and connection timeout, in that order. A missing or malformed field throws with the earlier fields set. Success completes the handshake. |
| SocketClients.SocketClientConnector.CompleteHandshake | src/main/java/gf/channel/client/SocketClientConnector.java:208-246 | `connecting` becomes `ready`. A non-empty queue is flushed as one `S`, with `C` after it when closing, and the heartbeat starts. |
| SocketClients.SocketClientConnector.HandleAck | src/main/java/gf/channel/client/SocketClientConnector.java:248-322 | `S`/`HA` make a connecting connector ready and reset the attempts. A malformed acknowledgement throws with queue and counters unchanged. |
| SocketClients.SocketClientConnector.ApplyAck | src/main/java/gf/channel/client/SocketClientConnector.java:274-318 | An ack below `sentCounter` closes the connector, leaving queue and counters alone. Within the queue, exactly ack − `sentCounter` head entries go and `sentCounter` becomes ack. For `S` not closing, the messages the corrected loop accepts then reach the listeners in order and `receivedCounter` grows by their number. |
| SocketClients.SocketClientConnector.TrimQueue | src/main/java/gf/channel/client/SocketClientConnector.java:286-289 | An ack within the queue drops exactly ack − `sentCounter` head entries and sets `sentCounter` to ack. Past the queue's end it throws with the queue emptied. |
| SocketClients.SocketClientConnector.ReadMessages | src/main/java/gf/channel/client/SocketClientConnector.java:294-317 | Runs the corrected loop `Sequencing.ClientReceive`: listeners receive exactly the messages numbered from `receivedCounter` on, in line order, after the loop, and `receivedCounter` grows by exactly their number. |
| PollingClients.ExchangeRequest | src/main/java/gf/channel/client/PollingClientConnector.java:205-231 | GET exactly without an id. POST exactly with an id and a non-empty queue, carrying both counters and the whole queue. DELETE exactly with an empty queue while closing. PUT otherwise. |
| PollingClients.PollingClientConnector.constructor | src/main/java/gf/channel/client/PollingClientConnector.java:20-55 | A new connector is closed, with no id, no request in flight, an empty queue and zero counters. The defaults are 12 attempts, a 10000 ms request timeout and a 5000 ms delay. |
| PollingClients.PollingClientConnector.Exchange | src/main/java/gf/channel/client/PollingClientConnector.java:192-233 | Nothing happens while a scheduled exchange is pending or a non-long-poll request is in flight. An in-flight long poll is aborted and replaced. Otherwise `ExchangeRequest` is sent as the new current request. |
| PollingClients.PollingClientConnector.SendNext | src/main/java/gf/channel/client/PollingClientConnector.java:205-231 | With nothing in flight, the next request is the one `ExchangeRequest` chooses. |
| PollingClients.PollingClientConnector.RequestDeferredExchange | src/main/java/gf/channel/client/PollingClientConnector.java:252-256 | An exchange is scheduled unless one is already pending. |
| PollingClients.PollingClientConnector.OnScheduledTask | src/main/java/gf/channel/client/PollingClientConnector.java:243-250 | The scheduled task runs `exchange`. |
| PollingClients.PollingClientConnector.Connect | src/main/java/gf/channel/client/PollingClientConnector.java:260-273 | Connecting a started connector throws and changes nothing. Otherwise queue, id, counters and attempts are cleared and the state becomes `connecting`. |
| PollingClients.PollingClientConnector.Close | src/main/java/gf/channel/client/PollingClientConnector.java:277-286 | Closing an unstarted connector throws. Otherwise the state becomes `closing` and an exchange is scheduled. |
| PollingClients.PollingClientConnector.Post | src/main/java/gf/channel/client/PollingClientConnector.java:289-300 | Posting to an unstarted connector throws. Otherwise the message is appended and an exchange is scheduled. |
| PollingClients.PollingClientConnector.OnReadyStateChange | src/main/java/gf/channel/client/PollingClientConnector.java:75-189 | A response to any request but the current one changes nothing. Otherwise nothing is in flight any more, and the status decides as in `Respond`. |
| PollingClients.PollingClientConnector.Respond | src/main/java/gf/channel/client/PollingClientConnector.java:85-183 | 200 with no id: the handshake. 200 with an id: counters and messages. 204: ready and the next request. 410: `closed`. Any other status: a lost connection. |
| PollingClients.PollingClientConnector.HandleNoContent | src/main/java/gf/channel/client/PollingClientConnector.java:145-150 | 204 makes a connecting connector ready and sends the next request, keeping the session. |
| PollingClients.PollingClientConnector.HandleConnected | src/main/java/gf/channel/client/PollingClientConnector.java:90-98 | The handshake sets id, long-polling timeout and connection timeout, then becomes ready, resets attempts and sends the next request. A malformed reply closes the connector. |
| PollingClients.PollingClientConnector.Resume | src/main/java/gf/channel/client/PollingClientConnector.java:143-144 | After a 200, attempts are 0 and the next request is sent. |
| PollingClients.PollingClientConnector.ReadHandshake | src/main/java/gf/channel/client/PollingClientConnector.java:90-96 | Success exactly when three lines are present and both timeouts parse. Fields before a bad line are still assigned. |
| PollingClients.PollingClientConnector.HandleReceived | src/main/java/gf/channel/client/PollingClientConnector.java:99-144 | A 200 with an id makes a connecting connector ready and then reads counters and messages. |
| PollingClients.PollingClientConnector.CountReceived | src/main/java/gf/channel/client/PollingClientConnector.java:103-120 | The messages the corrected loop accepts are counted into `receivedCounter` before the acknowledgement is checked. A malformed counter closes the connector. |
| PollingClients.PollingClientConnector.Acknowledge | src/main/java/gf/channel/client/PollingClientConnector.java:124-144 | An ack below `sentCounter`, or past the queue, closes the connector and fires no message. Otherwise exactly ack − `sentCounter` head entries go, `sentCounter` becomes ack, the messages the corrected loop accepted reach the listeners in order, attempts are reset and the next request is sent. |
| PollingClients.PollingClientConnector.TrimQueue | src/main/java/gf/channel/client/PollingClientConnector.java:131-134 | An ack within the queue drops exactly ack − `sentCounter` head entries. Past the queue's end it throws with the queue emptied. |
| PollingClients.PollingClientConnector.HandleFailure | src/main/java/gf/channel/client/PollingClientConnector.java:155-175 | A failure while neither connecting nor closing enters `connecting` with attempts 0 and the loss time. Otherwise one attempt is counted. Then `Retry` follows. |
| PollingClients.PollingClientConnector.Retry | src/main/java/gf/channel/client/PollingClientConnector.java:160-183 | Follows `RetryDecision`: give up (`closed`), resend at once, or schedule an exchange after `reconnectionDelay`. The session is kept. |
| FallbackClients.Max | src/main/java/gf/channel/client/FallbackClientConnector.java:54-60 | The larger of the two values. |
| FallbackClients.FallbackRetry | src/main/java/gf/channel/client/FallbackClientConnector.java:212-240 | Exhausted exactly past the maximum. An immediate retry only at count 0. |
| FallbackClients.FallbackRetryNeverImmediate | src/main/java/gf/channel/client/FallbackClientConnector.java:216-225 | After the increment, the immediate branch is unreachable: the selector either gives up or retries after a delay. |
| FallbackClients.Posts | src/main/java/gf/channel/client/FallbackClientConnector.java:183-185 | Flushing posts the buffered messages to one transport, one call each, in order. |
| FallbackClients.PostsAppend | src/main/java/gf/channel/client/FallbackClientConnector.java:183-185 | Flushing one more message appends one more post. |
| FallbackClients.PostedTo | src/main/java/gf/channel/client/FallbackClientConnector.java:284-299 | The messages a call log posts to one transport. |
| FallbackClients.PostedToConcat | src/main/java/gf/channel/client/FallbackClientConnector.java:284-299 | Posts add up over concatenated logs. |
| FallbackClients.PostedToPosts | src/main/java/gf/channel/client/FallbackClientConnector.java:183-185 | A flush posts the buffer to the flushed transport and nothing to the other. |
| FallbackClients.NothingDecidedWhileWebsocketUnknown | src/main/java/gf/channel/client/FallbackClientConnector.java:174-253 | While the WebSocket outcome is unknown, the completion check changes nothing. |
| FallbackClients.WebsocketWins | src/main/java/gf/channel/client/FallbackClientConnector.java:177-195 | An available WebSocket wins whatever polling reported. Polling is closed first and detection ends. |
| FallbackClients.AdoptCalls | src/main/java/gf/channel/client/FallbackClientConnector.java:178-211 | Adopting a winner posts the buffer in order, restores its saved settings, and closes it when closing. |
| FallbackClients.AdoptFlushesInOrder | src/main/java/gf/channel/client/FallbackClientConnector.java:178-211 | The winner receives exactly the buffered messages in FIFO order, the other transport none. The buffer empties, and `connecting` becomes `ready`. |
| FallbackClients.AdoptPosts | src/main/java/gf/channel/client/FallbackClientConnector.java:178-211 | The calls added by adoption post the buffer to the winner only. |
| FallbackClients.RestoreNoPosts | src/main/java/gf/channel/client/FallbackClientConnector.java:186-194 | Restoring settings and closing post nothing. |
| FallbackClients.PostedToNoPosts | src/main/java/gf/channel/client/FallbackClientConnector.java:284-299 | A log with no post posts nothing. |
| FallbackClients.DetectionFlushesToWinner | src/main/java/gf/channel/client/FallbackClientConnector.java:177-211 | Whichever transport wins receives exactly the buffer in order, the other none. The buffer empties and detection ends. |
| FallbackClients.FlushToWebsocket | src/main/java/gf/channel/client/FallbackClientConnector.java:177-195 | The WebSocket winner receives exactly the buffer. |
| FallbackClients.FlushToPolling | src/main/java/gf/channel/client/FallbackClientConnector.java:196-211 | Polling wins when the WebSocket is unavailable and polling is available, and it receives exactly the buffer. |
| FallbackClients.NewPostsPastClose | src/main/java/gf/channel/client/FallbackClientConnector.java:178-180 | Closing the loser adds no post. |
| FallbackClients.BothFailedRetriesLater | src/main/java/gf/channel/client/FallbackClientConnector.java:212-240 | With both transports unavailable, attempts increment. Past the maximum the selector is `closed`, otherwise a delayed retry is scheduled, never an immediate one. A closed selector does nothing. |
| FallbackClients.SequentialProbe | src/main/java/gf/channel/client/FallbackClientConnector.java:242-250 | In sequential mode, polling is started exactly when the WebSocket is known unavailable and polling's outcome is unknown. |
| FallbackClients.ConnectStartsDetection | src/main/java/gf/channel/client/FallbackClientConnector.java:127-171 | Connecting a started selector throws. Otherwise it enters `connecting`, empties the buffer, zeroes attempts, and gives both transports the probe timeout, attempts and zero delay before connecting them. |
| FallbackClients.PostAndCloseFollowDetection | src/main/java/gf/channel/client/FallbackClientConnector.java:257-299 | During detection, `post` only buffers and `close` only moves to `closing`. Afterwards both go to the winner. |
| FallbackClients.OnlyTheWinnerIsForwarded | src/main/java/gf/channel/client/FallbackClientConnector.java:62-122 | After detection, state and message events are forwarded only from the transport marked available. |
| FallbackClients.CheckKeepsCoherent | src/main/java/gf/channel/client/FallbackClientConnector.java:174-253 | The completion check keeps the selector coherent: outside detection exactly one transport is available and the buffer is empty. |
| FallbackClients.ConnectTryKeepsCoherent | src/main/java/gf/channel/client/FallbackClientConnector.java:139-171 | A connection attempt leaves the selector coherent. |
| FallbackClients.ConnectKeepsCoherent | src/main/java/gf/channel/client/FallbackClientConnector.java:127-136 | `connect` leaves the selector coherent. |
| FallbackClients.EventsKeepCoherent | src/main/java/gf/channel/client/FallbackClientConnector.java:62-122 | Transport state changes and messages keep the selector coherent. |
| FallbackClients.PostCloseKeepCoherent | src/main/java/gf/channel/client/FallbackClientConnector.java:257-299 | `post` and `close` keep the selector coherent. |
| FallbackClients.FallbackClientConnector.constructor | src/main/java/gf/channel/client/FallbackClientConnector.java:43-60 | The selector's attempt limit and delay are the maxima of the two transports' values. Each transport's own timeout, attempts and delay are saved for restoring. |
| FallbackClients.FallbackClientConnector.SetTransportDetectionConnectTimeout | src/main/java/gf/channel/client/FallbackClientConnector.java:304-306 | Sets the probe timeout. |
| FallbackClients.FallbackClientConnector.SetTransportDetectionReconnectionAttempts | src/main/java/gf/channel/client/FallbackClientConnector.java:312-314 | Sets the probe attempts. |
| FallbackClients.FallbackClientConnector.SetTryConnectionInParallel | src/main/java/gf/channel/client/FallbackClientConnector.java:320-322 | Chooses parallel or sequential probing. |
| FallbackClients.FallbackClientConnector.Connect | src/main/java/gf/channel/client/FallbackClientConnector.java:127-136 | Equals `ConnectStep` on the selector, whose properties `ConnectStartsDetection` and `ConnectKeepsCoherent` state. |
| FallbackClients.FallbackClientConnector.ConnectTryImpl | src/main/java/gf/channel/client/FallbackClientConnector.java:139-171 | Equals `ConnectTry`: the probes restart with unknown outcomes, and polling is started now only in parallel mode. |
| FallbackClients.FallbackClientConnector.ConnectPolling | src/main/java/gf/channel/client/FallbackClientConnector.java:160-168 | Starting polling records a failure to connect as polling unavailable. |
| FallbackClients.FallbackClientConnector.CheckDetectionComplete | src/main/java/gf/channel/client/FallbackClientConnector.java:174-253 | Equals `Check`, the completion rule described by the lemmas above. |
| FallbackClients.FallbackClientConnector.UseTransport | src/main/java/gf/channel/client/FallbackClientConnector.java:178-211 | Equals `Adopt`: flush, restore, then ready or close. |
| FallbackClients.FallbackClientConnector.Flush | src/main/java/gf/channel/client/FallbackClientConnector.java:183-185 | The buffer empties into one post per message, in order. |
| FallbackClients.FallbackClientConnector.Reconnect | src/main/java/gf/channel/client/FallbackClientConnector.java:212-240 | Equals `Reattempt`: count the attempt, then close or schedule a delayed retry. |
| FallbackClients.FallbackClientConnector.OnRetryTimer | src/main/java/gf/channel/client/FallbackClientConnector.java:230-236 | The delayed retry is a new connection attempt. |
| FallbackClients.FallbackClientConnector.OnWebsocketStateChanged | src/main/java/gf/channel/client/FallbackClientConnector.java:62-85 | During detection, the WebSocket's state settles its availability and triggers the check. Afterwards, its events are forwarded only when it won. |
| FallbackClients.FallbackClientConnector.OnPollingStateChanged | src/main/java/gf/channel/client/FallbackClientConnector.java:93-115 | The same for polling. |
| FallbackClients.FallbackClientConnector.OnMessage | src/main/java/gf/channel/client/FallbackClientConnector.java:86-122 | A message is forwarded only after detection and only from the winner. |
| FallbackClients.FallbackClientConnector.Close | src/main/java/gf/channel/client/FallbackClientConnector.java:257-280 | Equals `CloseStep`, see `PostAndCloseFollowDetection`. |
| FallbackClients.FallbackClientConnector.Post | src/main/java/gf/channel/client/FallbackClientConnector.java:284-299 | Equals `PostStep`, see `PostAndCloseFollowDetection`. |
| SocketServers.Deliveries | src/main/java/gf/channel/server/AbstractSocketServerConnector.java:352-354 | One `onMessage` per accepted message, in order. |
| SocketServers.DeliveriesAppend | src/main/java/gf/channel/server/AbstractSocketServerConnector.java:352-354 | Delivering one more message appends one more action. |
| SocketServers.ServerReceive | src/main/java/gf/channel/server/AbstractSocketServerConnector.java:288-301 | The server's read loop accepts exactly the messages numbered from `receivedCounter` on. The counter grows by their number. |
| SocketServers.TrimQueue | src/main/java/gf/channel/server/AbstractSocketServerConnector.java:312-315 | An ack within the queue drops exactly ack − `sentCounter` head entries and sets `sentCounter` to ack. Past the end it throws. Nothing else in the record changes. |
| SocketServers.NewConnectionRegisters | src/main/java/gf/channel/server/AbstractSocketServerConnector.java:362-384 | `N` registers a new record under an unused id, bound to the calling socket, with zero counters and an empty queue. It replies with id, heartbeat and timeout, then fires `onConnected`. No other record changes. |
| SocketServers.StrangersAreTurnedAway | src/main/java/gf/channel/server/AbstractSocketServerConnector.java:193-222 | An empty frame, a non-`N` frame without an id, or an unknown id leaves the registry unchanged and closes the socket. The unknown id is first told `C` / `Expired`. |
| SocketServers.ServeDispatches | src/main/java/gf/channel/server/AbstractSocketServerConnector.java:200-225 | Any frame but `N` is handled by its id. |
| SocketServers.CloseEndsConnection | src/main/java/gf/channel/server/AbstractSocketServerConnector.java:256-270 | `C` and `CA` remove the record, fire `onDisconnected` and close the socket. `C` is answered with `C` first. |
| SocketServers.HeartbeatKeepsRecord | src/main/java/gf/channel/server/AbstractSocketServerConnector.java:275-286 | `H` only rebinds and stamps the record, keeping queue and counters. It answers `HA` with `receivedCounter` unless closing. |
| SocketServers.ServeReachesAcknowledge | src/main/java/gf/channel/server/AbstractSocketServerConnector.java:272-301 | A message frame rebinds the socket, stamps the time and counts the accepted messages before the acknowledgement is applied. |
| SocketServers.SendIsAcceptedInOrder | src/main/java/gf/channel/server/AbstractSocketServerConnector.java:288-354 | For `S`, messages numbered below `receivedCounter` are dropped, the rest counted and delivered in order (none while closing). Exactly ack − `sentCounter` head entries are popped and `sentCounter` becomes ack. |
| SocketServers.ResendAnswersWithQueue | src/main/java/gf/channel/server/AbstractSocketServerConnector.java:317-334 | `R` is answered with `S`, both counters and the whole remaining queue, followed by `CR` when closing. |
| SocketServers.MismatchEndsConnection | src/main/java/gf/channel/server/AbstractSocketServerConnector.java:305-344 | An ack below `sentCounter` or past the queue, a malformed counter, or an unknown command removes the record, closes the socket and delivers nothing. |
| SocketServers.QuietSend | src/main/java/gf/channel/server/AbstractSocketServerConnector.java:272-354 | An `S` that acknowledges nothing new and carries nothing new only stamps the record. |
| SocketServers.QuietRecord | src/main/java/gf/channel/server/AbstractSocketServerConnector.java:272-315 | A frame that changes nothing but the time leaves the record as it was, stamped. |
| SocketServers.RepeatedSendIsIgnored | src/main/java/gf/channel/server/AbstractSocketServerConnector.java:288-301 | Serving the same `S` frame twice delivers its messages once. The second time only the timestamp changes. |
| SocketServers.NewConnTextRoundTrip | src/main/java/gf/channel/server/AbstractSocketServerConnector.java:370-376 | The `N` reply reads back as `N`, the id, the heartbeat and the timeout. |
| SocketServers.ResendTextRoundTrip | src/main/java/gf/channel/server/AbstractSocketServerConnector.java:319-334 | The `S` reply to `R` reads back as both counters and the queue. |
| SocketServers.SendTextIsResendOfOne | src/main/java/gf/channel/server/AbstractSocketServerConnector.java:429-438 | The frame `post` sends is the resend frame for a one-message queue. |
| SocketServers.PostIgnored | src/main/java/gf/channel/server/AbstractSocketServerConnector.java:412-421 | A post to an unknown or closing connection changes nothing. |
| SocketServers.PostQueuesNumbered | src/main/java/gf/channel/server/AbstractSocketServerConnector.java:429-438 | Below the limit, the message is appended under number `sentCounter + queue.size() - 1` and sent as `S` with that number. No other record or field changes. |
| SocketServers.Disconnects | src/main/java/gf/channel/server/AbstractSocketServerConnector.java:387-393 | Counts the `onDisconnected` calls for one id. |
| SocketServers.DisconnectsAppend | src/main/java/gf/channel/server/AbstractSocketServerConnector.java:387-393 | Counts add up over log concatenation. |
| SocketServers.OverflowReportsTwice | src/main/java/gf/channel/server/AbstractSocketServerConnector.java:422-427 | As written, an overflowing post removes the record and reports `onDisconnected` twice. |
| SocketServers.OverflowReportsOnce | src/main/java/gf/channel/server/AbstractSocketServerConnector.java:422-427 | Corrected, the overflow removes the record and reports `onDisconnected` exactly once. |
| SocketServers.TerminateThenPostIsIgnored | src/main/java/gf/channel/server/AbstractSocketServerConnector.java:397-408 | `terminate` only marks the record closing and sends `CR`. Any later post is ignored. |
| SocketServers.ClosingDeliversNothing | src/main/java/gf/channel/server/AbstractSocketServerConnector.java:346-348 | While closing, an `S` frame delivers no message. |
| SocketServers.SweepOneKeyed | src/main/java/gf/channel/server/AbstractSocketServerConnector.java:143-163 | Sweeping one record removes it exactly when it has been idle longer than `connectionTimeout`. |
| SocketServers.SweepKeepsLive | src/main/java/gf/channel/server/AbstractSocketServerConnector.java:138-169 | A sweep removes exactly the expired records it visits and keeps every other record unchanged. |
| SocketServers.SweepExtendsLog | src/main/java/gf/channel/server/AbstractSocketServerConnector.java:138-169 | A sweep only appends to the log. |
| SocketServers.SweepReportsExpired | src/main/java/gf/channel/server/AbstractSocketServerConnector.java:146-151 | Every expired record the sweep visits is reported with `onDisconnected`. |
| SocketServers.SweepSparesLive | src/main/java/gf/channel/server/AbstractSocketServerConnector.java:138-169 | A record that has not expired keeps its record through the sweep and is not reported with `onDisconnected`. |
| SocketServers.SweepClosesStaleSocket | src/main/java/gf/channel/server/AbstractSocketServerConnector.java:153-161 | A visited record idle longer than `heartbeatInterval` + 10000 but not longer than `connectionTimeout` has its socket closed. It keeps its record and is not reported with `onDisconnected`. |
| SocketServers.SocketServerConnector.constructor | src/main/java/gf/channel/server/AbstractSocketServerConnector.java:91-97 | Defaults are a 20000 ms heartbeat, a 120000 ms timeout and at most 300 queued messages. The registry starts empty. |
| SocketServers.SocketServerConnector.SetHeartbeatInterval | src/main/java/gf/channel/server/AbstractSocketServerConnector.java:91-97 | Sets the heartbeat interval. |
| SocketServers.SocketServerConnector.SetConnectionTimeout | src/main/java/gf/channel/server/AbstractSocketServerConnector.java:91-97 | Sets the connection timeout. |
| SocketServers.SocketServerConnector.SetMaxQueueLength | src/main/java/gf/channel/server/AbstractSocketServerConnector.java:91-97 | Sets the queue limit. |
| SocketServers.SocketServerConnector.CreateConnectionId | src/main/java/gf/channel/server/AbstractSocketServerConnector.java:172-179 | Returns the first candidate id not already in use. |
| SocketServers.SocketServerConnector.Service | src/main/java/gf/channel/server/AbstractSocketServerConnector.java:191-356 | Equals `Serve` on the registry, whose effects the lemmas above state frame by frame. |
| SocketServers.SocketServerConnector.ServeFrame | src/main/java/gf/channel/server/AbstractSocketServerConnector.java:206-356 | Equals `ServeId` for frames naming an id. |
| SocketServers.SocketServerConnector.Rebind | src/main/java/gf/channel/server/AbstractSocketServerConnector.java:235-245 | A known id on another socket closes the old one and binds the record to the new one, keeping counters and queue. |
| SocketServers.SocketServerConnector.CreateConnection | src/main/java/gf/channel/server/AbstractSocketServerConnector.java:362-384 | Equals `Create`, see `NewConnectionRegisters`. |
| SocketServers.SocketServerConnector.CloseConnection | src/main/java/gf/channel/server/AbstractSocketServerConnector.java:387-393 | Removes the record, fires `onDisconnected` and closes its socket. |
| SocketServers.SocketServerConnector.ServeRegistered | src/main/java/gf/channel/server/AbstractSocketServerConnector.java:256-344 | Equals `ServeKnown`: the command switch for a registered record. |
| SocketServers.SocketServerConnector.ReadCounters | src/main/java/gf/channel/server/AbstractSocketServerConnector.java:272-301 | Equals `Counters`: the acknowledgement and first number are parsed, and a malformed one ends the connection. |
| SocketServers.SocketServerConnector.ReadMessages | src/main/java/gf/channel/server/AbstractSocketServerConnector.java:288-301 | Equals `Messages`: the accepted messages are counted into the record. |
| SocketServers.SocketServerConnector.ApplyAck | src/main/java/gf/channel/server/AbstractSocketServerConnector.java:305-354 | Equals `Acknowledge`: a mismatch ends the connection, otherwise trim, answer `R`, and deliver unless closing. |
| SocketServers.SocketServerConnector.Deliver | src/main/java/gf/channel/server/AbstractSocketServerConnector.java:352-354 | Every message is handed to `onMessage` once, in order. |
| SocketServers.SocketServerConnector.Terminate | src/main/java/gf/channel/server/AbstractSocketServerConnector.java:397-408 | Equals `TerminateStep`, see `TerminateThenPostIsIgnored`. |
| SocketServers.SocketServerConnector.Post | src/main/java/gf/channel/server/AbstractSocketServerConnector.java:412-441 | Equals the corrected `PostOnce`, see `PostIgnored`, `PostQueuesNumbered` and `OverflowReportsOnce`. |
| SocketServers.SocketServerConnector.Sweep | src/main/java/gf/channel/server/AbstractSocketServerConnector.java:138-169 | Equals `SweepAll` over the visiting order. Visiting every record once, it removes exactly the expired ones and keeps the rest unchanged. |
| PollingServlets.IntParam | src/main/java/gf/channel/server/servlet/AsyncPollingConnectionServlet.java:154-157 | A missing parameter keeps the default. A well-formed 32-bit value replaces it. |
| PollingServlets.Deliveries | src/main/java/gf/channel/server/servlet/AsyncPollingConnectionServlet.java:378-380 | One `onMessage` per accepted message, in order: action `i` delivers message `i`. |
| PollingServlets.DeliveriesAppend | src/main/java/gf/channel/server/servlet/AsyncPollingConnectionServlet.java:378-380 | Delivering one more message appends one more action. |
| PollingServlets.NewRequestRegisters | src/main/java/gf/channel/server/servlet/AsyncPollingConnectionServlet.java:219-246 | A request without `cid` registers a record under an unused id and answers 200 with id, long-polling timeout and connection timeout, then fires `onConnected`. No other record changes. |
| PollingServlets.HandshakeRoundTrip | src/main/java/gf/channel/server/servlet/AsyncPollingConnectionServlet.java:233-237 | The handshake body reads back as id and both timeouts. |
| PollingServlets.UnknownIdIsGone | src/main/java/gf/channel/server/servlet/AsyncPollingConnectionServlet.java:251-258 | An unknown `cid` gets 410 and leaves the registry unchanged. |
| PollingServlets.DeleteEndsConnection | src/main/java/gf/channel/server/servlet/AsyncPollingConnectionServlet.java:280-292 | DELETE, or a lost required session, releases any held poll, removes the record, answers 410 and fires `onDisconnected`. |
| PollingServlets.OtherMethodIsRefused | src/main/java/gf/channel/server/servlet/AsyncPollingConnectionServlet.java:293-296 | A method other than POST, PUT or DELETE gets 405. Only a held poll is released. |
| PollingServlets.RequestBodyRoundTrip | src/main/java/gf/channel/server/servlet/AsyncPollingConnectionServlet.java:302-310 | A client's POST body reads back as acknowledgement, first number and the same messages. |
| PollingServlets.ResponseBodyRoundTrip | src/main/java/gf/channel/server/servlet/AsyncPollingConnectionServlet.java:345-355 | A 200 body reads back as both counters and the whole queue. |
| PollingServlets.MalformedBodyAborts | src/main/java/gf/channel/server/servlet/AsyncPollingConnectionServlet.java:302-303 | A malformed counter aborts the request, leaving only the timestamp changed. |
| PollingServlets.ServeReachesReceive | src/main/java/gf/channel/server/servlet/AsyncPollingConnectionServlet.java:272-303 | A POST or PUT with a readable body releases the held poll, stamps the time and goes on to read the messages. |
| PollingServlets.TooLargeEndsConnection | src/main/java/gf/channel/server/servlet/AsyncPollingConnectionServlet.java:312-319 | Once the total message length exceeds `maxMessageSize`, the connection is closed with 410. |
| PollingServlets.ReceiveAccepts | src/main/java/gf/channel/server/servlet/AsyncPollingConnectionServlet.java:307-328 | Messages numbered below `receivedCounter` are skipped, and each accepted one increments it. |
| PollingServlets.AcknowledgeKeeps | src/main/java/gf/channel/server/servlet/AsyncPollingConnectionServlet.java:340-374 | An acknowledgement within the queue pops exactly ack − `sentCounter` head entries and sets `sentCounter` to ack. The record stays. |
| PollingServlets.AcknowledgeAnswers | src/main/java/gf/channel/server/servlet/AsyncPollingConnectionServlet.java:345-380 | A non-empty queue answers 200 with counters and queue. An empty one answers a POST with the counters only, or starts a long poll for PUT. Then the messages are delivered. |
| PollingServlets.ReceiveKeeps | src/main/java/gf/channel/server/servlet/AsyncPollingConnectionServlet.java:307-374 | The record after reading and acknowledging. |
| PollingServlets.ReceiveAnswers | src/main/java/gf/channel/server/servlet/AsyncPollingConnectionServlet.java:345-380 | The reply and deliveries after reading and acknowledging. |
| PollingServlets.ReceiveOverruns | src/main/java/gf/channel/server/servlet/AsyncPollingConnectionServlet.java:340-343 | An acknowledgement past the queue aborts the request with the queue emptied. |
| PollingServlets.ReceiveEnds | src/main/java/gf/channel/server/servlet/AsyncPollingConnectionServlet.java:332-360 | An ack below `sentCounter`, or a drained queue while closing, removes the record with 410 and fires `onDisconnected`. |
| PollingServlets.ExchangeKeeps | src/main/java/gf/channel/server/servlet/AsyncPollingConnectionServlet.java:298-374 | A well-formed exchange leaves the record with the accepted messages counted and the acknowledged ones popped. |
| PollingServlets.ExchangeAnswers | src/main/java/gf/channel/server/servlet/AsyncPollingConnectionServlet.java:345-380 | Reply selection for a whole request: queue, POST or long poll, then the deliveries in order. |
| PollingServlets.ClosingDrainedEnds | src/main/java/gf/channel/server/servlet/AsyncPollingConnectionServlet.java:356-360 | An empty queue while closing closes the connection with 410. |
| PollingServlets.StaleAckEndsConnection | src/main/java/gf/channel/server/servlet/AsyncPollingConnectionServlet.java:332-337 | An acknowledgement below `sentCounter` closes the connection. |
| PollingServlets.AckPastQueueAborts | src/main/java/gf/channel/server/servlet/AsyncPollingConnectionServlet.java:340-343 | An acknowledgement past the queue throws with the queue emptied and the record kept. |
| PollingServlets.PostIgnored | src/main/java/gf/channel/server/servlet/AsyncPollingConnectionServlet.java:432-441 | A post to an unknown or closing connection changes nothing. |
| PollingServlets.PostQueues | src/main/java/gf/channel/server/servlet/AsyncPollingConnectionServlet.java:447-470 | Below the limit, the message is appended under the next number. A held poll is answered with 200, counters and queue, and released. |
| PollingServlets.PostOverflowCloses | src/main/java/gf/channel/server/servlet/AsyncPollingConnectionServlet.java:442-446 | At the queue limit, the record is removed without enqueuing and a held poll gets 410. `onDisconnected` does not fire. |
| PollingServlets.TerminateThenPostIsIgnored | src/main/java/gf/channel/server/servlet/AsyncPollingConnectionServlet.java:411-428 | `terminate` only sets `closing` and releases a held poll. Later posts are ignored. |
| PollingServlets.TimeoutForgetsPoll | src/main/java/gf/channel/server/servlet/AsyncPollingConnectionServlet.java:130-137 | An expired long poll is answered 204 and forgotten. Nothing else changes. |
| PollingServlets.EndedForgetsPoll | src/main/java/gf/channel/server/servlet/AsyncPollingConnectionServlet.java:125-142 | A completed or failed long poll is forgotten, and nothing is sent. |
| PollingServlets.SweepOneKeyed | src/main/java/gf/channel/server/servlet/AsyncPollingConnectionServlet.java:171-190 | Sweeping one record removes it exactly when it has been idle longer than `connectionTimeout`. |
| PollingServlets.SweepKeepsLive | src/main/java/gf/channel/server/servlet/AsyncPollingConnectionServlet.java:171-190 | A sweep removes exactly the expired records it visits and keeps every other record unchanged. |
| PollingServlets.SweepIsSilent | src/main/java/gf/channel/server/servlet/AsyncPollingConnectionServlet.java:171-190 | The servlet's sweep only appends responses to held polls and session invalidations. It never fires `onDisconnected`. |
| PollingServlets.LongPollIsDropped | src/main/java/gf/channel/server/servlet/AsyncPollingConnectionServlet.java:367-374 | As written, the long poll is started but not remembered, so a following post cannot answer it. |
| PollingServlets.PostAnswersHeldPoll | src/main/java/gf/channel/server/servlet/AsyncPollingConnectionServlet.java:367-374 | Corrected, the long poll is held, and the next post answers it with 200 and the new message. |
| PollingServlets.TotalLengthAppend | src/main/java/gf/channel/server/servlet/AsyncPollingConnectionServlet.java:312-319 | Message lengths add up over concatenation. |
| PollingServlets.TotalLengthStep | src/main/java/gf/channel/server/servlet/AsyncPollingConnectionServlet.java:312 | Reading one more message adds its length. |
| PollingServlets.TotalLengthPrefix | src/main/java/gf/channel/server/servlet/AsyncPollingConnectionServlet.java:312-319 | A prefix is never longer than the whole. |
| PollingServlets.ReadMessages | src/main/java/gf/channel/server/servlet/AsyncPollingConnectionServlet.java:307-328 | The loop reports exactly when the total length exceeds `maxMessageSize`. Otherwise it accepts exactly the messages numbered from `receivedCounter` on, and the counter grows by their number. |
| PollingServlets.TrimQueue | src/main/java/gf/channel/server/servlet/AsyncPollingConnectionServlet.java:340-343 | An ack within the queue pops exactly ack − `sentCounter` head entries. Past the end it throws with the queue emptied. |
| PollingServlets.PollingServlet.constructor | src/main/java/gf/channel/server/servlet/AsyncPollingConnectionServlet.java:71-86 | Defaults: no session creation or disposal, 20000 ms long poll, 120000 ms timeout, 256000 characters per request, 300 queued messages. |
| PollingServlets.PollingServlet.Init | src/main/java/gf/channel/server/servlet/AsyncPollingConnectionServlet.java:150-157 | The two flags are set from `"true"` parameters. Each integer parameter replaces its default only when present and well-formed. |
| PollingServlets.PollingServlet.CreateConnectionId | src/main/java/gf/channel/server/servlet/AsyncPollingConnectionServlet.java:194-201 | Returns the first candidate id not already in use. |
| PollingServlets.PollingServlet.Service | src/main/java/gf/channel/server/servlet/AsyncPollingConnectionServlet.java:205-382 | Equals the corrected `Serve` on the registry (the long poll of a PUT is held), whose effects the lemmas above state request by request. |
| PollingServlets.PollingServlet.ServePoll | src/main/java/gf/channel/server/servlet/AsyncPollingConnectionServlet.java:272-298 | Equals `Poll`: the held poll is released before the method is looked at. |
| PollingServlets.PollingServlet.DispatchRequest | src/main/java/gf/channel/server/servlet/AsyncPollingConnectionServlet.java:280-298 | Equals `Dispatch`: session check, DELETE, 405, or the exchange. |
| PollingServlets.PollingServlet.CloseConnection | src/main/java/gf/channel/server/servlet/AsyncPollingConnectionServlet.java:385-407 | Removes the record, answers the held poll or the request with 410, and invalidates the session when configured. |
| PollingServlets.PollingServlet.Disconnect | src/main/java/gf/channel/server/servlet/AsyncPollingConnectionServlet.java:287-292 | Closing from a request also fires `onDisconnected`. |
| PollingServlets.PollingServlet.ExchangeBody | src/main/java/gf/channel/server/servlet/AsyncPollingConnectionServlet.java:298-303 | Equals `Exchange` on the record `DispatchRequest` has already stamped: parse the two counters; a missing or malformed one throws `NumberFormat`. |
| PollingServlets.PollingServlet.ReceiveMessages | src/main/java/gf/channel/server/servlet/AsyncPollingConnectionServlet.java:307-343 | Equals `Receive`, see `ReceiveAccepts`, `ReceiveOverruns` and `ReceiveEnds`. |
| PollingServlets.PollingServlet.ApplyAck | src/main/java/gf/channel/server/servlet/AsyncPollingConnectionServlet.java:332-374 | Equals `Acknowledge`, see `AcknowledgeKeeps` and `AcknowledgeAnswers`. |
| PollingServlets.PollingServlet.Answer | src/main/java/gf/channel/server/servlet/AsyncPollingConnectionServlet.java:345-380 | Equals the corrected `Reply` (the long poll is held): the reply selection, then the deliveries. |
| PollingServlets.PollingServlet.Deliver | src/main/java/gf/channel/server/servlet/AsyncPollingConnectionServlet.java:378-380 | Every message is handed to `onMessage` once, in order. |
| PollingServlets.PollingServlet.Terminate | src/main/java/gf/channel/server/servlet/AsyncPollingConnectionServlet.java:411-428 | Equals `TerminateStep`, see `TerminateThenPostIsIgnored`. |
| PollingServlets.PollingServlet.Post | src/main/java/gf/channel/server/servlet/AsyncPollingConnectionServlet.java:432-473 | Equals `PostStep`, see `PostIgnored`, `PostQueues` and `PostOverflowCloses`. |
| PollingServlets.PollingServlet.OnTimeout | src/main/java/gf/channel/server/servlet/AsyncPollingConnectionServlet.java:130-137 | Equals `TimeoutStep`, see `TimeoutForgetsPoll`. |
| PollingServlets.PollingServlet.OnEnded | src/main/java/gf/channel/server/servlet/AsyncPollingConnectionServlet.java:125-142 | Equals `EndedStep`, see `EndedForgetsPoll`. |
| PollingServlets.PollingServlet.Sweep | src/main/java/gf/channel/server/servlet/AsyncPollingConnectionServlet.java:171-190 | Equals `SweepAll` over the visiting order. Visiting every record once, it removes exactly the expired ones and keeps the rest unchanged. |

Other points the model makes explicit:

- `FallbackClients.FallbackClientConnector.Reconnect` keeps the source's
  immediate-retry branch as a proved-dead `assert false`. After the
  increment, `connectionAttempts == 0` cannot hold
  (`FallbackRetryNeverImmediate`).
- The long-poll client's `scheduled` flag is never set to true, as in the
  source. `RequestDeferredExchange` therefore always schedules, and the class
  invariant records `!scheduled`.
- The socket server splits frames with `String.split`, which drops trailing
  empty strings. An empty last message in a frame is lost
  (`Wire.SplitFrameDropsEmptyLast`).
- A message whose text ends in `'\r'` loses that character in the client's
  line iterator (`Wire.TrailingCRIsLost`). The servlet's `readLine` also
  breaks a line at a lone `'\r'` (`Wire.ReaderSplitsAtCR`). The model
  therefore assumes messages free of `'\r'` as well as `'\n'`.

## Left out

- Concurrency: `synchronized` blocks, the concurrent map, timer threads and
  the volatile timestamp. Each `service`, `post`, `terminate`, timer task or
  sweep is one atomic step. So the second look-up of a record under the lock
  (AbstractSocketServerConnector.java:227-233, AsyncPollingConnectionServlet.java:263-269) is not modelled separately.
- Listener callbacks run after the step that fires them. A listener that
  re-enters the connector is not modelled.
- Clocks and UUIDs: `System.nanoTime`/`currentTimeMillis` are a `now`
  parameter in milliseconds, with no nanosecond conversion or overflow.
  `UUID.randomUUID` is a sequence of candidate ids given as a parameter.
- Timers and transports: timers are log entries (`ArmConnectTimeout`,
  `ScheduleReconnect`, `Schedule`, `StartHeartbeat`) and their firing is a
  separate method. The outcome of a transport's `connect`, `close` or `post`
  is a parameter of the fallback selector's steps.
- The message codec is the identity on strings. Messages are assumed to hold
  no `'\n'` or `'\r'`. Serializer loading in the servlet's init
  (AsyncPollingConnectionServlet.java:159-169) is not modelled.
- Integer widths: counters and message numbers are unbounded integers.
  The Java `int` `receivedCounter` and the `long` counters could wrap, which
  is not modelled. Parsing does reject numbers outside the 32- or 64-bit
  range.
- `socketSend`/`socketClose` failures and output exceptions while writing a
  response (AsyncPollingConnectionServlet.java:239-243, 464-466) are not
  modelled. Sends always succeed.
- HTTP response headers, content types and the servlet's `HttpSession`:
  a session is a flag on the record, and its invalidation is a log entry.
- `IsTrue` folds case for ASCII letters only.
- Wire.IsDigit: only the ASCII digits `'0'..'9'`. Java's `Long.parseLong` and
  `Integer.parseInt` also accept other Unicode decimal digits (through
  `Character.digit`), so `Wire.ParseLong` and `Wire.ParseInt` reject
  numbers written in those digits.
- SocketClients.SocketClientConnector.ReadMessages: runs the corrected loop
  `Sequencing.ClientReceive`. The Java loop (SocketClientConnector.java:294-311)
  fires every line and adds the number of lines to `receivedCounter`. That
  loop is `Sequencing.SkippingLoop`, and `SkippingLoopAcceptsAll` and
  `SkippingLoopRedelivers` state what it does (see Findings).
- SocketClients.SocketClientConnector.ApplyAck: delivers what `ReadMessages`
  delivers, so the corrected loop's messages, not every line.
- PollingClients.PollingClientConnector.CountReceived: counts the corrected
  loop's messages. The Java loop (PollingClientConnector.java:103-120) counts
  every line, as `Sequencing.SkippingLoop` does.
- PollingClients.PollingClientConnector.Acknowledge: fires the messages
  `CountReceived` accepted, not every line.
- SocketServers.SocketServerConnector.Post: runs the corrected `PostOnce`,
  which reports a queue overflow once. The Java `post` reports it twice
  (AbstractSocketServerConnector.java:390 and 425). `PostStep` and
  `OverflowReportsTwice` model that.
- PollingServlets.PollingServlet.Service: runs the corrected `Serve`, which
  keeps the long poll of a PUT with nothing to send. The Java code clears
  `asyncContext` (AsyncPollingConnectionServlet.java:372-373). `ServeAsWritten`
  and `LongPollIsDropped` model that.
- PollingServlets.PollingServlet.Answer: keeps the long poll in the same
  way, through `Reply` with the poll held.
- PollingServlets.PollingServlet.ServePoll, `DispatchRequest`, `ExchangeBody`,
  `ReceiveMessages` and `ApplyAck` pass the held poll on to `Answer`.
- The sweep visits records in the map's iteration order, which is given
  as a parameter.
- `WeakReference` to the physical connection and garbage collection.
- Logging, `GWT.reportUncaughtException`, the browser and framework
  bindings (GWT, Jetty, Jooby), and the serializers.
- URL handling in the polling client's request construction: the request
  is a value (verb, body, timeout).

## Findings

| source | as written | input that shows it | evidently intended | confidence | as-written member | corrected member |
|---|---|---|---|---|---|---|
| src/main/java/gf/channel/client/SocketClientConnector.java:299-304 | The duplicate-skip branch advances the message number without consuming a line, so the next turn reads the same line under a higher number. The same loop is in PollingClientConnector.java:108-113. | `receivedCounter` = 1, first number 0, one message `"m0"` (a resent message): it is delivered again | Skip the duplicate line, as the socket server's loop does, so each message is delivered once | not executed | Sequencing.SkippingLoopRedelivers | Sequencing.ClientReceive |
| src/main/java/gf/channel/server/AbstractSocketServerConnector.java:422-427 | On queue overflow, `closeConnection` already fires `onDisconnected` (line 390), and `post` fires it a second time | a connection whose queue holds `maxQueueLength` messages receives one more `post` | Report the disconnection once | not executed | SocketServers.OverflowReportsTwice | SocketServers.OverflowReportsOnce |
| src/main/java/gf/channel/server/servlet/AsyncPollingConnectionServlet.java:372-373 | A PUT with nothing to send starts a long poll and then clears `asyncContext`, so the poll is never registered, and `post` cannot answer it | a PUT acknowledging the whole queue, followed by one `post` | Hold the poll so that the next post answers it at once | not executed | PollingServlets.LongPollIsDropped | PollingServlets.PostAnswersHeldPoll |
