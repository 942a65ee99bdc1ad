# simpleChat session and command protocol, in Dafny

This project models the session and command layer of a small Java chat relay
(an OCSF textbook exercise). That layer consists of two state machines over
an abstract transport.

- **EchoServer** relays chat between connected clients.
  - It keeps a `loginId` for each connection, set by the client's `#login <id>` handshake.
  - A second login, or an exact `#logoff`/`#quit`, closes the connection.
  - Every other message is broadcast as `<loginId>> <message>`.
  - It interprets the operator's commands `#quit`, `#stop`, `#close`, `#setport`, `#start` and `#getport`.
  - It reacts to the transport's hooks: server started, stopped and closed; client connected and disconnected.
- **ChatClient** is the user's side.
  - On construction it opens the connection and sends `#login <id>`.
  - A UI line starting with `#` is a command; `#quit`, `#logoff`, `#sethost`, `#setport`, `#login`, `#gethost` and `#getport` are understood.
  - Every other line is sent to the server as it is.
  - Server messages go to the UI unchanged.

Each side is modelled in three layers.

1. **The state machine.** A state datatype and pure functions say what each handler does: `ServerProtocol` and `ClientProtocol`.
2. **The class.** `Server.EchoServer` and `Client.ChatClient` have the source's fields. Their methods follow the Java statement by statement, and each method is proved to produce the state the corresponding function gives.
   - The `switch` fall-through from `#sethost` into `#setport` into `#login` is kept, as a flag that carries control into the next case.
3. **The properties.** `ServerProperties` and `ClientProperties` prove the protocol's promises, for single steps and for whole runs of events.

Several parts of the environment are abstract.

- **Transport.** Listening flag, port, host, connection state and each connection's `loginId`.
- **Transport log.** The transport calls a handler completes are appended to a log.
  - The server logs broadcasts, sends to one client, closes of a connection, listen, stop listening, and close.
  - The client logs open, send and close.
- **Failures.** Whether a call that can throw `IOException` completes is a parameter of the handler:
  - `ioOk` on the server;
  - `Faults(openOk, sendOk, closeOk)` on the client.
- **Output.** Console output is a log of line values. The `Text` functions give each line's exact characters. The client's UI output is a log of strings.
- **Exit.** `System.exit(0)` sets a `terminated` flag.

`JavaText` models the library behaviour the handlers depend on:

- `String.split(" ")`: trailing empty tokens are dropped, and a string without a space comes back whole;
- `startsWith`;
- `Integer.parseInt`, giving `None` where Java throws `NumberFormatException`;
- `Integer.toString`;
- how `+` renders a `null` String, as "null".

The model follows the code on these points:

- The login greeting on the server goes only to the connection that logged in (`sendToClient`, EchoServer.java:81). It is not broadcast.
- `#logoff` and `#quit` close a connection only when the message is exactly that word. `"#logoff x"` is relayed as chat.
- `#sethost` while connected prints all three refusals. The `#sethost` and `#setport` cases fall through because they have no `break` in their connected branch.
- The client's transport hooks `connectionClosed` and `connectionException` are events that find the connection already down: the transport closes it before calling them, so in a run the client is disconnected afterwards and `#login` is accepted again.
- When the client fails to send `#quit`, the `IOException` leaves `handleCommand` before `quit()`. The client reports "Error handling command" and goes on running.

## Model

| member | source | states |
|---|---|---|
| Server.EchoServer.constructor | EchoServer.java:29-41 | A new server is not listening, has the given port, no sessions, empty logs, and `serverClosed` false |
| Server.EchoServer.HandleMessageFromClient | EchoServer.java:51-65 | The handler produces exactly the state `OnClientMessage` describes: print, then login, exact session end, or chat broadcast |
| Server.EchoServer.HandleLogin | EchoServer.java:67-84 | The handler produces the state `OnLogin` describes. A first login stores the second token and greets the sender; a later login closes the connection, reporting a failed close |
| Server.EchoServer.HandleCommand | EchoServer.java:86-128 | The switch produces the state and IOException outcome `OnCommand` describes, with early returns on the `#setport`/`#start` refusals |
| Server.EchoServer.ServerStarted | EchoServer.java:134-139 | The closed flag is cleared and the listening notice printed with the port (`OnServerStarted`) |
| Server.EchoServer.ServerStopped | EchoServer.java:145-150 | A notice is printed and the warning broadcast (`OnServerStopped`) |
| Server.EchoServer.ServerClosed | EchoServer.java:152-155 | The closed flag is set and a notice printed (`OnServerClosed`) |
| Server.EchoServer.ClientConnected | EchoServer.java:157-159 | Only a notice is printed (`OnClientConnected`) |
| Server.EchoServer.ClientDisconnected | EchoServer.java:161-165 | The departing id is printed and broadcast (`OnClientDisconnected`) |
| Server.EchoServer.SetInfo | EchoServer.java:77 | `setInfo("loginId", id)` changes that connection's slot and nothing else |
| Server.EchoServer.SendToClient | EchoServer.java:80-82 | The send is logged when it completes; otherwise nothing changes |
| Server.EchoServer.CloseClient | EchoServer.java:58-60 | The close is logged when it completes; otherwise nothing changes and IOFailure is returned |
| Server.EchoServer.Listen | EchoServer.java:120 | `listen()` sets listening and is logged when it completes; otherwise it fails with no change |
| Server.EchoServer.StopListening | EchoServer.java:95 | `stopListening()` clears listening and is logged |
| Server.EchoServer.Close | EchoServer.java:91 | `close()` clears listening and is logged when it completes; otherwise it fails with no change |
| ServerProperties.FirstLoginStoresId | EchoServer.java:76-83 | A `#login` on a connection without an id stores the second token. It sends `"<" + id + "> has logged on"` to that connection only, and changes no flag or port |
| ServerProperties.RepeatedLoginClosesConnection | EchoServer.java:69-75 | A `#login` on a connection that has an id leaves the registry unchanged, closes that connection, and sends or broadcasts nothing |
| ServerProperties.SessionEndClosesSender | EchoServer.java:57-61 | Exactly `#logoff` or `#quit` closes the sender, broadcasts nothing and keeps the registry |
| ServerProperties.ChatIsBroadcastOnce | EchoServer.java:62-64 | Any other message is broadcast once as `loginId + "> " + msg`, with `null> ` before login |
| ServerProperties.LogoffWithArgumentIsChat | EchoServer.java:57 | For every `arg`, even the empty one, `"#logoff " + arg` is neither a login nor a session end, and is broadcast as chat |
| ServerProperties.MessageKinds | EchoServer.java:51-65 | A message makes at most one transport call. Iffs: it is a broadcast exactly for chat and a reply to the sender exactly for a completed first-login greeting; the registry changes exactly on a first login |
| ServerProperties.HandshakeStoresId | EchoServer.java:68-83 | The client's handshake `"#login " + id`, for a one-word id, can be handled and stores exactly `id` |
| ServerProperties.SetPortNeedsClosedServer | EchoServer.java:100-104 | `#setport` while `serverClosed` is false prints the refusal and changes nothing else |
| ServerProperties.SetPortOnClosedServer | EchoServer.java:105-113 | On a closed server: a missing argument gives "Port not specified", an unparsable one "Port not a valid number", both keeping the port; a valid int sets exactly that port |
| ServerProperties.SetPortMalformed | EchoServer.java:105-113 | `"#setport abc"` and `"#setport  6000"` (two spaces, an empty token) are not valid numbers; a bare `"#setport"` lacks the port |
| ServerProperties.SetPortAfterClose | EchoServer.java:97-121 | Scenario: start, `#setport 6000` refused, `#close` with the closed hook, then `#setport 6000` sets port 6000 |
| ServerProperties.StartNeedsStoppedServer | EchoServer.java:115-120 | `#start` while listening prints the refusal and changes nothing else |
| ServerProperties.UnrecognizedCommandIsReported | EchoServer.java:125-126 | An unknown command name prints "Command not recognized" and changes nothing else |
| ServerProperties.CommandFrame | EchoServer.java:86-128 | No command touches sessions or the closed flag. The server terminates iff the command is `#quit` and its close succeeds; an escaping IOException leaves the state unchanged |
| ServerProperties.ApplyCommandFrame | EchoServer.java:89-127 | The same frame for each parsed command, and the transport log only grows |
| ServerProperties.StartedHookReopens | EchoServer.java:134-139 | The started hook always clears `serverClosed` and otherwise only prints |
| ServerProperties.StoppedHookWarnsClients | EchoServer.java:145-150 | The stopped hook broadcasts the warning to all clients |
| ServerProperties.ClosedHookClosesServer | EchoServer.java:152-155 | The closed hook sets `serverClosed` and otherwise only prints |
| ServerProperties.DisconnectIsAnnounced | EchoServer.java:161-165 | A disconnect broadcasts `"<" + loginId + "> has disconnected"` to all clients |
| ServerProperties.StepFrame | EchoServer.java:51-165 | Any one event grows the log and keeps every stored id. Only the closed hook turns the closed flag on |
| ServerProperties.ClosedFlagNeedsHook | EchoServer.java:29 | `serverClosed` starts false, and no run without the closed hook sets it |
| ServerProperties.SetPortRefusedBeforeClose | EchoServer.java:100-104 | After any run from construction without the closed hook, `#setport` is refused |
| ServerProperties.LoginIdSetOnce | EchoServer.java:69-77 | Once a connection has an id, no run of events changes or removes it |
| ServerProperties.CallsOnlyGrow | EchoServer.java:51-165 | The transport log is append-only over any run |
| JavaText.Split | EchoServer.java:87 | `split(" ")` tokens never contain a space, and a line not starting with a space yields a first token starting with its first character (and conversely) |
| JavaText.SplitSpec | EchoServer.java:87 | The tokens joined with single spaces give the line without trailing spaces; there are no tokens iff the line is nonempty and all spaces |
| JavaText.SplitJoin | EchoServer.java:68 | Splitting space-free tokens joined by spaces gives the tokens back, so a handshake's id is recovered |
| JavaText.ParseInt | EchoServer.java:107 | `Integer.parseInt` succeeds only on an optional sign followed by digits, and a negative result needs a minus sign |
| JavaText.ParseIntToString | EchoServer.java:123 | Parsing what `Integer.toString` prints gives the int back |
| JavaText.StartsWith | EchoServer.java:55 | A string that starts with `p` is `p` followed by the rest of the string; StartsWithConcat gives the converse |
| JavaText.StartsWithConcat | EchoServer.java:55 | `s.startsWith(p)` iff `s == p + rest`, and `p + s` always starts with `p` |
| JavaText.Render | EchoServer.java:53-63 | A present String renders as itself; the rendering is "null" exactly for a null reference or the string "null" |
| JavaText.IntToString | EchoServer.java:123 | `Integer.toString` gives a nonempty, space-free string: a minus sign exactly for a negative int, then decimal digits |
| ServerProtocol.Text | EchoServer.java:53-165 | Each console line's exact characters. The login line is the greeting sent to the client, the disconnect line the broadcast farewell, and `#getport`'s line parses back to the port |
| ClientProtocol.Text | client/ChatClient.java:51-172 | Each console line's exact characters. `#gethost` prints the host verbatim and `#getport`'s line parses back to the port |
| Server.EchoServer.SendToAllClients | EchoServer.java:63 | A broadcast appends exactly that text to the transport log and changes nothing else |
| Server.EchoServer.SetPort | EchoServer.java:107 | The port becomes the new value and nothing else changes |
| Client.ChatClient.constructor | client/ChatClient.java:43-53 | Construction opens, then sends `"#login " + loginId`, reporting a failure of either (`Construct`) |
| Client.ChatClient.HandleMessageFromServer | client/ChatClient.java:63-65 | The message is shown as it is (`OnServerMessage`) |
| Client.ChatClient.HandleMessageFromClientUI | client/ChatClient.java:72-92 | A '#' line goes to the command handler, with an error report on IOException. Any other line is sent, or the client quits after telling the UI (`OnUILine`) |
| Client.ChatClient.HandleCommand | client/ChatClient.java:94-151 | The switch produces the state and IOException outcome `OnCommand` describes |
| Client.ChatClient.HostPortLogin | client/ChatClient.java:106-141 | The three fall-through cases, entered at the command's label, behave as `OnSetHost`, `OnSetPort` and `OnLogin` |
| Client.ChatClient.Quit | client/ChatClient.java:156-164 | The connection is closed, a failed close is ignored, and the client terminates (`OnQuit`) |
| Client.ChatClient.ConnectionClosed | client/ChatClient.java:166-168 | "Connection closed" is printed |
| Client.ChatClient.ConnectionException | client/ChatClient.java:170-173 | The shutdown notice is printed |
| Client.ChatClient.OpenConnection | client/ChatClient.java:48 | When it completes, the client is connected and the open is logged; otherwise nothing changes |
| Client.ChatClient.SendToServer | client/ChatClient.java:83 | The send is logged when it completes; otherwise nothing changes |
| Client.ChatClient.CloseConnection | client/ChatClient.java:104 | When it completes, the client is disconnected and the close is logged; otherwise nothing changes |
| Client.ChatClient.SetHost | client/ChatClient.java:112 | Only the host changes |
| Client.ChatClient.SetPort | client/ChatClient.java:125 | Only the port changes |
| ClientProperties.HandshakeOnConstruction | client/ChatClient.java:47-52 | The first calls are open, then `"#login " + loginId`. Nothing is sent if opening fails; the notice is printed iff a call failed |
| ClientProperties.CommandLineNeverSentRaw | client/ChatClient.java:74-79 | A '#' line only ever sends `#quit`, `#logoff` or the client's own handshake |
| ClientProperties.AppendedCalls | client/ChatClient.java:72-151 | The transport calls a UI line makes are exactly those `NewCalls` lists, and the login id is untouched |
| ClientProperties.CommandCallsAppended | client/ChatClient.java:94-151 | The same for each parsed command: `#sethost`/`#setport` never touch the transport |
| ClientProperties.ChatLineSentVerbatim | client/ChatClient.java:80-91 | Any other line is sent verbatim with nothing else changed. On a send failure the UI is told, the connection closed if possible, and the client terminates |
| ClientProperties.SetHostWhileConnected | client/ChatClient.java:106-141 | While connected, `#sethost` prints the host, port and login refusals in that order and changes nothing else |
| ClientProperties.SetPortWhileConnected | client/ChatClient.java:119-141 | While connected, `#setport` prints the port and login refusals and changes nothing else |
| ClientProperties.LoginWhileConnected | client/ChatClient.java:134-137 | While connected, `#login` prints its refusal and changes nothing else |
| ClientProperties.SetHostWhileDisconnected | client/ChatClient.java:110-116 | Without a second token, "Host not specified" with the host unchanged; otherwise the host becomes that token |
| ClientProperties.SetPortWhileDisconnected | client/ChatClient.java:123-131 | Missing gives "Port not specified", unparsable gives "Port not a number", both keeping the port; a valid int sets exactly that port |
| ClientProperties.SetPortToNumber | client/ChatClient.java:123-126 | `"#setport " + Integer.toString(n)` while disconnected sets the port to `n` |
| ClientProperties.LoginWhileDisconnected | client/ChatClient.java:138-140 | While disconnected, `#login` opens and then sends `"#login " + loginId` with the construction-time id; a failure of either call is reported |
| ClientProperties.LogoffDropsArguments | client/ChatClient.java:102-105 | `#logoff` sends only `#logoff` whatever follows it, then closes, and never terminates |
| ClientProperties.QuitTerminates | client/ChatClient.java:98-101 | `#quit` sends `#quit`, closes if it can and terminates; if the send fails, the client reports it and keeps running |
| ClientProperties.ServerMessageShownVerbatim | client/ChatClient.java:63-65 | Server messages are shown unchanged and never interpreted |
| ClientProperties.UnknownCommandChangesNothing | client/ChatClient.java:148-149 | An unknown command prints "Command not recognized" and changes nothing else |
| ClientProperties.QueriesChangeNothing | client/ChatClient.java:142-147 | `#gethost` and `#getport` print the current value and change nothing else |
| ClientProperties.StepKeepsProtocol | client/ChatClient.java:63-173 | Any one event keeps the login id and keeps the sent-message log well formed |
| ClientProperties.RunKeepsProtocol | client/ChatClient.java:63-173 | The same over any run of events |
| ClientProperties.ReconnectAfterDrop | client/ChatClient.java:134-140 | After the transport drops the connection with an exception, the shutdown notice is printed and a `#login` line reopens the connection and sends the handshake |
| ClientProperties.ClientProtocolInvariant | client/ChatClient.java:29-151 | Over any run after construction, the login id is the constructor's. Every sent message is nonempty, a '#' message is `#quit`, `#logoff` or the handshake, and each handshake directly follows an opened connection |

## Left out

- ServerConsole.java is not part of this model: its console read loop, the default port 5555 and the `SERVER MSG>` prefix are I/O around the server.
- The OCSF transport (`AbstractServer`, `AbstractClient`, `ConnectionToClient`, sockets) is not part of this model. The model does not capture:
  - what `close()` does to individual connections;
  - when the hooks fire (they are separate events);
  - anything a failed call does beyond throwing.
- `sendToAllClients` is taken never to fail, since it declares no IOException. `stopListening`, `setPort` and `setHost` are taken never to fail either.
- Concurrency: the per-connection threads and any interleaving inside a handler are left out. Each handler is one atomic step.
- Console, UI and exit: printing and display are logs, and `System.exit(0)` is a flag. The model does not stop further events after termination.
- JavaText.ParseInt: accepts only ASCII decimal digits. Java's `Integer.parseInt` also accepts the other Unicode decimal digits.
- The inputs on which the Java code throws an unchecked exception are excluded by preconditions, since the source does not handle them:
  - an empty UI line (`charAt(0)`, client/ChatClient.java:74);
  - a server-side `#login` without an id token (`split(" ")[1]`, EchoServer.java:68);
  - an operator command line made only of spaces, whose `split` has no first token (EchoServer.java:88).
- Session ids are natural numbers standing for `ConnectionToClient` objects. Which `Object` arrives as a message is not modelled: messages are strings.
