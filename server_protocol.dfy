/**
 * The server side of the chat relay as a state machine: what EchoServer's
 * handlers and lifecycle hooks do to the session registry (each connection's
 * "loginId" attribute), to the listening state and port the server inherits
 * from its transport, to the log of transport calls and to the console.
 *
 * The transport itself is abstract. A call into it is recorded in `calls`
 * when it completes; whether a call that can throw IOException completes is
 * a parameter of the handler (`ioOk`): each handler makes at most one such
 * call.
 */
module ServerProtocol {
  import opened JavaText

  /** A connection, as the transport identifies it. */
  type ConnId = nat

  /** A completed call into the transport. */
  datatype Call =
    | SentToAll(text: string)                    // sendToAllClients
    | SentToClient(client: ConnId, text: string) // client.sendToClient
    | ClosedClient(client: ConnId)               // client.close()
    | Listened                                   // listen()
    | StoppedListening                           // stopListening()
    | ClosedServer                               // close()

  datatype ServerState = ServerState(
    serverClosed: bool,             // EchoServer.serverClosed
    listening: bool,                // isListening()
    port: int32,                    // getPort() / setPort()
    loginIds: map<ConnId, string>,  // getInfo("loginId"); a missing key reads as null
    calls: seq<Call>,
    console: seq<ServerLine>,       // System.out.println
    terminated: bool)               // System.exit(0)

  /** A line EchoServer prints; Text gives its characters. */
  datatype ServerLine =
    | MessageReceived(msg: string, sender: Option<string>)
    | AlreadyLoggedIn
    | ErrorClosingClient
    | LoggedOn(id: string)
    | MustBeClosedToSetPort
    | PortNotSpecified
    | PortNotValidNumber
    | PortSetTo(arg: string)
    | MustBeStoppedToStart
    | PortIs(port: int32)
    | CommandNotRecognized
    | ListeningOnPort(port: int32)
    | StoppedListeningNotice
    | ServerHasBeenClosed
    | ClientAttemptingToConnect
    | DisconnectNotice(who: Option<string>)

  /**
   * The characters of a console line. The login line is the greeting the
   * client is sent, the disconnect line the farewell that is broadcast, and
   * a printed port reads back as that port.
   */
  function Text(line: ServerLine): (r: string)
    ensures line.LoggedOn? ==> r == Greeting(line.id)
    ensures line.DisconnectNotice? ==> r == Farewell(line.who)
    ensures line.PortIs? ==> ParseInt(r) == Some(line.port)
  {
    match line
    case MessageReceived(msg, sender) => "Message received: " + msg + " from " + Render(sender)
    case AlreadyLoggedIn => "Error, already logged in."
    case ErrorClosingClient => "Error closing client connection."
    case LoggedOn(id) => Greeting(id)
    case MustBeClosedToSetPort => "Server must be closed to set port"
    case PortNotSpecified => "Port not specified"
    case PortNotValidNumber => "Port not a valid number"
    case PortSetTo(arg) => "Port set to: " + arg
    case MustBeStoppedToStart => "Server must be stopped to start"
    case PortIs(port) => ParseIntToString(port); IntToString(port)
    case CommandNotRecognized => "Command not recognized"
    case ListeningOnPort(port) => "Server listening for connections on port " + IntToString(port)
    case StoppedListeningNotice => "Server has stopped listening for connections."
    case ServerHasBeenClosed => "Server has been closed"
    case ClientAttemptingToConnect => "A new client is attempting to connect to the server"
    case DisconnectNotice(who) => Farewell(who)
  }

  /** `new EchoServer(port, ui)`: not listening, and the closed flag starts false. */
  function Initial(port: int32): ServerState
  {
    ServerState(false, false, port, map[], [], [], false)
  }

  function Print(s: ServerState, line: ServerLine): ServerState
  {
    s.(console := s.console + [line])
  }

  function Log(s: ServerState, call: Call): ServerState
  {
    s.(calls := s.calls + [call])
  }

  /** `client.getInfo("loginId")` */
  function LoginIdOf(s: ServerState, client: ConnId): Option<string>
  {
    if client in s.loginIds then Some(s.loginIds[client]) else None
  }

  // ---------------------------------------------------------------------------
  // Messages from clients
  // ---------------------------------------------------------------------------

  predicate IsLoginMessage(msg: string)
  {
    StartsWith(msg, "#login")
  }

  predicate IsSessionEnd(msg: string)
  {
    msg == "#logoff" || msg == "#quit"
  }

  /** handleLogin reads the second token; a login message without one throws. */
  predicate CanHandle(msg: string)
  {
    IsLoginMessage(msg) ==> |Split(msg)| >= 2
  }

  function Greeting(id: string): string
  {
    "<" + id + "> has logged on"
  }

  /**
   * handleLogin: the first login stores the id and greets the sender; a later
   * one closes the connection. `ioOk` says whether that greeting or close
   * completes.
   */
  function OnLogin(s: ServerState, msg: string, client: ConnId, ioOk: bool): ServerState
    requires |Split(msg)| >= 2
  {
    var id := Split(msg)[1];
    if client in s.loginIds then
      var s1 := Print(s, AlreadyLoggedIn);
      if ioOk then Log(s1, ClosedClient(client))
      else Print(s1, ErrorClosingClient)
    else
      var s1 := s.(loginIds := s.loginIds[client := id]);
      var s2 := Print(s1, LoggedOn(id));
      if ioOk then Log(s2, SentToClient(client, Greeting(id))) else s2
  }

  /** handleMessageFromClient; `ioOk` says whether the close or greeting it makes completes. */
  function OnClientMessage(s: ServerState, msg: string, client: ConnId, ioOk: bool): ServerState
    requires CanHandle(msg)
  {
    var s1 := Print(s, MessageReceived(msg, LoginIdOf(s, client)));
    if IsLoginMessage(msg) then OnLogin(s1, msg, client, ioOk)
    else if IsSessionEnd(msg) then (if ioOk then Log(s1, ClosedClient(client)) else s1)
    else Log(s1, SentToAll(Render(LoginIdOf(s, client)) + "> " + msg))
  }

  // ---------------------------------------------------------------------------
  // Operator commands
  // ---------------------------------------------------------------------------

  /** A command line, read as its first token and, for #setport, its second. */
  datatype Command =
    | Quit
    | Stop
    | Close
    | SetPort(arg: Option<string>)
    | Start
    | GetPort
    | Unrecognized

  function ParseCommand(message: string): Command
    requires Split(message) != []
  {
    var parts := Split(message);
    var name := parts[0];
    if name == "#quit" then Quit
    else if name == "#stop" then Stop
    else if name == "#close" then Close
    else if name == "#setport" then SetPort(if |parts| >= 2 then Some(parts[1]) else None)
    else if name == "#start" then Start
    else if name == "#getport" then GetPort
    else Unrecognized
  }

  function OnSetPort(s: ServerState, arg: Option<string>): ServerState
  {
    if !s.serverClosed then Print(s, MustBeClosedToSetPort)
    else match arg
      case None => Print(s, PortNotSpecified)
      case Some(a) =>
        match ParseInt(a)
        case None => Print(s, PortNotValidNumber)
        case Some(p) => Print(s.(port := p), PortSetTo(a))
  }

  /** A parsed command applied to the state; see OnCommand. */
  function ApplyCommand(s: ServerState, cmd: Command, ioOk: bool): (ServerState, Outcome)
  {
    match cmd
    case Quit =>
      if ioOk then (Log(s, ClosedServer).(listening := false, terminated := true), Completed)
      else (s, IOFailure)
    case Stop => (Log(s, StoppedListening).(listening := false), Completed)
    case Close =>
      if ioOk then (Log(s, ClosedServer).(listening := false), Completed)
      else (s, IOFailure)
    case SetPort(arg) => (OnSetPort(s, arg), Completed)
    case Start =>
      if s.listening then (Print(s, MustBeStoppedToStart), Completed)
      else if ioOk then (Log(s, Listened).(listening := true), Completed)
      else (s, IOFailure)
    case GetPort => (Print(s, PortIs(s.port)), Completed)
    case Unrecognized => (Print(s, CommandNotRecognized), Completed)
  }

  /**
   * handleCommand: the new state, and whether an IOException from close() or
   * listen() escaped (`ioOk` says whether that call succeeds).
   */
  function OnCommand(s: ServerState, message: string, ioOk: bool): (ServerState, Outcome)
    requires Split(message) != []
  {
    ApplyCommand(s, ParseCommand(message), ioOk)
  }

  // ---------------------------------------------------------------------------
  // Hooks the transport calls
  // ---------------------------------------------------------------------------

  function OnServerStarted(s: ServerState): ServerState
  {
    Print(s.(serverClosed := false), ListeningOnPort(s.port))
  }

  function OnServerStopped(s: ServerState): ServerState
  {
    Log(Print(s, StoppedListeningNotice), SentToAll(StopWarning))
  }

  function OnServerClosed(s: ServerState): ServerState
  {
    Print(s.(serverClosed := true), ServerHasBeenClosed)
  }

  function OnClientConnected(s: ServerState, client: ConnId): ServerState
  {
    Print(s, ClientAttemptingToConnect)
  }

  /** What every client is told when the server stops listening. */
  const StopWarning: string := "WARNING - server has stopped listening to connections"

  function Farewell(id: Option<string>): string
  {
    "<" + Render(id) + "> has disconnected"
  }

  function OnClientDisconnected(s: ServerState, client: ConnId): ServerState
  {
    var id := LoginIdOf(s, client);
    Log(Print(s, DisconnectNotice(id)), SentToAll(Farewell(id)))
  }
}
