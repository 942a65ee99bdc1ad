/**
 * The client side of the chat relay as a state machine: what ChatClient's
 * constructor, UI handler, command interpreter, quit and transport hooks do
 * to the host, port and connection state it inherits from its transport,
 * to the log of transport calls, to the UI and to the console.
 *
 * The transport is abstract. A call into it is recorded in `calls` when it
 * completes; whether openConnection, sendToServer and closeConnection throw
 * IOException during one handler is given by a Faults value.
 */
module ClientProtocol {
  import opened JavaText

  /** A completed call into the transport. */
  datatype ClientCall =
    | OpenedConnection          // openConnection()
    | SentToServer(text: string) // sendToServer(text)
    | ClosedConnection          // closeConnection()

  /** Which transport calls complete during one handler; a false field means that call throws. */
  datatype Faults = Faults(openOk: bool, sendOk: bool, closeOk: bool)

  datatype ClientState = ClientState(
    loginId: string,         // the final loginId field
    host: string,            // getHost() / setHost()
    port: int32,             // getPort() / setPort()
    connected: bool,         // isConnected()
    calls: seq<ClientCall>,
    display: seq<string>,    // clientUI.display
    console: seq<ClientLine>, // System.out.println
    terminated: bool)        // System.exit(0)

  /** A line ChatClient prints on the console; Text gives its characters. */
  datatype ClientLine =
    | CannotOpenConnection
    | ErrorHandlingCommand
    | CantSetHost
    | HostSetTo(host: string)
    | HostNotSpecified
    | CantSetPort
    | PortSetTo(arg: string)
    | PortNotSpecified
    | PortNotANumber
    | CantLogin
    | HostIs(current: string)
    | PortIs(port: int32)
    | CommandNotRecognized
    | ConnectionClosedNotice
    | ServerShuttingDown

  /**
   * The characters of a console line. The queries print the host verbatim
   * and the port so that it reads back as that port.
   */
  function Text(line: ClientLine): (r: string)
    ensures line.HostIs? ==> r == line.current
    ensures line.PortIs? ==> ParseInt(r) == Some(line.port)
  {
    match line
    case CannotOpenConnection => "Cannot open connection. Awaiting command."
    case ErrorHandlingCommand => "Error handling command"
    case CantSetHost => "Can't set host while connected"
    case HostSetTo(host) => "Host set to: " + host
    case HostNotSpecified => "Host not specified"
    case CantSetPort => "Can't set port while connected"
    case PortSetTo(arg) => "Port set to: " + arg
    case PortNotSpecified => "Port not specified"
    case PortNotANumber => "Port not a number"
    case CantLogin => "Can't login when connected"
    case HostIs(current) => current
    case PortIs(port) => ParseIntToString(port); IntToString(port)
    case CommandNotRecognized => "Command not recognized"
    case ConnectionClosedNotice => "Connection closed"
    case ServerShuttingDown => "SERVER SHUTTING DOWN! DISCONNECTING!\nAbnormal termination of connection."
  }

  /** What the UI shows before the client quits because a chat line could not be sent. */
  const SendFailureNotice: string := "Could not send message to server.  Terminating client."

  /** The handshake message for a login id. */
  function LoginMessage(loginId: string): string
  {
    "#login " + loginId
  }

  function Print(s: ClientState, line: ClientLine): ClientState
  {
    s.(console := s.console + [line])
  }

  function Opened(s: ClientState): ClientState
  {
    s.(connected := true, calls := s.calls + [OpenedConnection])
  }

  function Sent(s: ClientState, text: string): ClientState
  {
    s.(calls := s.calls + [SentToServer(text)])
  }

  function Closed(s: ClientState): ClientState
  {
    s.(connected := false, calls := s.calls + [ClosedConnection])
  }

  // ---------------------------------------------------------------------------
  // Construction, quit, and what arrives from the server
  // ---------------------------------------------------------------------------

  /**
   * `new ChatClient(loginId, host, port, ui)`: open the connection, then send
   * the handshake; if either throws, print the notice and wait for commands.
   */
  function Construct(loginId: string, host: string, port: int32, f: Faults): ClientState
  {
    var s0 := ClientState(loginId, host, port, false, [], [], [], false);
    if !f.openOk then Print(s0, CannotOpenConnection)
    else if !f.sendOk then Print(Opened(s0), CannotOpenConnection)
    else Sent(Opened(s0), LoginMessage(loginId))
  }

  /** quit(): close the connection, ignoring a failure, and exit. */
  function OnQuit(s: ClientState, closeOk: bool): ClientState
  {
    (if closeOk then Closed(s) else s).(terminated := true)
  }

  /** handleMessageFromServer */
  function OnServerMessage(s: ClientState, msg: string): ClientState
  {
    s.(display := s.display + [msg])
  }

  /** connectionClosed() */
  function OnConnectionClosed(s: ClientState): ClientState
  {
    Print(s, ConnectionClosedNotice)
  }

  /** connectionException(e) */
  function OnConnectionException(s: ClientState): ClientState
  {
    Print(s, ServerShuttingDown)
  }

  // ---------------------------------------------------------------------------
  // Commands
  // ---------------------------------------------------------------------------

  /** A command line, read as its first token and, for #sethost and #setport, its second. */
  datatype ClientCommand =
    | QuitCmd
    | LogoffCmd
    | SetHostCmd(host: Option<string>)
    | SetPortCmd(port: Option<string>)
    | LoginCmd
    | GetHostCmd
    | GetPortCmd
    | UnknownCmd

  function SecondToken(parts: seq<string>): Option<string>
  {
    if |parts| >= 2 then Some(parts[1]) else None
  }

  function ParseCommand(message: string): ClientCommand
    requires Split(message) != []
  {
    var parts := Split(message);
    var name := parts[0];
    if name == "#quit" then QuitCmd
    else if name == "#logoff" then LogoffCmd
    else if name == "#sethost" then SetHostCmd(SecondToken(parts))
    else if name == "#setport" then SetPortCmd(SecondToken(parts))
    else if name == "#login" then LoginCmd
    else if name == "#gethost" then GetHostCmd
    else if name == "#getport" then GetPortCmd
    else UnknownCmd
  }

  /** The #login case: refused while connected; otherwise open, then send the handshake. */
  function OnLogin(s: ClientState, f: Faults): (ClientState, Outcome)
  {
    if s.connected then (Print(s, CantLogin), Completed)
    else if !f.openOk then (s, IOFailure)
    else if !f.sendOk then (Opened(s), IOFailure)
    else (Sent(Opened(s), LoginMessage(s.loginId)), Completed)
  }

  /** The #setport case, which falls through to #login while connected. */
  function OnSetPort(s: ClientState, arg: Option<string>, f: Faults): (ClientState, Outcome)
  {
    if s.connected then OnLogin(Print(s, CantSetPort), f)
    else match arg
      case None => (Print(s, PortNotSpecified), Completed)
      case Some(a) =>
        match ParseInt(a)
        case None => (Print(s, PortNotANumber), Completed)
        case Some(p) => (Print(s.(port := p), PortSetTo(a)), Completed)
  }

  /** The #sethost case, which falls through to #setport while connected. */
  function OnSetHost(s: ClientState, arg: Option<string>, f: Faults): (ClientState, Outcome)
  {
    if s.connected then OnSetPort(Print(s, CantSetHost), arg, f)
    else match arg
      case None => (Print(s, HostNotSpecified), Completed)
      case Some(h) => (Print(s.(host := h), HostSetTo(h)), Completed)
  }

  /** A parsed command applied to the state, and whether an IOException escaped. */
  function ApplyCommand(s: ClientState, cmd: ClientCommand, f: Faults): (ClientState, Outcome)
  {
    match cmd
    case QuitCmd =>
      if f.sendOk then (OnQuit(Sent(s, "#quit"), f.closeOk), Completed) else (s, IOFailure)
    case LogoffCmd =>
      if !f.sendOk then (s, IOFailure)
      else if f.closeOk then (Closed(Sent(s, "#logoff")), Completed)
      else (Sent(s, "#logoff"), IOFailure)
    case SetHostCmd(h) => OnSetHost(s, h, f)
    case SetPortCmd(p) => OnSetPort(s, p, f)
    case LoginCmd => OnLogin(s, f)
    case GetHostCmd => (Print(s, HostIs(s.host)), Completed)
    case GetPortCmd => (Print(s, PortIs(s.port)), Completed)
    case UnknownCmd => (Print(s, CommandNotRecognized), Completed)
  }

  /** handleCommand */
  function OnCommand(s: ClientState, message: string, f: Faults): (ClientState, Outcome)
    requires Split(message) != []
  {
    ApplyCommand(s, ParseCommand(message), f)
  }

  /**
   * handleMessageFromClientUI: a line starting with '#' is a command, and an
   * IOException out of it is reported; any other line is sent as it is, and
   * if that fails the client tells the UI and quits.
   */
  function OnUILine(s: ClientState, line: string, f: Faults): ClientState
    requires |line| > 0
  {
    if line[0] == '#' then
      var (t, outcome) := OnCommand(s, line, f);
      if outcome == IOFailure then Print(t, ErrorHandlingCommand) else t
    else if f.sendOk then Sent(s, line)
    else OnQuit(s.(display := s.display + [SendFailureNotice]), f.closeOk)
  }
}
