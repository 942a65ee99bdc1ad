/**
 * ChatClient as a class: the final loginId, the state it inherits from its
 * transport (host, port, connected flag), and the logs of transport calls,
 * UI lines and console lines. Every handler follows the Java statement by
 * statement, the switch fall-through included, and is proved to produce the
 * state the corresponding function of ClientProtocol describes.
 */
module Client {
  import opened JavaText
  import opened ClientProtocol

  class ChatClient {
    const loginId: string
    var host: string
    var port: int32
    var connected: bool
    var calls: seq<ClientCall>
    var display: seq<string>
    var console: seq<ClientLine>
    var terminated: bool

    function State(): ClientState
      reads this
    {
      ClientState(loginId, host, port, connected, calls, display, console, terminated)
    }

    /** The constructor's handshake; `f` says which of its transport calls complete. */
    constructor (loginId: string, host: string, port: int32, f: Faults)
      ensures State() == Construct(loginId, host, port, f)
    {
      this.loginId := loginId;
      this.host := host;
      this.port := port;
      connected := false;
      calls := [];
      display := [];
      console := [];
      terminated := false;
      new;
      var outcome := OpenConnection(f.openOk);
      if outcome == Completed {
        outcome := SendToServer("#login " + loginId, f.sendOk);
      }
      if outcome == IOFailure {
        Println(CannotOpenConnection);
      }
    }

    // -- the transport and the UI, as abstract state ---------------------------

    function IsConnected(): bool
      reads this
    {
      connected
    }

    function GetHost(): string
      reads this
    {
      host
    }

    function GetPort(): int32
      reads this
    {
      port
    }

    method SetHost(h: string)
      modifies this
      ensures State() == old(State()).(host := h)
    {
      host := h;
    }

    method SetPort(p: int32)
      modifies this
      ensures State() == old(State()).(port := p)
    {
      port := p;
    }

    method Println(line: ClientLine)
      modifies this
      ensures State() == Print(old(State()), line)
    {
      console := console + [line];
    }

    /** `clientUI.display(text)` */
    method Display(text: string)
      modifies this
      ensures State() == old(State()).(display := old(display) + [text])
    {
      display := display + [text];
    }

    method OpenConnection(ok: bool) returns (outcome: Outcome)
      modifies this
      ensures outcome == (if ok then Completed else IOFailure)
      ensures State() == if ok then Opened(old(State())) else old(State())
    {
      if ok {
        connected := true;
        calls := calls + [OpenedConnection];
        outcome := Completed;
      } else {
        outcome := IOFailure;
      }
    }

    method SendToServer(text: string, ok: bool) returns (outcome: Outcome)
      modifies this
      ensures outcome == (if ok then Completed else IOFailure)
      ensures State() == if ok then Sent(old(State()), text) else old(State())
    {
      if ok {
        calls := calls + [SentToServer(text)];
        outcome := Completed;
      } else {
        outcome := IOFailure;
      }
    }

    method CloseConnection(ok: bool) returns (outcome: Outcome)
      modifies this
      ensures outcome == (if ok then Completed else IOFailure)
      ensures State() == if ok then Closed(old(State())) else old(State())
    {
      if ok {
        connected := false;
        calls := calls + [ClosedConnection];
        outcome := Completed;
      } else {
        outcome := IOFailure;
      }
    }

    // -- ChatClient's own methods ---------------------------------------------

    method HandleMessageFromServer(msg: string)
      modifies this
      ensures State() == OnServerMessage(old(State()), msg)
    {
      Display(msg);
    }

    /** `f` says which transport calls complete while this line is handled. */
    method HandleMessageFromClientUI(message: string, f: Faults)
      requires |message| > 0
      modifies this
      ensures State() == OnUILine(old(State()), message, f)
    {
      if message[0] == '#' {
        var outcome := HandleCommand(message, f);
        if outcome == IOFailure {
          Println(ErrorHandlingCommand);
        }
      } else {
        var outcome := SendToServer(message, f.sendOk);
        if outcome == IOFailure {
          Display(SendFailureNotice);
          Quit(f.closeOk);
        }
      }
    }

    /** The switch over the first token of the line. */
    method HandleCommand(message: string, f: Faults) returns (outcome: Outcome)
      requires Split(message) != []
      modifies this
      ensures (State(), outcome) == OnCommand(old(State()), message, f)
    {
      var commandParts := Split(message);
      var command := commandParts[0];
      outcome := Completed;
      if command == "#quit" {
        outcome := SendToServer(command, f.sendOk);
        if outcome == IOFailure {
          return;
        }
        Quit(f.closeOk);
      } else if command == "#logoff" {
        outcome := SendToServer(command, f.sendOk);
        if outcome == IOFailure {
          return;
        }
        outcome := CloseConnection(f.closeOk);
      } else if command == "#sethost" || command == "#setport" || command == "#login" {
        outcome := HostPortLogin(command, SecondToken(commandParts), f);
      } else if command == "#gethost" {
        Println(HostIs(GetHost()));
      } else if command == "#getport" {
        Println(PortIs(GetPort()));
      } else {
        Println(CommandNotRecognized);
      }
    }

    /**
     * The cases #sethost, #setport and #login of handleCommand's switch, entered
     * at `command`'s label; `falling` carries control from one case into the
     * next, and `arg` is the line's second token.
     */
    method HostPortLogin(command: string, arg: Option<string>, f: Faults) returns (outcome: Outcome)
      requires command == "#sethost" || command == "#setport" || command == "#login"
      modifies this
      ensures (State(), outcome) ==
              if command == "#sethost" then OnSetHost(old(State()), arg, f)
              else if command == "#setport" then OnSetPort(old(State()), arg, f)
              else OnLogin(old(State()), f)
    {
      outcome := Completed;
      var falling := false;
      if command == "#sethost" {
        if IsConnected() {
          Println(CantSetHost);
          falling := true;
        } else if arg.None? {
          Println(HostNotSpecified);
        } else {
          var h := arg.value;
          SetHost(h);
          Println(HostSetTo(h));
        }
      }
      if command == "#setport" || falling {
        falling := false;
        if IsConnected() {
          Println(CantSetPort);
          falling := true;
        } else if arg.None? {
          Println(PortNotSpecified);
        } else {
          var p := arg.value;
          var parsed := ParseInt(p);
          if parsed.None? {
            Println(PortNotANumber);
          } else {
            SetPort(parsed.value);
            Println(PortSetTo(p));
          }
        }
      }
      if command == "#login" || falling {
        if IsConnected() {
          Println(CantLogin);
        } else {
          outcome := OpenConnection(f.openOk);
          if outcome == IOFailure {
            return;
          }
          outcome := SendToServer("#login " + loginId, f.sendOk);
        }
      }
    }

    /** quit(): a failure to close is ignored; System.exit becomes the terminated flag. */
    method Quit(closeOk: bool)
      modifies this
      ensures State() == OnQuit(old(State()), closeOk)
    {
      var ignored := CloseConnection(closeOk);
      terminated := true;
    }

    method ConnectionClosed()
      modifies this
      ensures State() == OnConnectionClosed(old(State()))
    {
      Println(ConnectionClosedNotice);
    }

    method ConnectionException()
      modifies this
      ensures State() == OnConnectionException(old(State()))
    {
      Println(ServerShuttingDown);
    }
  }
}
